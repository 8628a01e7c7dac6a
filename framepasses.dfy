/** The per-frame passes over the entity collections: the obstacle and star
    filters (each entity is scrolled, then dropped as off-screen, dropped on
    collision, or kept), the particle filter, the in-place recycling of the
    background stars, and the spawn clocks. Each pass is a specification
    function plus, where the game runs it as a loop, a method proved
    against it. */
module FramePasses {
  import opened Entities

  /** `a` is `b` with some elements removed, order kept. */
  predicate IsSubsequence<T(==)>(a: seq<T>, b: seq<T>)
    decreases |b|
  {
    if a == [] then true
    else if b == [] then false
    else (a[|a| - 1] == b[|b| - 1] && IsSubsequence(a[..|a| - 1], b[..|b| - 1]))
         || IsSubsequence(a, b[..|b| - 1])
  }

  /** Every element of a subsequence is an element of the whole, and the
      subsequence is no longer. */
  lemma {:induction false} SubsequenceElements<T>(a: seq<T>, b: seq<T>)
    requires IsSubsequence(a, b)
    ensures |a| <= |b|
    ensures forall x :: x in a ==> x in b
    decreases |b|
  {
    if a != [] {
      assert b != [];
      var a', b' := a[..|a| - 1], b[..|b| - 1];
      assert b == b' + [b[|b| - 1]];
      if a[|a| - 1] == b[|b| - 1] && IsSubsequence(a', b') {
        SubsequenceElements(a', b');
        assert a == a' + [a[|a| - 1]];
      } else {
        SubsequenceElements(a, b');
      }
    }
  }

  /** Keeping the next element extends a subsequence. */
  lemma SubsequenceKeep<T>(a: seq<T>, b: seq<T>, x: T)
    requires IsSubsequence(a, b)
    ensures IsSubsequence(a + [x], b + [x])
  {
    assert (a + [x])[..|a|] == a;
    assert (b + [x])[..|b|] == b;
  }

  /** Dropping the next element keeps a subsequence. */
  lemma SubsequenceDrop<T>(a: seq<T>, b: seq<T>, x: T)
    requires IsSubsequence(a, b)
    ensures IsSubsequence(a, b + [x])
  {
    assert (b + [x])[..|b|] == b;
  }

  // ---------------------------------------------------------------- obstacles

  /** The outcome of the obstacle pass: the obstacles kept (scrolled), how
      many scrolled off the screen, and how many hit the ship. */
  datatype ObstacleTally = ObstacleTally(kept: seq<Obstacle>, passed: nat, hits: nat)

  /** Every obstacle scrolled, in order. */
  function ScrollObstacles(obs: seq<Obstacle>, camX: real, speed: real): (r: seq<Obstacle>)
    ensures |r| == |obs|
  {
    seq(|obs|, i requires 0 <= i < |obs| => obs[i].Scrolled(camX, speed))
  }

  /** The obstacle pass over `obs`, front to back: each obstacle is
      scrolled, then counted as passed if it left the screen, counted as a
      hit if it overlaps the ship, and kept otherwise. */
  function ObstaclePass(obs: seq<Obstacle>, camX: real, speed: real, ship: Hitbox): (t: ObstacleTally)
    ensures |t.kept| + t.passed + t.hits == |obs|
    ensures forall i :: 0 <= i < |t.kept| ==> t.kept[i].Visible() && !t.kept[i].CollidesWith(ship)
  {
    if obs == [] then ObstacleTally([], 0, 0)
    else
      var t := ObstaclePass(obs[..|obs| - 1], camX, speed, ship);
      var o := obs[|obs| - 1].Scrolled(camX, speed);
      if !o.Visible() then t.(passed := t.passed + 1)
      else if o.CollidesWith(ship) then t.(hits := t.hits + 1)
      else t.(kept := t.kept + [o])
  }

  /** The kept obstacles are the scrolled obstacles with some removed, in
      their original order. */
  lemma {:induction false} ObstaclePassKeepsOrder(obs: seq<Obstacle>, camX: real, speed: real, ship: Hitbox)
    ensures IsSubsequence(ObstaclePass(obs, camX, speed, ship).kept, ScrollObstacles(obs, camX, speed))
  {
    if obs != [] {
      var init := obs[..|obs| - 1];
      ObstaclePassKeepsOrder(init, camX, speed, ship);
      var o := obs[|obs| - 1].Scrolled(camX, speed);
      assert ScrollObstacles(obs, camX, speed) == ScrollObstacles(init, camX, speed) + [o];
      var t := ObstaclePass(init, camX, speed, ship);
      if o.Visible() && !o.CollidesWith(ship) {
        SubsequenceKeep(t.kept, ScrollObstacles(init, camX, speed), o);
      } else {
        SubsequenceDrop(t.kept, ScrollObstacles(init, camX, speed), o);
      }
    }
  }

  /** How many of the obstacles are off the screen. */
  function ObstaclesOffScreen(os: seq<Obstacle>): nat
  {
    if os == [] then 0
    else ObstaclesOffScreen(os[..|os| - 1]) + if os[|os| - 1].Visible() then 0 else 1
  }

  /** How many of the obstacles are on the screen and overlap the ship. */
  function ObstaclesHitting(os: seq<Obstacle>, ship: Hitbox): nat
  {
    if os == [] then 0
    else ObstaclesHitting(os[..|os| - 1], ship) + if os[|os| - 1].Visible() && os[|os| - 1].CollidesWith(ship) then 1 else 0
  }

  /** What the obstacle pass counts and keeps, over the scrolled obstacles:
      `passed` is the number off the screen, `hits` the number on it that
      overlap the ship, every other one is kept, and nothing else is. */
  lemma {:induction false} ObstaclePassCounts(obs: seq<Obstacle>, camX: real, speed: real, ship: Hitbox)
    ensures var t := ObstaclePass(obs, camX, speed, ship);
      var sc := ScrollObstacles(obs, camX, speed);
      t.passed == ObstaclesOffScreen(sc) && t.hits == ObstaclesHitting(sc, ship)
      && (forall i :: 0 <= i < |sc| && sc[i].Visible() && !sc[i].CollidesWith(ship) ==> sc[i] in t.kept)
      && (forall o :: o in t.kept ==> o in sc)
  {
    var t := ObstaclePass(obs, camX, speed, ship);
    var sc := ScrollObstacles(obs, camX, speed);
    ObstaclePassKeepsOrder(obs, camX, speed, ship);
    SubsequenceElements(t.kept, sc);
    if obs != [] {
      var init := obs[..|obs| - 1];
      ObstaclePassCounts(init, camX, speed, ship);
      var o := obs[|obs| - 1].Scrolled(camX, speed);
      assert sc == ScrollObstacles(init, camX, speed) + [o];
      assert sc[..|sc| - 1] == ScrollObstacles(init, camX, speed);
      forall i | 0 <= i < |sc| && sc[i].Visible() && !sc[i].CollidesWith(ship)
        ensures sc[i] in t.kept
      {
        if i < |init| {
          assert sc[i] == ScrollObstacles(init, camX, speed)[i];
        }
      }
    }
  }

  /** The obstacle filter as the game runs it: scores 20 per obstacle that
      scrolled off, takes a life per obstacle that hits the ship and ends
      the game once a hit leaves no lives. */
  method FilterObstacles(obs: seq<Obstacle>, camX: real, speed: real, ship: Hitbox,
                         score: int, lives: int, gameOver: bool)
    returns (kept: seq<Obstacle>, score': int, lives': int, gameOver': bool)
    ensures var t := ObstaclePass(obs, camX, speed, ship);
      kept == t.kept && score' == score + 20 * t.passed && lives' == lives - t.hits
      && gameOver' == (gameOver || (t.hits > 0 && lives' <= 0))
  {
    kept, score', lives', gameOver' := [], score, lives, gameOver;
    var i := 0;
    while i < |obs|
      invariant 0 <= i <= |obs|
      invariant var t := ObstaclePass(obs[..i], camX, speed, ship);
        kept == t.kept && score' == score + 20 * t.passed && lives' == lives - t.hits
        && gameOver' == (gameOver || (t.hits > 0 && lives' <= 0))
    {
      assert obs[..i + 1][..i] == obs[..i];
      var o := obs[i].Scrolled(camX, speed);
      if !o.Visible() {
        score' := score' + 20;
      } else if o.CollidesWith(ship) {
        lives' := lives' - 1;
        if lives' <= 0 {
          gameOver' := true;
        }
      } else {
        kept := kept + [o];
      }
      i := i + 1;
    }
    assert obs[..|obs|] == obs;
  }

  // ---------------------------------------------------------------- bonus stars

  /** The outcome of the star pass: the stars kept (scrolled), how many the
      ship collected and how many scrolled off. */
  datatype StarTally = StarTally(kept: seq<Star>, collected: nat, passed: nat)

  function ScrollStars(stars: seq<Star>, camX: real): (r: seq<Star>)
    ensures |r| == |stars|
  {
    seq(|stars|, i requires 0 <= i < |stars| => stars[i].Scrolled(camX))
  }

  /** The star pass: each star scrolls at its own speed, then is dropped if
      it left the screen, collected if it touches the ship, kept otherwise. */
  function StarPass(stars: seq<Star>, camX: real, ship: Hitbox): (t: StarTally)
    ensures |t.kept| + t.collected + t.passed == |stars|
    ensures forall i :: 0 <= i < |t.kept| ==> t.kept[i].Visible() && !t.kept[i].CollidesWith(ship)
  {
    if stars == [] then StarTally([], 0, 0)
    else
      var t := StarPass(stars[..|stars| - 1], camX, ship);
      var s := stars[|stars| - 1].Scrolled(camX);
      if !s.Visible() then t.(passed := t.passed + 1)
      else if s.CollidesWith(ship) then t.(collected := t.collected + 1)
      else t.(kept := t.kept + [s])
  }

  lemma {:induction false} StarPassKeepsOrder(stars: seq<Star>, camX: real, ship: Hitbox)
    ensures IsSubsequence(StarPass(stars, camX, ship).kept, ScrollStars(stars, camX))
  {
    if stars != [] {
      var init := stars[..|stars| - 1];
      StarPassKeepsOrder(init, camX, ship);
      var s := stars[|stars| - 1].Scrolled(camX);
      assert ScrollStars(stars, camX) == ScrollStars(init, camX) + [s];
      var t := StarPass(init, camX, ship);
      if s.Visible() && !s.CollidesWith(ship) {
        SubsequenceKeep(t.kept, ScrollStars(init, camX), s);
      } else {
        SubsequenceDrop(t.kept, ScrollStars(init, camX), s);
      }
    }
  }

  /** How many of the stars are off the screen. */
  function StarsOffScreen(ss: seq<Star>): nat
  {
    if ss == [] then 0
    else StarsOffScreen(ss[..|ss| - 1]) + if ss[|ss| - 1].Visible() then 0 else 1
  }

  /** How many of the stars are on the screen and touch the ship. */
  function StarsTouching(ss: seq<Star>, ship: Hitbox): nat
  {
    if ss == [] then 0
    else StarsTouching(ss[..|ss| - 1], ship) + if ss[|ss| - 1].Visible() && ss[|ss| - 1].CollidesWith(ship) then 1 else 0
  }

  /** What the star pass counts and keeps, over the scrolled stars:
      `collected` is the number on the screen that touch the ship, `passed`
      the number off it, every other one is kept, and nothing else is. */
  lemma {:induction false} StarPassCounts(stars: seq<Star>, camX: real, ship: Hitbox)
    ensures var t := StarPass(stars, camX, ship);
      var sc := ScrollStars(stars, camX);
      t.passed == StarsOffScreen(sc) && t.collected == StarsTouching(sc, ship)
      && (forall i :: 0 <= i < |sc| && sc[i].Visible() && !sc[i].CollidesWith(ship) ==> sc[i] in t.kept)
      && (forall x :: x in t.kept ==> x in sc)
  {
    var t := StarPass(stars, camX, ship);
    var sc := ScrollStars(stars, camX);
    StarPassKeepsOrder(stars, camX, ship);
    SubsequenceElements(t.kept, sc);
    if stars != [] {
      var init := stars[..|stars| - 1];
      StarPassCounts(init, camX, ship);
      var s := stars[|stars| - 1].Scrolled(camX);
      assert sc == ScrollStars(init, camX) + [s];
      assert sc[..|sc| - 1] == ScrollStars(init, camX);
      forall i | 0 <= i < |sc| && sc[i].Visible() && !sc[i].CollidesWith(ship)
        ensures sc[i] in t.kept
      {
        if i < |init| {
          assert sc[i] == ScrollStars(init, camX)[i];
        }
      }
    }
  }

  /** The star filter as the game runs it: 100 points per star collected. */
  method FilterStars(stars: seq<Star>, camX: real, ship: Hitbox, score: int)
    returns (kept: seq<Star>, score': int)
    ensures var t := StarPass(stars, camX, ship);
      kept == t.kept && score' == score + 100 * t.collected
  {
    kept, score' := [], score;
    var i := 0;
    while i < |stars|
      invariant 0 <= i <= |stars|
      invariant var t := StarPass(stars[..i], camX, ship);
        kept == t.kept && score' == score + 100 * t.collected
    {
      assert stars[..i + 1][..i] == stars[..i];
      var s := stars[i].Scrolled(camX);
      if !s.Visible() {
      } else if s.CollidesWith(ship) {
        score' := score' + 100;
      } else {
        kept := kept + [s];
      }
      i := i + 1;
    }
    assert stars[..|stars|] == stars;
  }

  // ---------------------------------------------------------------- particles

  /** The particle pass: each particle ages one frame and is kept while it
      has life left. */
  function ParticlePass(ps: seq<Particle>): (kept: seq<Particle>)
    ensures |kept| <= |ps|
    ensures forall i :: 0 <= i < |kept| ==> kept[i].Alive()
  {
    if ps == [] then []
    else
      var kept := ParticlePass(ps[..|ps| - 1]);
      var p := ps[|ps| - 1].Aged();
      if p.Alive() then kept + [p] else kept
  }

  function AgeAll(ps: seq<Particle>): (r: seq<Particle>)
    ensures |r| == |ps|
  {
    seq(|ps|, i requires 0 <= i < |ps| => ps[i].Aged())
  }

  /** The particle pass keeps exactly the aged particles still alive, in
      order: a subsequence of the aged particles that contains every one
      with life left. */
  lemma {:induction false} ParticlePassIsFilter(ps: seq<Particle>)
    ensures IsSubsequence(ParticlePass(ps), AgeAll(ps))
    ensures forall i :: 0 <= i < |ps| && ps[i].Aged().Alive() ==> ps[i].Aged() in ParticlePass(ps)
  {
    if ps != [] {
      var init := ps[..|ps| - 1];
      ParticlePassIsFilter(init);
      var p := ps[|ps| - 1].Aged();
      assert AgeAll(ps) == AgeAll(init) + [p];
      if p.Alive() {
        SubsequenceKeep(ParticlePass(init), AgeAll(init), p);
      } else {
        SubsequenceDrop(ParticlePass(init), AgeAll(init), p);
      }
      forall i | 0 <= i < |ps| && ps[i].Aged().Alive()
        ensures ps[i].Aged() in ParticlePass(ps)
      {
        if i < |init| {
          assert ps[i] == init[i];
        }
      }
    }
  }

  /** The particle filter as the game runs it. */
  method AgeParticles(ps: seq<Particle>) returns (kept: seq<Particle>)
    ensures kept == ParticlePass(ps)
  {
    kept := [];
    var i := 0;
    while i < |ps|
      invariant 0 <= i <= |ps|
      invariant kept == ParticlePass(ps[..i])
    {
      assert ps[..i + 1][..i] == ps[..i];
      var p := ps[i].Aged();
      if p.life > 0.0 {
        kept := kept + [p];
      }
      i := i + 1;
    }
    assert ps[..|ps|] == ps;
  }

  // ---------------------------------------------------------------- background stars

  predicate RecycleDrawsOk(draws: seq<(real, real)>)
  {
    forall i :: 0 <= i < |draws| ==> Unit(draws[i].0) && Unit(draws[i].1)
  }

  /** One frame of the whole background field; star `i` uses `draws[i]`
      if it has to be moved back to the right. */
  function RecycledAll(field: seq<BgStar>, camX: real, w: real, h: real, draws: seq<(real, real)>): (r: seq<BgStar>)
    requires 0.0 <= w && 0.0 <= h && |draws| == |field| && RecycleDrawsOk(draws)
    ensures |r| == |field|
    ensures forall i :: 0 <= i < |r| ==> r[i].speed == field[i].speed && r[i].x - camX >= -10.0
    ensures forall i :: 0 <= i < |r| && field[i].x - field[i].speed - camX >= -10.0 ==>
      r[i] == field[i].(x := field[i].x - field[i].speed)
    ensures forall i :: 0 <= i < |r| && field[i].x - field[i].speed - camX < -10.0 ==>
      camX + w <= r[i].x < camX + w + 100.0 && 0.0 <= r[i].y <= h
  {
    seq(|field|, i requires 0 <= i < |field| => Recycled(field[i], camX, w, h, draws[i]))
  }

  /** The background pass as the game runs it, rewriting each star in
      place: scroll by its speed, and move it just beyond the right edge at
      a new height once its screen X falls below -10. */
  method RecycleField(a: array<BgStar>, camX: real, w: real, h: real, draws: seq<(real, real)>)
    requires 0.0 <= w && 0.0 <= h && |draws| == a.Length && RecycleDrawsOk(draws)
    modifies a
    ensures a[..] == RecycledAll(old(a[..]), camX, w, h, draws)
  {
    for i := 0 to a.Length
      invariant forall j :: 0 <= j < i ==> a[j] == Recycled(old(a[j]), camX, w, h, draws[j])
      invariant forall j :: i <= j < a.Length ==> a[j] == old(a[j])
    {
      var x := a[i].x - a[i].speed;
      if x - camX < -10.0 {
        a[i] := BgStar(camX + w + draws[i].0 * 100.0, draws[i].1 * h, a[i].speed);
      } else {
        a[i] := a[i].(x := x);
      }
    }
  }

  /** A freshly drawn field as an array, one star per draw. */
  method NewField(x0: real, w: real, h: real, vs: real, draws: seq<(real, real, real)>) returns (a: array<BgStar>)
    requires 0.0 <= w && 0.0 < vs && FieldDrawsOk(draws)
    ensures fresh(a) && a[..] == StarField(x0, w, h, vs, draws)
  {
    a := new BgStar[|draws|](i requires 0 <= i < |draws| => FieldStar(x0, w, h, vs, draws[i]));
  }

  // ---------------------------------------------------------------- spawn clocks

  /** A spawn clock: the timer grows by `inc` each frame and, once it
      exceeds `threshold`, fires and restarts from zero. Returns the new
      timer and whether it fired. */
  function SpawnClock(timer: real, inc: real, threshold: real): (r: (real, bool))
    ensures r.1 <==> timer + inc > threshold
    ensures r.1 ==> r.0 == 0.0
    ensures !r.1 ==> r.0 == timer + inc
    ensures 0.0 <= timer + inc && 0.0 <= threshold ==> 0.0 <= r.0 <= threshold
  {
    var t := timer + inc;
    if t > threshold then (0.0, true) else (t, false)
  }
}
