/** The moving things of the world besides the ship: obstacles (hazards),
    bonus stars, trail particles and background stars. Each entity is a
    record; its per-frame update yields the updated record. Random draws
    are parameters in [0, 1), and `gs` is the game's visual scale. */
module Entities {

  /** A uniform draw, as `Math.random()` returns. */
  predicate Unit(r: real) { 0.0 <= r < 1.0 }

  /** The ship as the collision tests see it: its screen centre and its
      half-extents. */
  datatype Hitbox = Hitbox(cx: real, cy: real, halfW: real, halfH: real)

  /** A product of non-negative reals is non-negative. */
  lemma MulNonneg(a: real, b: real)
    requires 0.0 <= a && 0.0 <= b
    ensures 0.0 <= a * b
  {
  }

  /** `x == (r * span + lo) * gs` lies in [lo*gs, (lo+span)*gs). */
  lemma ScaledDraw(r: real, lo: real, span: real, gs: real, x: real)
    requires Unit(r) && 0.0 < span && 0.0 < gs && x == (r * span + lo) * gs
    ensures lo * gs <= x < (lo + span) * gs
  {
    var q := r * (span * gs);
    assert x == q + lo * gs;
    assert 0.0 <= q < span * gs;
  }

  /** A draw `x == r * m` scaled by a non-negative extent stays within it. */
  lemma DrawWithin(r: real, m: real, x: real)
    requires Unit(r) && x == r * m
    ensures 0.0 <= m ==> 0.0 <= x <= m
  {
    if 0.0 <= m {
      MulNonneg(r, m);
      MulNonneg(1.0 - r, m);
      assert (1.0 - r) * m == m - r * m;
    }
  }

  /** A value `p == c * m` with |c| <= 1 and m >= 0 lies in [-m, m]. */
  lemma Attenuated(c: real, m: real, p: real)
    requires -1.0 <= c <= 1.0 && 0.0 <= m && p == c * m
    ensures -m <= p <= m
  {
    MulNonneg(1.0 - c, m);
    MulNonneg(1.0 + c, m);
    assert (1.0 - c) * m == m - c * m;
    assert (1.0 + c) * m == m + c * m;
  }

  /** For non-negative reals, order agrees with the order of squares. */
  lemma SquareOrder(a: real, b: real)
    requires 0.0 <= a && 0.0 <= b
    ensures a < b <==> a * a < b * b
  {
    var aa, ab, bb := a * a, a * b, b * b;
    if a < b {
      assert aa <= ab < bb;
    } else {
      assert bb <= ab <= aa;
    }
  }

  /** A point strictly inside the horizontal span [left, left + len]. */
  predicate InSpan(left: real, len: real, px: real)
  {
    left < px < left + len
  }

  /** A span of positive length reaches past the left edge of the screen
      exactly when some point strictly inside it lies right of that edge. */
  lemma SpanReachesScreen(left: real, len: real)
    requires 0.0 < len
    ensures left + len > 0.0 <==> exists px: real :: InSpan(left, len, px) && 0.0 < px
  {
    if left + len > 0.0 {
      var lo := if left >= 0.0 then left else 0.0;
      var px := lo / 2.0 + (left + len) / 2.0;
      assert InSpan(left, len, px) && 0.0 < px;
    }
  }

  // ---------------------------------------------------------------- obstacles

  datatype Obstacle = Obstacle(worldX: real, screenX: real, screenY: real, width: real, height: real)
  {
    /** `Obstacle.update`'s move: scroll left by `speed` and project to the
        screen through the camera. */
    function Scrolled(camX: real, speed: real): Obstacle
    {
      this.(worldX := worldX - speed, screenX := worldX - speed - camX)
    }

    /** `Obstacle.update`'s result: still at least partly on screen. */
    predicate Visible()
    {
      screenX + width > 0.0
    }

    /** Strict overlap of the ship's box and the obstacle's rectangle. */
    predicate CollidesWith(ship: Hitbox)
    {
      ship.cx - ship.halfW < screenX + width &&
      ship.cx + ship.halfW > screenX &&
      ship.cy - ship.halfH < screenY + height &&
      ship.cy + ship.halfH > screenY
    }
  }

  /** A new obstacle at `spawnX`; `rw`, `rh`, `ry` are the draws for its
      width, height and height on screen in a viewport `h` high. */
  function NewObstacle(spawnX: real, rw: real, rh: real, ry: real, gs: real, h: real): (o: Obstacle)
    requires Unit(rw) && Unit(rh) && Unit(ry) && 0.0 < gs
    ensures o.worldX == spawnX && o.screenX == 0.0
    ensures 80.0 * gs <= o.width < 160.0 * gs && 80.0 * gs <= o.height < 160.0 * gs
    ensures o.height <= h ==> 0.0 <= o.screenY <= h - o.height
  {
    var width := (rw * 80.0 + 80.0) * gs;
    var height := (rh * 80.0 + 80.0) * gs;
    var y := ry * (h - height);
    ScaledDraw(rw, 80.0, 80.0, gs, width);
    ScaledDraw(rh, 80.0, 80.0, gs, height);
    DrawWithin(ry, h - height, y);
    Obstacle(spawnX, 0.0, y, width, height)
  }

  /** Where an obstacle spawns: 50 to 150 beyond the right edge of the
      viewport. */
  function ObstacleSpawnX(camX: real, w: real, r: real): (x: real)
    requires Unit(r)
    ensures camX + w + 50.0 <= x < camX + w + 150.0
  {
    camX + w + (r * 100.0 + 50.0)
  }

  /** `n` frames of scrolling at a fixed camera and speed. */
  function ScrolledN(o: Obstacle, camX: real, speed: real, n: nat): Obstacle
  {
    if n == 0 then o else ScrolledN(o, camX, speed, n - 1).Scrolled(camX, speed)
  }

  lemma {:induction false} ScrolledNPosition(o: Obstacle, camX: real, speed: real, n: nat)
    ensures ScrolledN(o, camX, speed, n).worldX == o.worldX - (n as real) * speed
    ensures n > 0 ==> ScrolledN(o, camX, speed, n).screenX == o.worldX - (n as real) * speed - camX
    ensures ScrolledN(o, camX, speed, n).width == o.width
  {
    if n > 0 {
      ScrolledNPosition(o, camX, speed, n - 1);
      assert (n as real) * speed == ((n - 1) as real) * speed + speed;
    }
  }

  /** After `n >= 1` frames at a fixed camera an obstacle is still kept
      exactly while the distance scrolled is less than how far its right
      edge started from the left edge of the screen. */
  lemma LeavesScreen(o: Obstacle, camX: real, speed: real, n: nat)
    requires n >= 1
    ensures ScrolledN(o, camX, speed, n).Visible() <==> (n as real) * speed < o.worldX - camX + o.width
  {
    ScrolledNPosition(o, camX, speed, n);
  }

  /** An obstacle is kept exactly while part of it is still on the screen:
      some point strictly inside its width lies right of the left edge. */
  lemma ObstacleVisibleMeansOnScreen(o: Obstacle)
    requires 0.0 < o.width
    ensures o.Visible() <==> exists px: real :: InSpan(o.screenX, o.width, px) && 0.0 < px
  {
    SpanReachesScreen(o.screenX, o.width);
  }

  /** A point strictly inside the ship's box. */
  predicate InShip(ship: Hitbox, px: real, py: real)
  {
    ship.cx - ship.halfW < px < ship.cx + ship.halfW && ship.cy - ship.halfH < py < ship.cy + ship.halfH
  }

  /** A point strictly inside the obstacle's rectangle. */
  predicate InObstacle(o: Obstacle, px: real, py: real)
  {
    o.screenX < px < o.screenX + o.width && o.screenY < py < o.screenY + o.height
  }

  function MidOverlap(lo1: real, hi1: real, lo2: real, hi2: real): (m: real)
    requires lo1 < hi2 && lo2 < hi1 && lo1 < hi1 && lo2 < hi2
    ensures lo1 < m < hi1 && lo2 < m < hi2
  {
    (if lo1 >= lo2 then lo1 else lo2) / 2.0 + (if hi1 <= hi2 then hi1 else hi2) / 2.0
  }

  /** The obstacle test is overlap of open boxes: some point lies strictly
      inside both the ship's box and the obstacle. */
  lemma ObstacleHitIsOverlap(o: Obstacle, ship: Hitbox)
    requires ship.halfW > 0.0 && ship.halfH > 0.0 && o.width > 0.0 && o.height > 0.0
    ensures o.CollidesWith(ship) <==> exists px: real, py: real :: InShip(ship, px, py) && InObstacle(o, px, py)
  {
    if o.CollidesWith(ship) {
      var px := MidOverlap(ship.cx - ship.halfW, ship.cx + ship.halfW, o.screenX, o.screenX + o.width);
      var py := MidOverlap(ship.cy - ship.halfH, ship.cy + ship.halfH, o.screenY, o.screenY + o.height);
      assert InShip(ship, px, py) && InObstacle(o, px, py);
    }
  }

  /** A ship whose left edge exactly touches the obstacle's right edge is
      not hit. */
  lemma EdgeContactIsNoHit(o: Obstacle, ship: Hitbox)
    requires o.screenX + o.width == ship.cx - ship.halfW
    ensures !o.CollidesWith(ship)
  {
  }

  // ---------------------------------------------------------------- bonus stars

  datatype Star = Star(worldX: real, screenX: real, screenY: real, speed: real, size: real)
  {
    /** `Star.update`'s move, at the star's own speed. */
    function Scrolled(camX: real): Star
    {
      this.(worldX := worldX - speed, screenX := worldX - speed - camX)
    }

    predicate Visible()
    {
      screenX + size > 0.0
    }

    /** `Math.hypot(dx, dy) < ship.halfW`, with the distance measured to the
        star's centre and compared squared. */
    predicate CollidesWith(ship: Hitbox)
    {
      var dx := ship.cx - (screenX + size / 2.0);
      var dy := ship.cy - (screenY + size / 2.0);
      ship.halfW > 0.0 && dx * dx + dy * dy < ship.halfW * ship.halfW
    }
  }

  /** A new bonus star at `spawnX`; `ry`, `rs`, `rz` are the draws for its
      height on screen, its speed and its size; `vs` is the velocity scale. */
  function NewStar(spawnX: real, ry: real, rs: real, rz: real, gs: real, vs: real, h: real): (s: Star)
    requires Unit(ry) && Unit(rs) && Unit(rz) && 0.0 < gs && 0.0 < vs
    ensures s.worldX == spawnX && s.screenX == 0.0
    ensures 4.5 * vs <= s.speed < 6.5 * vs
    ensures 4.0 * gs <= s.size < 8.0 * gs
    ensures 20.0 * gs <= h ==> 0.0 <= s.screenY <= h - 20.0 * gs
  {
    var y := ry * (h - 20.0 * gs);
    var speed := (rs * 2.0 + 4.5) * vs;
    var size := (rz * 4.0 + 4.0) * gs;
    ScaledDraw(rs, 4.5, 2.0, vs, speed);
    ScaledDraw(rz, 4.0, 4.0, gs, size);
    DrawWithin(ry, h - 20.0 * gs, y);
    Star(spawnX, 0.0, y, speed, size)
  }

  /** `n` frames of a star's scrolling at a fixed camera. */
  function StarScrolledN(st: Star, camX: real, n: nat): Star
  {
    if n == 0 then st else StarScrolledN(st, camX, n - 1).Scrolled(camX)
  }

  /** After `n` frames a star has moved left by exactly `n` times its own
      speed, its screen X is world X - camX, and its speed, size and height
      are unchanged. */
  lemma {:induction false} StarScrolledNPosition(st: Star, camX: real, n: nat)
    ensures StarScrolledN(st, camX, n).worldX == st.worldX - (n as real) * st.speed
    ensures n > 0 ==> StarScrolledN(st, camX, n).screenX == st.worldX - (n as real) * st.speed - camX
    ensures var r := StarScrolledN(st, camX, n); r.speed == st.speed && r.size == st.size && r.screenY == st.screenY
  {
    if n > 0 {
      StarScrolledNPosition(st, camX, n - 1);
      assert (n as real) * st.speed == ((n - 1) as real) * st.speed + st.speed;
    }
  }

  /** After `n >= 1` frames at a fixed camera a star is still kept exactly
      while the distance it scrolled is less than how far its right edge
      started from the left edge of the screen, and then only while part of
      it is on the screen. */
  lemma StarLeavesScreen(st: Star, camX: real, n: nat)
    requires n >= 1 && 0.0 < st.size
    ensures StarScrolledN(st, camX, n).Visible() <==> (n as real) * st.speed < st.worldX - camX + st.size
    ensures var r := StarScrolledN(st, camX, n);
      r.Visible() <==> exists px: real :: InSpan(r.screenX, r.size, px) && 0.0 < px
  {
    StarScrolledNPosition(st, camX, n);
    var r := StarScrolledN(st, camX, n);
    SpanReachesScreen(r.screenX, r.size);
  }

  /** Where a bonus star spawns: 100 to 400 beyond the right edge. */
  function StarSpawnX(camX: real, w: real, r: real): (x: real)
    requires Unit(r)
    ensures camX + w + 100.0 <= x < camX + w + 400.0
  {
    camX + w + (r * 300.0 + 100.0)
  }

  /** The star test agrees with the Euclidean distance `d` that
      `Math.hypot` returns: a hit exactly when `d` is below the ship's
      half-width. */
  lemma StarHitIsDistance(st: Star, ship: Hitbox, d: real)
    requires 0.0 <= d
    requires d * d == (ship.cx - (st.screenX + st.size / 2.0)) * (ship.cx - (st.screenX + st.size / 2.0))
                    + (ship.cy - (st.screenY + st.size / 2.0)) * (ship.cy - (st.screenY + st.size / 2.0))
    ensures st.CollidesWith(ship) <==> d < ship.halfW
  {
    if ship.halfW > 0.0 {
      SquareOrder(d, ship.halfW);
    }
  }

  /** A star can only be collected when its centre is within the ship's
      half-width on both axes. */
  lemma StarHitIsNear(st: Star, ship: Hitbox)
    requires st.CollidesWith(ship)
    ensures -ship.halfW < ship.cx - (st.screenX + st.size / 2.0) < ship.halfW
    ensures -ship.halfW < ship.cy - (st.screenY + st.size / 2.0) < ship.halfW
  {
    var h := ship.halfW;
    var dx := ship.cx - (st.screenX + st.size / 2.0);
    var dy := ship.cy - (st.screenY + st.size / 2.0);
    NearAxis(dx, dy, h);
    NearAxis(dy, dx, h);
  }

  lemma NearAxis(a: real, b: real, h: real)
    requires h > 0.0 && a * a + b * b < h * h
    ensures -h < a < h
  {
    if a >= 0.0 {
      SquareOrder(a, h);
    } else {
      SquareOrder(-a, h);
    }
  }

  // ---------------------------------------------------------------- trail particles

  /** A trail particle, in screen coordinates; `maxLife` only sets its fade. */
  datatype Particle = Particle(x: real, y: real, vx: real, vy: real, life: real, maxLife: real)
  {
    /** `Particle.update`: move by the velocity and lose one unit of life. */
    function Aged(): Particle
    {
      this.(x := x + vx, y := y + vy, life := life - 1.0)
    }

    /** A particle is kept while it has life left. */
    predicate Alive()
    {
      life > 0.0
    }
  }

  /** `n` frames of a particle's ageing. */
  function AgedN(p: Particle, n: nat): Particle
  {
    if n == 0 then p else AgedN(p, n - 1).Aged()
  }

  /** After `n` frames a particle has moved by `n` times its velocity and
      lost `n` units of life; it is still kept exactly while `n` is below
      its starting life, and its velocity and fade are unchanged. */
  lemma {:induction false} ParticleLifetime(p: Particle, n: nat)
    ensures var q := AgedN(p, n);
      q.x == p.x + (n as real) * p.vx && q.y == p.y + (n as real) * p.vy
      && q.vx == p.vx && q.vy == p.vy && q.maxLife == p.maxLife
      && q.life == p.life - (n as real)
      && (q.Alive() <==> (n as real) < p.life)
  {
    if n > 0 {
      ParticleLifetime(p, n - 1);
      assert (n as real) * p.vx == ((n - 1) as real) * p.vx + p.vx;
      assert (n as real) * p.vy == ((n - 1) as real) * p.vy + p.vy;
    }
  }

  /** The draws for one emission attempt: the gate (the attempt emits only
      when it is at most 0.35), the speed draw, the cosine and sine of the
      jittered backward angle (trigonometry is the caller's) and the life
      draw. */
  datatype EmitDraw = EmitDraw(gate: real, speed: real, cosJ: real, sinJ: real, life: real)

  predicate EmitDrawOk(d: EmitDraw)
  {
    Unit(d.gate) && Unit(d.speed) && Unit(d.life) && -1.0 <= d.cosJ <= 1.0 && -1.0 <= d.sinJ <= 1.0
  }

  /** The particle one open attempt emits at (x, y): speed `r * 2.2 + 0.8`
      along the jittered angle, life `38 + r * 25`. */
  function Emitted(d: EmitDraw, x: real, y: real): (p: Particle)
    requires EmitDrawOk(d)
    ensures p.x == x && p.y == y
    ensures -3.0 < p.vx < 3.0 && -3.0 < p.vy < 3.0
    ensures 38.0 <= p.life < 63.0 && p.maxLife == p.life
  {
    var speed := d.speed * 2.2 + 0.8;
    var vx := d.cosJ * speed;
    var vy := d.sinJ * speed;
    Attenuated(d.cosJ, speed, vx);
    Attenuated(d.sinJ, speed, vy);
    Particle(x, y, vx, vy, 38.0 + d.life * 25.0, 38.0 + d.life * 25.0)
  }

  /** The particles a sequence of emission attempts produces at (x, y), in
      order: one per attempt whose gate is open. */
  function Trail(ds: seq<EmitDraw>, x: real, y: real): (ps: seq<Particle>)
    requires forall i :: 0 <= i < |ds| ==> EmitDrawOk(ds[i])
    ensures |ps| <= |ds|
    ensures forall i :: 0 <= i < |ps| ==> ps[i].x == x && ps[i].y == y
    ensures forall i :: 0 <= i < |ps| ==> -3.0 < ps[i].vx < 3.0 && -3.0 < ps[i].vy < 3.0
    ensures forall i :: 0 <= i < |ps| ==> 38.0 <= ps[i].life < 63.0 && ps[i].maxLife == ps[i].life
  {
    if ds == [] then []
    else
      var d := ds[|ds| - 1];
      assert EmitDrawOk(d);
      var ps := Trail(ds[..|ds| - 1], x, y);
      if d.gate > 0.35 then ps else ps + [Emitted(d, x, y)]
  }

  /** The number of attempts whose gate is open. */
  function OpenGates(ds: seq<EmitDraw>): nat
  {
    if ds == [] then 0 else OpenGates(ds[..|ds| - 1]) + (if ds[|ds| - 1].gate > 0.35 then 0 else 1)
  }

  /** Exactly one particle per open gate. */
  lemma {:induction false} TrailCount(ds: seq<EmitDraw>, x: real, y: real)
    requires forall i :: 0 <= i < |ds| ==> EmitDrawOk(ds[i])
    ensures |Trail(ds, x, y)| == OpenGates(ds)
  {
    if ds != [] {
      TrailCount(ds[..|ds| - 1], x, y);
    }
  }

  /** The emission loop: `chance` attempts rounded up (2.2 while thrusting,
      1.1 otherwise), each consuming one draw. */
  method EmitTrail(thrusting: bool, x: real, y: real, draws: seq<EmitDraw>) returns (ps: seq<Particle>)
    requires |draws| == 3 && forall i :: 0 <= i < |draws| ==> EmitDrawOk(draws[i])
    ensures ps == Trail(draws[..if thrusting then 3 else 2], x, y)
    ensures |ps| <= if thrusting then 3 else 2
  {
    var chance := if thrusting then 2.2 else 1.1;
    ps := [];
    var i: nat := 0;
    while (i as real) < chance
      invariant i <= 3 && (i as real) <= chance + 1.0
      invariant ps == Trail(draws[..i], x, y)
      decreases 3 - i
    {
      var d := draws[i];
      assert draws[..i + 1][..i] == draws[..i];
      i := i + 1;
      if d.gate > 0.35 {
        continue;
      }
      ps := ps + [Emitted(d, x, y)];
    }
    assert i == if thrusting then 3 else 2;
  }

  // ---------------------------------------------------------------- background stars

  /** A background star: world X, screen Y and its own scroll speed. */
  datatype BgStar = BgStar(x: real, y: real, speed: real)

  /** One frame of a background star: it scrolls, and once its screen X
      falls below -10 it is moved to just beyond the right edge, at a new
      height; `d` holds the two draws for that. */
  function Recycled(st: BgStar, camX: real, w: real, h: real, d: (real, real)): (r: BgStar)
    requires 0.0 <= w && 0.0 <= h && Unit(d.0) && Unit(d.1)
    ensures r.speed == st.speed
    ensures r.x - camX >= -10.0
    ensures st.x - st.speed - camX >= -10.0 ==> r == st.(x := st.x - st.speed)
    ensures st.x - st.speed - camX < -10.0 ==> camX + w <= r.x < camX + w + 100.0 && 0.0 <= r.y <= h
  {
    var x := st.x - st.speed;
    if x - camX < -10.0 then
      var y := d.1 * h;
      DrawWithin(d.1, h, y);
      BgStar(camX + w + d.0 * 100.0, y, st.speed)
    else
      st.(x := x)
  }

  predicate FieldDrawsOk(draws: seq<(real, real, real)>)
  {
    forall i :: 0 <= i < |draws| ==> Unit(draws[i].0) && Unit(draws[i].1) && Unit(draws[i].2)
  }

  /** One star of a freshly drawn field: at `x0 + d.0 * w`, at height
      `d.1 * h`, with speed `(d.2 * 2.5 + 1) * vs`. */
  function FieldStar(x0: real, w: real, h: real, vs: real, d: (real, real, real)): (st: BgStar)
    requires 0.0 <= w && 0.0 < vs && Unit(d.0) && Unit(d.1) && Unit(d.2)
    ensures x0 <= st.x <= x0 + w
    ensures 0.0 <= h ==> 0.0 <= st.y <= h
    ensures vs <= st.speed < 3.5 * vs
  {
    var dx := d.0 * w;
    var dy := d.1 * h;
    var speed := (d.2 * 2.5 + 1.0) * vs;
    DrawWithin(d.0, w, dx);
    DrawWithin(d.1, h, dy);
    ScaledDraw(d.2, 1.0, 2.5, vs, speed);
    BgStar(x0 + dx, dy, speed)
  }

  /** A whole field of background stars, one per draw. */
  function StarField(x0: real, w: real, h: real, vs: real, draws: seq<(real, real, real)>): (f: seq<BgStar>)
    requires 0.0 <= w && 0.0 < vs && FieldDrawsOk(draws)
    ensures |f| == |draws|
    ensures forall i :: 0 <= i < |f| ==>
      x0 <= f[i].x <= x0 + w && (0.0 <= h ==> 0.0 <= f[i].y <= h) && vs <= f[i].speed < 3.5 * vs
  {
    seq(|draws|, i requires 0 <= i < |draws| => FieldStar(x0, w, h, vs, draws[i]))
  }
}
