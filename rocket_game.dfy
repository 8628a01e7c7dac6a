/** The game session of the full version: its state, `resetGame`, the
    keyboard handlers and one frame of the main loop with rendering
    removed. The viewport is `w` x `h` (the canvas is kept at the window's
    size, so the window and canvas sizes agree); random draws and the
    cosine and sine of the ship's angle after steering are inputs. */
module RocketGame {
  import opened Kinematics
  import opened Entities
  import opened FramePasses
  import opened Keyboard

  const GAME_SCALE: real := 0.6
  const BG_STAR_COUNT: nat := 1070
  const MAX_LEVEL: int := 6
  const WIN_SCORE: int := 9000
  const LEVEL_THRESHOLD: int := 1200

  /** The level a score earns: one level per 1200 points, capped at 6.
      (For a positive divisor Dafny's division is the floor.) */
  function TargetLevel(score: int): (l: int)
    ensures l <= MAX_LEVEL
    ensures score >= 0 ==> 1 <= l
    ensures l < MAX_LEVEL ==> 1200 * (l - 1) <= score < 1200 * l
    ensures l == MAX_LEVEL <==> score >= 6000
  {
    var l := 1 + score / 1200;
    if l > MAX_LEVEL then MAX_LEVEL else l
  }

  /** More points never earn a lower level. */
  lemma TargetLevelMonotone(s1: int, s2: int)
    requires s1 <= s2
    ensures TargetLevel(s1) <= TargetLevel(s2)
  {
  }

  /** The velocity scale of a level: 0.41, rising by 0.07 per level. */
  function VelocityScaleAt(level: int): (vs: real)
    ensures 1 <= level <= MAX_LEVEL ==> 0.41 <= vs <= 0.76
  {
    0.41 + ((level - 1) as real) * 0.07
  }

  /** The obstacle spawn threshold of a level: 42 - 3.7 per level, but
      never below 16; within the game's six levels the floor never binds. */
  function ObstacleThreshold(level: int): (t: real)
    ensures t >= 16.0
    ensures level <= 7 ==> t == 42.0 - (level as real) * 3.7
    ensures 1 <= level <= MAX_LEVEL ==> 19.8 <= t <= 38.3
  {
    Max(42.0 - (level as real) * 3.7, 16.0)
  }

  const STAR_THRESHOLD: real := 75.0

  /** How far obstacles scroll per frame at a level and velocity scale. */
  function ObstacleSpeed(level: int, vs: real): (s: real)
    ensures 0.0 < vs && 1 <= level <= MAX_LEVEL ==> 6.5 * vs <= s <= 15.0 * vs
  {
    var f := 4.8 + (level as real) * 1.7;
    if 0.0 < vs && 1 <= level <= MAX_LEVEL then
      MulNonneg(f - 6.5, vs);
      MulNonneg(15.0 - f, vs);
      f * vs
    else f * vs
  }

  /** The obstacle clock of a gameplay block as a value: the new timer and
      the obstacle appended when it fires. */
  function ObstacleSpawn(timer: real, vs: real, level: int, camX: real, w: real, h: real,
                         r: (real, real, real, real)): (real, seq<Obstacle>)
    requires Unit(r.0) && Unit(r.1) && Unit(r.2) && Unit(r.3)
  {
    var c := SpawnClock(timer, 0.82 * vs, ObstacleThreshold(level));
    (c.0, if c.1 then [NewObstacle(ObstacleSpawnX(camX, w, r.0), r.1, r.2, r.3, GAME_SCALE, h)] else [])
  }

  /** The star clock of a gameplay block as a value: the new timer and the
      star appended when it fires. */
  function StarSpawn(timer: real, vs: real, camX: real, w: real, h: real,
                     r: (real, real, real, real)): (real, seq<Star>)
    requires Unit(r.0) && Unit(r.1) && Unit(r.2) && Unit(r.3) && 0.0 < vs
  {
    var c := SpawnClock(timer, 1.2 * vs, STAR_THRESHOLD);
    (c.0, if c.1 then [NewStar(StarSpawnX(camX, w, r.0), r.1, r.2, r.3, GAME_SCALE, vs, h)] else [])
  }

  // ---------------------------------------------------------------- keys

  /** The session flags the keyboard acts on. */
  datatype Flags = Flags(gameOver: bool, win: bool, paused: bool, running: bool)

  /** The keydown transition on the flags: space resumes a paused game; once
      the game is over or won, "r" asks for a restart (the second result)
      and otherwise Escape or "q" stops the loop. */
  function OnKey(f: Flags, key: string): (r: (Flags, bool))
    ensures r.1 <==> (f.gameOver || f.win) && (key == "r" || key == "R")
    ensures r.0.gameOver == f.gameOver && r.0.win == f.win
    ensures r.0.running != f.running <==>
      f.running && (f.gameOver || f.win) && (key == "Escape" || key == "q" || key == "Q")
    ensures r.0.paused != f.paused <==> f.paused && key == " "
    ensures !f.gameOver && !f.win && key != " " ==> r == (f, false)
  {
    LowerIsR(key);
    LowerIsQ(key);
    var f1 := if f.paused && key == " " then f.(paused := false) else f;
    if (f.gameOver || f.win) && Lower(key) == "r" then (f1, true)
    else if (f.gameOver || f.win) && (key == "Escape" || Lower(key) == "q") then (f1.(running := false), false)
    else (f1, false)
  }

  /** The particles a frame's trail leaves behind the ship `s`: they start
      22 units of the game scale (13.2) behind it, from three emission
      attempts while it thrusts and two otherwise. */
  function ShipTrail(s: ShipState, cosA: real, sinA: real, emit: seq<EmitDraw>): (ps: seq<Particle>)
    requires |emit| == 3 && forall i :: 0 <= i < |emit| ==> EmitDrawOk(emit[i])
    ensures |ps| <= if s.thrusting then 3 else 2
    ensures forall i :: 0 <= i < |ps| ==>
      ps[i].x == s.shipScreenX - cosA * 13.2 && ps[i].y == s.screenY - sinA * 13.2
      && 38.0 <= ps[i].life < 63.0
  {
    Trail(emit[..if s.thrusting then 3 else 2], s.shipScreenX - cosA * 13.2, s.screenY - sinA * 13.2)
  }

  // ---------------------------------------------------------------- draws

  /** The random draws one frame may consume. */
  datatype FrameDraws = FrameDraws(
    recycle: seq<(real, real)>,          // background stars moved back: x offset, height
    emit: seq<EmitDraw>,                 // up to three trail emission attempts
    obstacle: (real, real, real, real),  // spawn offset, width, height, height on screen
    star: (real, real, real, real),      // spawn offset, height on screen, speed, size
    field: seq<(real, real, real)>)      // a fresh background field on level-up

  predicate FrameDrawsOk(d: FrameDraws)
  {
    |d.recycle| == BG_STAR_COUNT && RecycleDrawsOk(d.recycle)
    && |d.emit| == 3 && (forall i :: 0 <= i < |d.emit| ==> EmitDrawOk(d.emit[i]))
    && Unit(d.obstacle.0) && Unit(d.obstacle.1) && Unit(d.obstacle.2) && Unit(d.obstacle.3)
    && Unit(d.star.0) && Unit(d.star.1) && Unit(d.star.2) && Unit(d.star.3)
    && |d.field| == BG_STAR_COUNT && FieldDrawsOk(d.field)
  }

  /** What the gameplay part of a frame did: whether the ship touched the
      ceiling, and the tallies of the obstacle and star passes. */
  datatype Report = Report(ceiling: bool, obstacles: ObstacleTally, stars: StarTally)

  /** What the gameplay block changes, apart from the particles, as a
      value. */
  datatype Scene = Scene(score: int, lives: int, obstacles: seq<Obstacle>, stars: seq<Star>,
                         obsTimer: real, starTimer: real, ship: ShipState)

  /** The session as the gameplay block reads it: the scene, the level and
      the velocity scale. */
  datatype World = World(scene: Scene, level: int, vs: real)

  /** The ship as the collision tests see it. */
  function HitboxOf(s: ShipState): Hitbox
  {
    Hitbox(s.shipScreenX, s.screenY, s.halfW, s.halfH)
  }

  /** The world's part of the gameplay block, from the obstacles, stars and
      spawn timers before it to the scene `after` it: each spawn clock ticks
      and may append one entity, then the obstacle pass (at the speed of
      `level` and `vs`) yields `o` and the star pass yields `s`, both against
      the ship as it stands after the block, and what they keep is the new
      lists. */
  ghost predicate Advanced(obs0: seq<Obstacle>, stars0: seq<Star>, obsTimer0: real, starTimer0: real,
                           level: int, vs: real, w: real, h: real, d: FrameDraws, after: Scene,
                           o: ObstacleTally, s: StarTally)
    requires FrameDrawsOk(d) && 0.0 < vs
    ensures Advanced(obs0, stars0, obsTimer0, starTimer0, level, vs, w, h, d, after, o, s) ==>
      |after.obstacles| + o.passed + o.hits <= |obs0| + 1
      && |after.stars| + s.collected + s.passed <= |stars0| + 1
      && (forall i :: 0 <= i < |after.obstacles| ==>
            after.obstacles[i].Visible() && !after.obstacles[i].CollidesWith(HitboxOf(after.ship)))
      && (forall i :: 0 <= i < |after.stars| ==>
            after.stars[i].Visible() && !after.stars[i].CollidesWith(HitboxOf(after.ship)))
      && (0.0 <= obsTimer0 ==> 0.0 <= after.obsTimer <= ObstacleThreshold(level))
      && (0.0 <= starTimer0 ==> 0.0 <= after.starTimer <= STAR_THRESHOLD)
  {
    var camX := after.ship.camX;
    var os := ObstacleSpawn(obsTimer0, vs, level, camX, w, h, d.obstacle);
    var ss := StarSpawn(starTimer0, vs, camX, w, h, d.star);
    o == ObstaclePass(obs0 + os.1, camX, ObstacleSpeed(level, vs), HitboxOf(after.ship))
    && s == StarPass(stars0 + ss.1, camX, HitboxOf(after.ship))
    && after.obstacles == o.kept && after.obsTimer == os.0 && after.stars == s.kept && after.starTimer == ss.0
  }

  /** What the gameplay block does from the world `before` it to the scene
      `after` it, with `keys` held: the ship flies one `Step`; `report`
      records whether it then touches the ceiling; the spawn clocks and the
      two passes run as `Advanced` says; the score gains 20 per obstacle
      passed and 100 per star collected, and a life goes per obstacle hit and
      one more for the ceiling. */
  ghost predicate Played(before: World, keys: Keys, cosA: real, sinA: real, w: real, h: real,
                         d: FrameDraws, after: Scene, report: Report)
    requires FrameDrawsOk(d) && 0.0 < before.vs
    ensures Played(before, keys, cosA, sinA, w, h, d, after, report) ==>
      after.score >= before.scene.score
      && before.scene.lives - |before.scene.obstacles| - 2 <= after.lives <= before.scene.lives
      && -15.0 * before.vs <= after.ship.vx <= 15.0 * before.vs
      && -15.0 * before.vs <= after.ship.vy <= 15.0 * before.vs
  {
    var b := before.scene;
    after.ship == Step(b.ship, keys, cosA, sinA, before.vs, w, h)
    && (report.ceiling <==> after.ship.screenY - after.ship.halfH <= 0.0)
    && Advanced(b.obstacles, b.stars, b.obsTimer, b.starTimer, before.level, before.vs, w, h, d, after,
                report.obstacles, report.stars)
    && after.score == b.score + 20 * report.obstacles.passed + 100 * report.stars.collected
    && after.lives == b.lives - report.obstacles.hits - (if report.ceiling then 1 else 0)
  }

  // ---------------------------------------------------------------- the session

  class Game {
    var ship: Ship
    var obstacles: seq<Obstacle>
    var stars: seq<Star>
    var bgStars: array<BgStar>
    var particles: seq<Particle>
    var score: int
    var lives: int
    var level: int
    var velocityScale: real
    var obsSpawnTimer: real
    var starSpawnTimer: real
    var gameOver: bool
    var win: bool
    var paused: bool
    var running: bool
    /** The keys held down, as the key handlers record them. */
    var held: map<string, bool>

    /** The session invariant: the level never runs ahead of the score, the
        velocity scale follows the level, the game is over exactly when no
        lives are left and won exactly when the score reached 9000. */
    predicate Valid()
      reads this
    {
      bgStars.Length == BG_STAR_COUNT
      && ship.halfW == 21.0 && ship.halfH == 21.0
      && 1 <= level <= TargetLevel(score)
      && velocityScale == VelocityScaleAt(level)
      && 0.0 <= obsSpawnTimer && 0.0 <= starSpawnTimer
      && 0 <= score && lives <= 1
      && (gameOver <==> lives <= 0)
      && (win <==> score >= WIN_SCORE)
    }

    function SessionFlags(): Flags
      reads this
    {
      Flags(gameOver, win, paused, running)
    }

    predicate Pressed(key: string)
      reads this
    {
      key in held && held[key]
    }

    /** The arrow keys as the ship reads them. */
    function HeldKeys(): Keys
      reads this
    {
      Keys(Pressed("ArrowLeft"), Pressed("ArrowRight"), Pressed("ArrowUp"))
    }

    /** The scene as it stands. */
    function Now(): Scene
      reads this`score, this`lives, this`obstacles, this`stars, this`obsSpawnTimer, this`starSpawnTimer
      reads this`ship, ship
    {
      Scene(score, lives, obstacles, stars, obsSpawnTimer, starSpawnTimer, ship.State())
    }

    function Snapshot(): World
      reads this, ship
    {
      World(Now(), level, velocityScale)
    }

    /** The program's start: the initial globals, then `resetGame`. */
    constructor (w: real, h: real, field: seq<(real, real, real)>)
      requires 0.0 <= w && |field| == BG_STAR_COUNT && FieldDrawsOk(field)
      ensures Valid() && running && !paused && score == 5400 && lives == 1 && level == 1
      ensures held == map[]
    {
      ship := new Ship(w, h, GAME_SCALE);
      obstacles, stars, particles := [], [], [];
      bgStars := new BgStar[0];
      score, lives, level := 0, 1, 1;
      velocityScale := 0.41;
      obsSpawnTimer, starSpawnTimer := 0.0, 0.0;
      gameOver, win, paused, running := false, false, false, true;
      held := map[];
      new;
      Reset(w, h, field);
    }

    /** `resetGame`. The new background field is drawn with the velocity
        scale in force before the reset, which is only then set back to
        0.41. */
    method Reset(w: real, h: real, field: seq<(real, real, real)>)
      requires 0.0 <= w && 0.0 < velocityScale && |field| == BG_STAR_COUNT && FieldDrawsOk(field)
      modifies this
      ensures fresh(ship) && ship.State() == InitialShip(w, h, GAME_SCALE)
      ensures fresh(bgStars) && bgStars[..] == StarField(0.0, w, h, old(velocityScale), field)
      ensures obstacles == [] && stars == [] && particles == []
      ensures score == 5400 && lives == 1 && level == 1 && velocityScale == 0.41
      ensures obsSpawnTimer == 0.0 && starSpawnTimer == 0.0
      ensures SessionFlags() == Flags(false, false, false, true)
      ensures held == old(held)
      ensures Valid()
    {
      RebuildWorld(w, h, field);
      ResetCounters();
    }

    /** The part of `resetGame` that sets the counters and flags back. */
    method ResetCounters()
      modifies this`score, this`lives, this`level, this`velocityScale, this`obsSpawnTimer, this`starSpawnTimer
      modifies this`gameOver, this`win, this`paused, this`running
      ensures score == 5400 && lives == 1 && level == 1 && velocityScale == 0.41
      ensures obsSpawnTimer == 0.0 && starSpawnTimer == 0.0
      ensures SessionFlags() == Flags(false, false, false, true)
    {
      score := 5400;
      lives := 1;
      level := 1;
      velocityScale := 0.41;
      obsSpawnTimer := 0.0;
      starSpawnTimer := 0.0;
      gameOver := false;
      win := false;
      paused := false;
      running := true;
    }

    /** The part of `resetGame` that rebuilds the world: a new ship, empty
        entity lists and a fresh background field. */
    method RebuildWorld(w: real, h: real, field: seq<(real, real, real)>)
      requires 0.0 <= w && 0.0 < velocityScale && |field| == BG_STAR_COUNT && FieldDrawsOk(field)
      modifies this`ship, this`obstacles, this`stars, this`bgStars, this`particles
      ensures fresh(ship) && ship.State() == InitialShip(w, h, GAME_SCALE)
      ensures fresh(bgStars) && bgStars[..] == StarField(0.0, w, h, velocityScale, field)
      ensures obstacles == [] && stars == [] && particles == []
    {
      ship := new Ship(w, h, GAME_SCALE);
      obstacles := [];
      stars := [];
      bgStars := NewField(0.0, w, h, velocityScale, field);
      particles := [];
    }

    /** The keydown handler: records the key, then applies `OnKey`, running
        `resetGame` when it asks for a restart. */
    method KeyDown(key: string, w: real, h: real, field: seq<(real, real, real)>)
      requires Valid() && 0.0 <= w && |field| == BG_STAR_COUNT && FieldDrawsOk(field)
      modifies this
      ensures Valid()
      ensures held == old(held)[key := true]
      ensures OnKey(old(SessionFlags()), key).1 ==>
        fresh(ship) && ship.State() == InitialShip(w, h, GAME_SCALE)
        && obstacles == [] && stars == [] && particles == [] && obsSpawnTimer == 0.0 && starSpawnTimer == 0.0
        && fresh(bgStars) && bgStars[..] == StarField(0.0, w, h, old(velocityScale), field)
        && score == 5400 && lives == 1 && level == 1 && velocityScale == 0.41
        && SessionFlags() == Flags(false, false, false, true)
      ensures !OnKey(old(SessionFlags()), key).1 ==>
        SessionFlags() == OnKey(old(SessionFlags()), key).0 && ship == old(ship) && score == old(score)
        && lives == old(lives) && level == old(level) && velocityScale == old(velocityScale)
        && bgStars == old(bgStars) && obstacles == old(obstacles) && stars == old(stars)
        && particles == old(particles) && obsSpawnTimer == old(obsSpawnTimer) && starSpawnTimer == old(starSpawnTimer)
    {
      held := held[key := true];
      if paused && key == " " {
        paused := false;
      }
      LowerIsR(key);
      LowerIsQ(key);
      if (gameOver || win) && Lower(key) == "r" {
        Reset(w, h, field);
      } else if (gameOver || win) && (key == "Escape" || Lower(key) == "q") {
        running := false;
      }
    }

    /** The keyup handler. */
    method KeyUp(key: string)
      modifies this`held
      ensures held == old(held)[key := false]
    {
      held := held[key := false];
    }

    /** One frame of the main loop: nothing happens once the loop has been
        stopped; otherwise the frame runs as `RunFrame` says.
        `cosA`/`sinA` are the cosine and sine of the ship's angle after this
        frame's steering. */
    method Tick(w: real, h: real, cosA: real, sinA: real, d: FrameDraws) returns (ghost report: Report)
      requires Valid() && 0.0 <= w && 0.0 <= h && FrameDrawsOk(d)
      requires -1.0 <= cosA <= 1.0 && -1.0 <= sinA <= 1.0
      modifies this, ship, bgStars
      ensures Valid()
      ensures !old(running) ==> unchanged(this) && unchanged(ship) && unchanged(bgStars)
      ensures running == old(running) && held == old(held) && ship == old(ship)
      ensures level >= old(level) && score >= old(score)
      ensures old(running) ==> level == TargetLevel(score)
      ensures level > old(level) ==>
        paused && fresh(bgStars) && forall i :: 0 <= i < bgStars.Length ==> bgStars[i].x >= ship.camX + w
      ensures level == old(level) ==> paused == old(paused) && bgStars == old(bgStars)
      ensures old(running) && level > old(level) ==>
        bgStars[..] == StarField(ship.camX + w, w, h, velocityScale, d.field)
      ensures old(running) && level == old(level) ==>
        bgStars[..] == RecycledAll(old(bgStars[..]), old(ship.camX), w, h, d.recycle)
      ensures !old(running) || old(gameOver || win || paused) ==>
        Now() == old(Now())
      ensures old(running) && old(gameOver || win || paused) ==> particles == ParticlePass(old(particles))
      ensures old(running) && !old(gameOver || win || paused) ==>
        Played(old(Snapshot()), old(HeldKeys()), cosA, sinA, w, h, d, Now(), report)
        && particles == ParticlePass(old(particles) + ShipTrail(ship.State(), cosA, sinA, d.emit))
    {
      report := Report(false, ObstacleTally([], 0, 0), StarTally([], 0, 0));
      if !running {
        return;
      }
      ghost var oldShip := ship.State();
      report := RunFrame(w, h, cosA, sinA, d);
      assert running == old(running) && held == old(held) && ship == old(ship);
      assert old(ship.camX) == oldShip.camX;
    }

    /** A frame of the running loop: background stars, then (unless the game
        is over, won or paused) the gameplay block, then the particles, the
        level-up rule and the win rule. */
    method RunFrame(w: real, h: real, cosA: real, sinA: real, d: FrameDraws) returns (ghost report: Report)
      requires Valid() && 0.0 <= w && 0.0 <= h && FrameDrawsOk(d)
      requires -1.0 <= cosA <= 1.0 && -1.0 <= sinA <= 1.0
      modifies this`obstacles, this`stars, this`particles, this`score, this`lives, this`gameOver
      modifies this`obsSpawnTimer, this`starSpawnTimer, this`level, this`velocityScale
      modifies this`bgStars, this`paused, this`win, ship, bgStars
      ensures Valid()
      ensures level == TargetLevel(score) && score >= old(score)
      ensures level > old(level) ==>
        paused && fresh(bgStars) && bgStars[..] == StarField(ship.camX + w, w, h, velocityScale, d.field)
        && forall i :: 0 <= i < bgStars.Length ==> bgStars[i].x >= ship.camX + w
      ensures level == old(level) ==>
        paused == old(paused) && bgStars == old(bgStars)
        && bgStars[..] == RecycledAll(old(bgStars[..]), old(ship.camX), w, h, d.recycle)
      ensures old(gameOver || win || paused) ==>
        Now() == old(Now()) && particles == ParticlePass(old(particles))
      ensures !old(gameOver || win || paused) ==>
        Played(old(Snapshot()), old(HeldKeys()), cosA, sinA, w, h, d, Now(), report)
        && particles == ParticlePass(old(particles) + ShipTrail(ship.State(), cosA, sinA, d.emit))
    {
      report := ScrollThenPlay(w, h, cosA, sinA, d);
      ghost var played := Now();
      ghost var recycled := bgStars[..];
      TargetLevelMonotone(old(score), score);
      FinishFrame(w, h, d.field);
      assert Now() == played;
      assert level == old(level) ==> bgStars[..] == recycled;
    }

    /** The end of every running frame, halted or not: the particles age,
        then the level-up rule and the win rule apply. */
    method FinishFrame(w: real, h: real, field: seq<(real, real, real)>)
      requires bgStars.Length == BG_STAR_COUNT && ship.halfW == 21.0 && ship.halfH == 21.0
      requires 1 <= level <= TargetLevel(score) && velocityScale == VelocityScaleAt(level)
      requires 0.0 <= obsSpawnTimer && 0.0 <= starSpawnTimer && 0 <= score && lives <= 1
      requires (gameOver <==> lives <= 0) && (win ==> score >= WIN_SCORE)
      requires 0.0 <= w && |field| == BG_STAR_COUNT && FieldDrawsOk(field)
      modifies this`particles, this`level, this`velocityScale, this`bgStars, this`paused, this`win
      ensures Valid() && level == TargetLevel(score) && Now() == old(Now())
      ensures particles == ParticlePass(old(particles))
      ensures level == if TargetLevel(score) > old(level) then TargetLevel(score) else old(level)
      ensures level > old(level) ==>
        velocityScale == VelocityScaleAt(level) && paused && fresh(bgStars)
        && bgStars[..] == StarField(ship.camX + w, w, h, velocityScale, field)
        && forall i :: 0 <= i < bgStars.Length ==> bgStars[i].x >= ship.camX + w
      ensures level == old(level) ==>
        velocityScale == old(velocityScale) && paused == old(paused) && bgStars == old(bgStars)
        && bgStars[..] == old(bgStars[..])
      ensures win == (old(win) || score >= WIN_SCORE)
    {
      particles := AgeParticles(particles);
      LevelUp(w, h, field);
      if score >= WIN_SCORE {
        win := true;
      }
    }

    /** The level-up rule: once the score earns a higher level, the level
        and the velocity scale rise, a fresh background field is drawn beyond
        the right edge and the game pauses. */
    method LevelUp(w: real, h: real, field: seq<(real, real, real)>)
      requires 1 <= level && 0 <= score && 0.0 <= w && |field| == BG_STAR_COUNT && FieldDrawsOk(field)
      modifies this`level, this`velocityScale, this`bgStars, this`paused
      ensures level == if TargetLevel(score) > old(level) then TargetLevel(score) else old(level)
      ensures level > old(level) ==>
        velocityScale == VelocityScaleAt(level) && paused && fresh(bgStars)
        && bgStars[..] == StarField(ship.camX + w, w, h, velocityScale, field)
      ensures level == old(level) ==>
        velocityScale == old(velocityScale) && paused == old(paused) && bgStars == old(bgStars)
    {
      var newLevel := 1 + score / LEVEL_THRESHOLD;
      if newLevel > MAX_LEVEL {
        newLevel := MAX_LEVEL;
      }
      if newLevel > level {
        level := newLevel;
        velocityScale := 0.41 + ((level - 1) as real) * 0.07;
        bgStars := NewField(ship.camX + w, w, h, velocityScale, field);
        paused := true;
      }
    }

    /** The first part of a running frame: the background stars scroll,
        then the gameplay block runs unless the game is over, won or paused,
        in which case nothing in play moves. */
    method ScrollThenPlay(w: real, h: real, cosA: real, sinA: real, d: FrameDraws) returns (ghost report: Report)
      requires (gameOver <==> lives <= 0) && 0.0 < velocityScale && 0.0 <= w && 0.0 <= h && FrameDrawsOk(d)
      requires bgStars.Length == BG_STAR_COUNT && 0.0 <= obsSpawnTimer && 0.0 <= starSpawnTimer
      requires -1.0 <= cosA <= 1.0 && -1.0 <= sinA <= 1.0
      modifies this`obstacles, this`stars, this`particles, this`score, this`lives, this`gameOver
      modifies this`obsSpawnTimer, this`starSpawnTimer, ship, bgStars
      ensures bgStars[..] == RecycledAll(old(bgStars[..]), old(ship.camX), w, h, d.recycle)
      ensures gameOver <==> lives <= 0
      ensures 0.0 <= obsSpawnTimer && 0.0 <= starSpawnTimer
      ensures score >= old(score) && lives <= old(lives)
      ensures ship.halfW == old(ship.halfW) && ship.halfH == old(ship.halfH)
      ensures old(gameOver || win || paused) ==>
        Now() == old(Now()) && particles == old(particles)
      ensures !old(gameOver || win || paused) ==>
        Played(old(Snapshot()), old(HeldKeys()), cosA, sinA, w, h, d, Now(), report)
        && particles == old(particles) + ShipTrail(ship.State(), cosA, sinA, d.emit)
    {
      ghost var before := Snapshot();
      RecycleField(bgStars, ship.camX, w, h, d.recycle);
      assert Snapshot() == before;
      report := Report(false, ObstacleTally([], 0, 0), StarTally([], 0, 0));
      if !gameOver && !win && !paused {
        report := Play(w, h, cosA, sinA, d);
      }
    }

    /** The gameplay block of a frame: ship physics, the ceiling and the
        trail, then the two spawn clocks and the obstacle and star passes. */
    method Play(w: real, h: real, cosA: real, sinA: real, d: FrameDraws) returns (ghost report: Report)
      requires !gameOver && (gameOver <==> lives <= 0) && 0.0 < velocityScale && 0.0 <= h && FrameDrawsOk(d)
      requires 0.0 <= obsSpawnTimer && 0.0 <= starSpawnTimer
      requires -1.0 <= cosA <= 1.0 && -1.0 <= sinA <= 1.0
      modifies this`obstacles, this`stars, this`particles, this`score, this`lives, this`gameOver
      modifies this`obsSpawnTimer, this`starSpawnTimer, ship
      ensures Played(old(Snapshot()), HeldKeys(), cosA, sinA, w, h, d, Now(), report)
      ensures particles == old(particles) + ShipTrail(ship.State(), cosA, sinA, d.emit)
      ensures gameOver <==> lives <= 0
      ensures 0.0 <= obsSpawnTimer && 0.0 <= starSpawnTimer
      ensures score >= old(score) && lives <= old(lives)
    {
      var ceiling := Fly(w, h, cosA, sinA, d.emit);
      ghost var o, s := Advance(w, h, d);
      report := Report(ceiling, o, s);
    }

    /** The ship's part of the gameplay block: physics, the ceiling check and
        the trail it leaves. */
    method Fly(w: real, h: real, cosA: real, sinA: real, emit: seq<EmitDraw>) returns (ceiling: bool)
      requires 0.0 <= velocityScale && |emit| == 3 && forall i :: 0 <= i < |emit| ==> EmitDrawOk(emit[i])
      requires -1.0 <= cosA <= 1.0 && -1.0 <= sinA <= 1.0
      modifies this`particles, this`lives, this`gameOver, ship
      ensures ship.State() == Step(old(ship.State()), HeldKeys(), cosA, sinA, velocityScale, w, h)
      ensures ceiling <==> ship.State().screenY - ship.State().halfH <= 0.0
      ensures lives == old(lives) - (if ceiling then 1 else 0)
      ensures gameOver == (old(gameOver) || (ceiling && lives <= 0))
      ensures particles == old(particles) + ShipTrail(ship.State(), cosA, sinA, emit)
      ensures Now() == old(Now()).(ship := ship.State(), lives := lives)
    {
      ship.Update(HeldKeys(), cosA, sinA, velocityScale, w, h);
      ceiling := CheckCeiling();
      LeaveTrail(cosA, sinA, emit);
    }

    /** The world's part of the gameplay block: the spawn clocks, then the
        obstacle and star passes, against the ship as it now stands. */
    method Advance(w: real, h: real, d: FrameDraws) returns (ghost o: ObstacleTally, ghost s: StarTally)
      requires 0.0 < velocityScale && 0.0 <= obsSpawnTimer && 0.0 <= starSpawnTimer && FrameDrawsOk(d)
      modifies this`obstacles, this`stars, this`score, this`lives, this`gameOver
      modifies this`obsSpawnTimer, this`starSpawnTimer
      ensures Advanced(old(obstacles), old(stars), old(obsSpawnTimer), old(starSpawnTimer), level, velocityScale,
                       w, h, d, Now(), o, s)
      ensures score == old(score) + 20 * o.passed + 100 * s.collected
      ensures lives == old(lives) - o.hits
      ensures gameOver == (old(gameOver) || (o.hits > 0 && lives <= 0))
      ensures o.passed + o.hits <= |old(obstacles)| + 1
      ensures s.collected <= |old(stars)| + 1
      ensures 0.0 <= obsSpawnTimer <= ObstacleThreshold(level)
      ensures 0.0 <= starSpawnTimer <= STAR_THRESHOLD
    {
      Spawn(w, h, d);
      o, s := RunPasses();
    }

    /** Both spawn clocks of a frame, each appending at most one entity. */
    method Spawn(w: real, h: real, d: FrameDraws)
      requires 0.0 < velocityScale && 0.0 <= obsSpawnTimer && 0.0 <= starSpawnTimer && FrameDrawsOk(d)
      modifies this`obstacles, this`stars, this`obsSpawnTimer, this`starSpawnTimer
      ensures var os := ObstacleSpawn(old(obsSpawnTimer), velocityScale, level, ship.State().camX, w, h, d.obstacle);
        obsSpawnTimer == os.0 && obstacles == old(obstacles) + os.1 && |os.1| <= 1
      ensures var ss := StarSpawn(old(starSpawnTimer), velocityScale, ship.State().camX, w, h, d.star);
        starSpawnTimer == ss.0 && stars == old(stars) + ss.1 && |ss.1| <= 1
      ensures 0.0 <= obsSpawnTimer <= ObstacleThreshold(level)
      ensures 0.0 <= starSpawnTimer <= STAR_THRESHOLD
    {
      var _ := SpawnObstacle(w, h, d.obstacle);
      var _ := SpawnStar(w, h, d.star);
    }

    /** Touching the ceiling costs a life, and the last life ends the game. */
    method CheckCeiling() returns (ceiling: bool)
      modifies this`lives, this`gameOver
      ensures ceiling <==> ship.screenY - ship.halfH <= 0.0
      ensures lives == old(lives) - (if ceiling then 1 else 0)
      ensures gameOver == (old(gameOver) || (ceiling && lives <= 0))
    {
      ceiling := ship.screenY - ship.halfH <= 0.0;
      if ceiling {
        lives := lives - 1;
        if lives <= 0 {
          gameOver := true;
        }
      }
    }

    /** The trail leaves from 22 units of the game scale (13.2) behind the
        ship; the cosine and sine of the angle plus pi are -cosA and -sinA. */
    method LeaveTrail(cosA: real, sinA: real, draws: seq<EmitDraw>)
      requires |draws| == 3 && forall i :: 0 <= i < |draws| ==> EmitDrawOk(draws[i])
      modifies this`particles
      ensures particles == old(particles)
        + Trail(draws[..if ship.thrusting then 3 else 2], ship.shipScreenX - cosA * 13.2, ship.screenY - sinA * 13.2)
    {
      var emitted := EmitTrail(ship.thrusting, ship.shipScreenX - cosA * 13.2, ship.screenY - sinA * 13.2, draws);
      particles := particles + emitted;
    }

    /** The obstacle and star passes of a frame, at the current camera. */
    method RunPasses() returns (ghost o: ObstacleTally, ghost s: StarTally)
      modifies this`obstacles, this`stars, this`score, this`lives, this`gameOver
      ensures o == ObstaclePass(old(obstacles), ship.State().camX, ObstacleSpeed(level, velocityScale),
                                HitboxOf(ship.State()))
      ensures s == StarPass(old(stars), ship.State().camX, HitboxOf(ship.State()))
      ensures obstacles == o.kept && stars == s.kept
      ensures score == old(score) + 20 * o.passed + 100 * s.collected
      ensures lives == old(lives) - o.hits
      ensures gameOver == (old(gameOver) || (o.hits > 0 && lives <= 0))
    {
      var hitbox := Hitbox(ship.shipScreenX, ship.screenY, ship.halfW, ship.halfH);
      var obsSpeed := ObstacleSpeed(level, velocityScale);
      o := ObstaclePass(obstacles, ship.camX, obsSpeed, hitbox);
      s := StarPass(stars, ship.camX, hitbox);
      obstacles, score, lives, gameOver := FilterObstacles(obstacles, ship.camX, obsSpeed, hitbox, score, lives, gameOver);
      stars, score := FilterStars(stars, ship.camX, hitbox, score);
    }

    /** The obstacle clock: grows by 0.82 of the velocity scale and, past
        the level's threshold, spawns one obstacle beyond the right edge. */
    method SpawnObstacle(w: real, h: real, r: (real, real, real, real)) returns (fired: bool)
      requires Unit(r.0) && Unit(r.1) && Unit(r.2) && Unit(r.3)
      modifies this`obsSpawnTimer, this`obstacles
      ensures (obsSpawnTimer, fired) == SpawnClock(old(obsSpawnTimer), 0.82 * velocityScale, ObstacleThreshold(level))
      ensures obstacles == old(obstacles)
        + if fired then [NewObstacle(ObstacleSpawnX(ship.camX, w, r.0), r.1, r.2, r.3, GAME_SCALE, h)] else []
      ensures var c := ObstacleSpawn(old(obsSpawnTimer), velocityScale, level, ship.State().camX, w, h, r);
        obsSpawnTimer == c.0 && obstacles == old(obstacles) + c.1
    {
      obsSpawnTimer := obsSpawnTimer + 0.82 * velocityScale;
      var spawnRate := Max(42.0 - (level as real) * 3.7, 16.0);
      fired := obsSpawnTimer > spawnRate;
      if fired {
        var spawnX := ship.camX + w + (r.0 * 100.0 + 50.0);
        obstacles := obstacles + [NewObstacle(spawnX, r.1, r.2, r.3, GAME_SCALE, h)];
        obsSpawnTimer := 0.0;
      }
    }

    /** The star clock: grows by 1.2 of the velocity scale and, past 75,
        spawns one star beyond the right edge. */
    method SpawnStar(w: real, h: real, r: (real, real, real, real)) returns (fired: bool)
      requires Unit(r.0) && Unit(r.1) && Unit(r.2) && Unit(r.3) && 0.0 < velocityScale
      modifies this`starSpawnTimer, this`stars
      ensures (starSpawnTimer, fired) == SpawnClock(old(starSpawnTimer), 1.2 * velocityScale, STAR_THRESHOLD)
      ensures stars == old(stars)
        + if fired then [NewStar(StarSpawnX(ship.camX, w, r.0), r.1, r.2, r.3, GAME_SCALE, velocityScale, h)] else []
      ensures var c := StarSpawn(old(starSpawnTimer), velocityScale, ship.State().camX, w, h, r);
        starSpawnTimer == c.0 && stars == old(stars) + c.1
    {
      starSpawnTimer := starSpawnTimer + 1.2 * velocityScale;
      fired := starSpawnTimer > STAR_THRESHOLD;
      if fired {
        var spawnX := ship.camX + w + (r.0 * 300.0 + 100.0);
        stars := stars + [NewStar(spawnX, r.1, r.2, r.3, GAME_SCALE, velocityScale, h)];
        starSpawnTimer := 0.0;
      }
    }
  }

  /** A restart always lands in a level-up pause: the reset score of 5400
      already earns level 5, so the first frame raises the level from 1. */
  method FirstFrameAfterReset(g: Game, w: real, h: real, cosA: real, sinA: real, d: FrameDraws)
    requires g.Valid() && 0.0 <= w && 0.0 <= h && FrameDrawsOk(d)
    requires -1.0 <= cosA <= 1.0 && -1.0 <= sinA <= 1.0
    modifies g
    ensures g.level >= 5 && g.paused && g.score >= 5400
  {
    g.Reset(w, h, d.field);
    ghost var _ := g.Tick(w, h, cosA, sinA, d);
  }

  /** What the session invariant guarantees: the level is one of the
      game's, the score has earned it, and the velocity scale lies within
      the game's range. */
  lemma ValidBounds(g: Game)
    requires g.Valid()
    ensures 1 <= g.level <= MAX_LEVEL && 1200 * (g.level - 1) <= g.score
    ensures 0.41 <= g.velocityScale <= 0.76
  {
  }
}
