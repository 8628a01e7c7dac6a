/** The game session of the early version: three levels, no trail, no
    pause, a velocity scale that the end of every frame sets from the level,
    and a second "lives" check that reads a property the ship does not have.
    As in the full version, rendering is removed, the viewport is `w` x `h`,
    and random draws and the cosine and sine of the steered angle are
    inputs. */
module EarlyRocketGame {
  import opened Kinematics
  import opened Entities
  import opened FramePasses
  import opened Keyboard

  const GAME_SCALE: real := 0.65
  const BG_STAR_COUNT: nat := 970
  const MAX_LEVEL: int := 3
  const WIN_SCORE: int := 4200
  const LEVEL_THRESHOLD: int := 1500
  const STAR_THRESHOLD: real := 70.0

  /** The level a score earns: one level per 1500 points, capped at 3. */
  function TargetLevel(score: int): (l: int)
    ensures l <= MAX_LEVEL
    ensures score >= 0 ==> 1 <= l
    ensures l < MAX_LEVEL ==> 1500 * (l - 1) <= score < 1500 * l
    ensures l == MAX_LEVEL <==> score >= 3000
  {
    var l := 1 + score / 1500;
    if l > MAX_LEVEL then MAX_LEVEL else l
  }

  /** More points never earn a lower level. */
  lemma TargetLevelMonotone(s1: int, s2: int)
    requires s1 <= s2
    ensures TargetLevel(s1) <= TargetLevel(s2)
  {
  }

  /** The obstacle spawn threshold of a level: 35 - 3.5 per level, but never
      below 15; within the three levels the floor never binds. */
  function ObstacleThreshold(level: int): (t: real)
    ensures t >= 15.0
    ensures level <= 5 ==> t == 35.0 - (level as real) * 3.5
    ensures 1 <= level <= MAX_LEVEL ==> 24.5 <= t <= 31.5
  {
    Max(35.0 - (level as real) * 3.5, 15.0)
  }

  /** How far obstacles scroll per frame at a level and velocity scale. */
  function ObstacleSpeed(level: int, vs: real): (s: real)
    ensures 0.0 < vs && 1 <= level <= MAX_LEVEL ==> 7.3 * vs <= s <= 10.9 * vs
  {
    var f := 5.5 + (level as real) * 1.8;
    if 0.0 < vs && 1 <= level <= MAX_LEVEL then
      MulNonneg(f - 7.3, vs);
      MulNonneg(10.9 - f, vs);
      f * vs
    else f * vs
  }

  /** The obstacle clock of one frame from `timer`: it grows by 0.8 of the
      velocity scale and, past the level's threshold, restarts and spawns one
      obstacle beyond the right edge. */
  function ObstacleSpawn(timer: real, vs: real, level: int, camX: real, w: real, h: real,
                         r: (real, real, real, real)): (real, seq<Obstacle>)
    requires Unit(r.0) && Unit(r.1) && Unit(r.2) && Unit(r.3)
  {
    var c := SpawnClock(timer, 0.8 * vs, ObstacleThreshold(level));
    (c.0, if c.1 then [NewObstacle(ObstacleSpawnX(camX, w, r.0), r.1, r.2, r.3, GAME_SCALE, h)] else [])
  }

  /** The star clock of one frame from `timer`: it grows by the velocity
      scale and, past 70, restarts and spawns one star beyond the right edge. */
  function StarSpawn(timer: real, vs: real, camX: real, w: real, h: real,
                     r: (real, real, real, real)): (real, seq<Star>)
    requires Unit(r.0) && Unit(r.1) && Unit(r.2) && Unit(r.3) && 0.0 < vs
  {
    var c := SpawnClock(timer, 1.0 * vs, STAR_THRESHOLD);
    (c.0, if c.1 then [NewStar(StarSpawnX(camX, w, r.0), r.1, r.2, r.3, GAME_SCALE, vs, h)] else [])
  }

  // ---------------------------------------------------------------- velocity scale

  /** The three velocity scales the game uses. */
  predicate IsScale(vs: real)
  {
    vs == 0.41 || vs == 0.55 || vs == 0.71
  }

  /** One `if (level == k) VELOCITY_SCALE = v` statement. */
  function AssignIf(level: int, k: int, v: real, vs: real): real
  {
    if level == k then v else vs
  }

  /** The block after `if (level == 3 );`: the stray semicolon ends the `if`
      with an empty statement, so this block runs whatever the level. */
  function UnguardedFast(vs: real): real
  {
    0.71
  }

  /** The end-of-frame velocity-scale assignments as written. */
  function VelocityScaleAsWritten(level: int, vs: real): (r: real)
    ensures IsScale(r) && r == 0.71
  {
    UnguardedFast(AssignIf(level, 2, 0.55, AssignIf(level, 1, 0.41, vs)))
  }

  /** The stray semicolon makes every frame end at 0.71: at level 1 the ship
      flies at the level-3 scale instead of 0.41. */
  lemma StraySemicolonSkipsLevels(vs: real)
    ensures forall level :: VelocityScaleAsWritten(level, vs) == 0.71
    ensures VelocityScaleAsWritten(1, vs) != VelocityScaleFor(1, vs)
    ensures VelocityScaleAsWritten(2, vs) != VelocityScaleFor(2, vs)
  {
  }

  /** The assignments as intended: each of the three levels sets its own
      scale, and any other level leaves the scale as it is. */
  function VelocityScaleFor(level: int, vs: real): (r: real)
    ensures level == 1 ==> r == 0.41
    ensures level == 2 ==> r == 0.55
    ensures level == 3 ==> r == 0.71
    ensures !(1 <= level <= 3) ==> r == vs
  {
    AssignIf(level, 3, 0.71, AssignIf(level, 2, 0.55, AssignIf(level, 1, 0.41, vs)))
  }

  /** The intended scale keeps to the three scales and grows with the level. */
  lemma ScaleRisesWithLevel(l1: int, l2: int, vs: real)
    requires 1 <= l1 < l2 <= MAX_LEVEL
    ensures IsScale(VelocityScaleFor(l1, vs)) && IsScale(VelocityScaleFor(l2, vs))
    ensures VelocityScaleFor(l1, vs) < VelocityScaleFor(l2, vs)
  {
  }

  // ---------------------------------------------------------------- the misspelt check

  /** A property read as JavaScript answers it: a number, a boolean, an
      object (the ship's point lists and its methods), or `undefined` for a
      name the object does not have. */
  datatype JsValue = Undefined | Number(n: real) | Bool(b: bool) | Object

  /** A JavaScript number: a real value or NaN. */
  datatype JsNumber = Finite(v: real) | NaN

  /** The names of the ship's properties. */
  const SHIP_PROPERTIES: set<string> := {"worldX", "screenY", "camX", "shipScreenX", "angle", "vx", "vy",
                                         "thrusting", "bodyPoints", "flamePoints", "halfW", "halfH",
                                         "update", "getRotatedPoints", "draw"}

  /** Reading a property of the ship by name. Names are case-sensitive, so
      "screenx" is not "screenY" nor "shipScreenX". */
  function ShipProperty(s: ShipState, name: string): (r: JsValue)
    ensures r == Undefined <==> name !in SHIP_PROPERTIES
    ensures name == "worldX" ==> r == Number(s.worldX)
    ensures name == "screenY" ==> r == Number(s.screenY)
    ensures name == "camX" ==> r == Number(s.camX)
    ensures name == "shipScreenX" ==> r == Number(s.shipScreenX)
    ensures name == "angle" ==> r == Number(s.angle)
    ensures name == "vx" ==> r == Number(s.vx)
    ensures name == "vy" ==> r == Number(s.vy)
    ensures name == "thrusting" ==> r == Bool(s.thrusting)
    ensures name == "bodyPoints" || name == "flamePoints" ==> r == Object
    ensures name == "update" || name == "getRotatedPoints" || name == "draw" ==> r == Object
    ensures name == "halfW" ==> r == Number(s.halfW)
    ensures name == "halfH" ==> r == Number(s.halfH)
  {
    if name == "worldX" then Number(s.worldX)
    else if name == "screenY" then Number(s.screenY)
    else if name == "camX" then Number(s.camX)
    else if name == "shipScreenX" then Number(s.shipScreenX)
    else if name == "angle" then Number(s.angle)
    else if name == "vx" then Number(s.vx)
    else if name == "vy" then Number(s.vy)
    else if name == "thrusting" then Bool(s.thrusting)
    else if name == "bodyPoints" || name == "flamePoints" then Object
    else if name == "update" || name == "getRotatedPoints" || name == "draw" then Object
    else if name == "halfW" then Number(s.halfW)
    else if name == "halfH" then Number(s.halfH)
    else Undefined
  }

  /** `a - b` for a property value `a`: `undefined`, a list of several
      points and a function convert to NaN, a boolean to 1 or 0. */
  function Minus(a: JsValue, b: real): (r: JsNumber)
    ensures r == NaN <==> a == Undefined || a == Object
  {
    match a
    case Undefined => NaN
    case Number(x) => Finite(x - b)
    case Bool(t) => Finite((if t then 1.0 else 0.0) - b)
    case Object => NaN
  }

  /** `n <= b`: every comparison with NaN is false. */
  predicate AtMost(n: JsNumber, b: real)
  {
    n.Finite? && n.v <= b
  }

  /** The second lives check reads `ship.screenx`, which the ship does not
      have, so it never takes a life. */
  lemma MisspeltCheckNeverFires(s: ShipState)
    ensures ShipProperty(s, "screenx") == Undefined
    ensures !AtMost(Minus(ShipProperty(s, "screenx"), s.halfH), 0.0)
  {
  }

  // ---------------------------------------------------------------- keys

  /** The session flags the keyboard acts on. */
  datatype Flags = Flags(gameOver: bool, win: bool, running: bool)

  /** The keydown transition on the flags: once the game is over or won,
      "r" asks for a restart (the second result) and Escape or "q" stops the
      loop; in play the keyboard changes no flag. */
  function OnKey(f: Flags, key: string): (r: (Flags, bool))
    ensures r.1 <==> (f.gameOver || f.win) && (key == "r" || key == "R")
    ensures r.0.gameOver == f.gameOver && r.0.win == f.win
    ensures r.0.running != f.running <==>
      f.running && (f.gameOver || f.win) && (key == "Escape" || key == "q" || key == "Q")
    ensures !f.gameOver && !f.win ==> r == (f, false)
  {
    LowerIsR(key);
    LowerIsQ(key);
    if (f.gameOver || f.win) && Lower(key) == "r" then (f, true)
    else if (f.gameOver || f.win) && (key == "Escape" || Lower(key) == "q") then (f.(running := false), false)
    else (f, false)
  }

  // ---------------------------------------------------------------- draws

  /** The random draws one frame may consume. */
  datatype FrameDraws = FrameDraws(
    recycle: seq<(real, real)>,          // background stars moved back: x offset, height
    obstacle: (real, real, real, real),  // spawn offset, width, height, height on screen
    star: (real, real, real, real))      // spawn offset, height on screen, speed, size

  predicate FrameDrawsOk(d: FrameDraws)
  {
    |d.recycle| == BG_STAR_COUNT && RecycleDrawsOk(d.recycle)
    && Unit(d.obstacle.0) && Unit(d.obstacle.1) && Unit(d.obstacle.2) && Unit(d.obstacle.3)
    && Unit(d.star.0) && Unit(d.star.1) && Unit(d.star.2) && Unit(d.star.3)
  }

  /** What the gameplay part of a frame did: whether the ship touched the
      ceiling, and the tallies of the obstacle and star passes. */
  datatype Report = Report(ceiling: bool, obstacles: ObstacleTally, stars: StarTally)

  /** What the gameplay block changes, apart from the level and the win
      flag, as a value. */
  datatype Scene = Scene(score: int, lives: int, obstacles: seq<Obstacle>, stars: seq<Star>,
                         obsTimer: real, starTimer: real, ship: ShipState)

  /** The session as the gameplay block reads it: the scene, the level and
      the velocity scale. */
  datatype World = World(scene: Scene, level: int, vs: real)

  /** The ship as the collision tests see it. */
  function HitboxOf(s: ShipState): Hitbox
  {
    Hitbox(s.shipScreenX, s.screenY, s.halfW, s.halfH)
  }

  /** The world's part of the gameplay block, from the obstacles, stars and
      spawn timers before it to the scene `after` it: each spawn clock ticks
      and may append one entity, then the obstacle pass (at the speed of
      `level` and `vs`) yields `o` and the star pass yields `s`, both against
      the ship as it stands after the block, and what they keep is the new
      lists. */
  ghost predicate Advanced(obs0: seq<Obstacle>, stars0: seq<Star>, obsTimer0: real, starTimer0: real,
                           level: int, vs: real, w: real, h: real, d: FrameDraws, after: Scene,
                           o: ObstacleTally, s: StarTally)
    requires FrameDrawsOk(d) && 0.0 < vs
    ensures Advanced(obs0, stars0, obsTimer0, starTimer0, level, vs, w, h, d, after, o, s) ==>
      |after.obstacles| + o.passed + o.hits <= |obs0| + 1
      && |after.stars| + s.collected + s.passed <= |stars0| + 1
      && (forall i :: 0 <= i < |after.obstacles| ==>
            after.obstacles[i].Visible() && !after.obstacles[i].CollidesWith(HitboxOf(after.ship)))
      && (forall i :: 0 <= i < |after.stars| ==>
            after.stars[i].Visible() && !after.stars[i].CollidesWith(HitboxOf(after.ship)))
      && (0.0 <= obsTimer0 ==> 0.0 <= after.obsTimer <= ObstacleThreshold(level))
      && (0.0 <= starTimer0 ==> 0.0 <= after.starTimer <= STAR_THRESHOLD)
  {
    var camX := after.ship.camX;
    var os := ObstacleSpawn(obsTimer0, vs, level, camX, w, h, d.obstacle);
    var ss := StarSpawn(starTimer0, vs, camX, w, h, d.star);
    o == ObstaclePass(obs0 + os.1, camX, ObstacleSpeed(level, vs), HitboxOf(after.ship))
    && s == StarPass(stars0 + ss.1, camX, HitboxOf(after.ship))
    && after.obstacles == o.kept && after.obsTimer == os.0 && after.stars == s.kept && after.starTimer == ss.0
  }

  /** What the gameplay block does from the world `before` it to the scene
      `after` it, with `keys` held: the ship flies one `Step`; `report`
      records whether it then touches the ceiling; the spawn clocks and the
      two passes run as `Advanced` says; the score gains 20 per obstacle
      passed and 100 per star collected, and a life goes per obstacle hit and
      one more for the ceiling. */
  ghost predicate Played(before: World, keys: Keys, cosA: real, sinA: real, w: real, h: real,
                         d: FrameDraws, after: Scene, report: Report)
    requires FrameDrawsOk(d) && 0.0 < before.vs
    ensures Played(before, keys, cosA, sinA, w, h, d, after, report) ==>
      after.score >= before.scene.score
      && before.scene.lives - |before.scene.obstacles| - 2 <= after.lives <= before.scene.lives
      && -15.0 * before.vs <= after.ship.vx <= 15.0 * before.vs
      && -15.0 * before.vs <= after.ship.vy <= 15.0 * before.vs
  {
    var b := before.scene;
    after.ship == Step(b.ship, keys, cosA, sinA, before.vs, w, h)
    && (report.ceiling <==> after.ship.screenY - after.ship.halfH <= 0.0)
    && Advanced(b.obstacles, b.stars, b.obsTimer, b.starTimer, before.level, before.vs, w, h, d, after,
                report.obstacles, report.stars)
    && after.score == b.score + 20 * report.obstacles.passed + 100 * report.stars.collected
    && after.lives == b.lives - report.obstacles.hits - (if report.ceiling then 1 else 0)
  }

  // ---------------------------------------------------------------- the session

  class Game {
    var ship: Ship
    var obstacles: seq<Obstacle>
    var stars: seq<Star>
    var bgStars: array<BgStar>
    var score: int
    var lives: int
    var level: int
    var velocityScale: real
    var obsSpawnTimer: real
    var starSpawnTimer: real
    var gameOver: bool
    var win: bool
    var running: bool
    /** The keys held down, as the key handlers record them. */
    var held: map<string, bool>

    /** The session invariant: the level never runs ahead of the score and is
        back at 1 once the game is over or won; the velocity scale is one of
        the three; the game is over exactly when no lives are left and won
        exactly when the score reached 4200. */
    predicate Valid()
      reads this
    {
      bgStars.Length == BG_STAR_COUNT
      && ship.halfW == 22.75 && ship.halfH == 22.75
      && 1 <= level <= TargetLevel(score)
      && (gameOver || win ==> level == 1)
      && IsScale(velocityScale)
      && 0.0 <= obsSpawnTimer && 0.0 <= starSpawnTimer
      && 0 <= score && lives <= 1
      && (gameOver <==> lives <= 0)
      && (win <==> score >= WIN_SCORE)
    }

    function SessionFlags(): Flags
      reads this
    {
      Flags(gameOver, win, running)
    }

    predicate Pressed(key: string)
      reads this
    {
      key in held && held[key]
    }

    /** The arrow keys as the ship reads them. */
    function HeldKeys(): Keys
      reads this
    {
      Keys(Pressed("ArrowLeft"), Pressed("ArrowRight"), Pressed("ArrowUp"))
    }

    function Now(): Scene
      reads this`score, this`lives, this`obstacles, this`stars, this`obsSpawnTimer, this`starSpawnTimer
      reads this`ship, ship
    {
      Scene(score, lives, obstacles, stars, obsSpawnTimer, starSpawnTimer, ship.State())
    }

    function Snapshot(): World
      reads this, ship
    {
      World(Now(), level, velocityScale)
    }

    /** The program's start: the initial globals, then `resetGame`. */
    constructor (w: real, h: real, field: seq<(real, real, real)>)
      requires 0.0 <= w && |field| == BG_STAR_COUNT && FieldDrawsOk(field)
      ensures Valid() && running && score == 0 && lives == 1 && level == 1 && velocityScale == 0.41
      ensures held == map[]
    {
      ship := new Ship(w, h, GAME_SCALE);
      obstacles, stars := [], [];
      bgStars := new BgStar[0];
      score, lives, level := 0, 1, 1;
      velocityScale := 0.41;
      obsSpawnTimer, starSpawnTimer := 0.0, 0.0;
      gameOver, win, running := false, false, true;
      held := map[];
      new;
      Reset(w, h, field);
    }

    /** `resetGame`. The velocity scale is not set back: the new field and
        the next frames run at the scale left by the last frame. */
    method Reset(w: real, h: real, field: seq<(real, real, real)>)
      requires 0.0 <= w && IsScale(velocityScale) && |field| == BG_STAR_COUNT && FieldDrawsOk(field)
      modifies this
      ensures fresh(ship) && ship.State() == InitialShip(w, h, GAME_SCALE)
      ensures fresh(bgStars) && bgStars[..] == StarField(0.0, w, h, old(velocityScale), field)
      ensures obstacles == [] && stars == []
      ensures score == 0 && lives == 1 && level == 1 && velocityScale == old(velocityScale)
      ensures obsSpawnTimer == 0.0 && starSpawnTimer == 0.0
      ensures SessionFlags() == Flags(false, false, true)
      ensures held == old(held)
      ensures Valid()
    {
      RebuildWorld(w, h, field);
      ResetCounters();
    }

    /** The part of `resetGame` that sets the counters and flags back. */
    method ResetCounters()
      modifies this`score, this`lives, this`level, this`obsSpawnTimer, this`starSpawnTimer
      modifies this`gameOver, this`win, this`running
      ensures score == 0 && lives == 1 && level == 1
      ensures obsSpawnTimer == 0.0 && starSpawnTimer == 0.0
      ensures SessionFlags() == Flags(false, false, true)
    {
      score := 0;
      lives := 1;
      level := 1;
      obsSpawnTimer := 0.0;
      starSpawnTimer := 0.0;
      gameOver := false;
      win := false;
      running := true;
    }

    /** The part of `resetGame` that rebuilds the world. */
    method RebuildWorld(w: real, h: real, field: seq<(real, real, real)>)
      requires 0.0 <= w && 0.0 < velocityScale && |field| == BG_STAR_COUNT && FieldDrawsOk(field)
      modifies this`ship, this`obstacles, this`stars, this`bgStars
      ensures fresh(ship) && ship.State() == InitialShip(w, h, GAME_SCALE)
      ensures fresh(bgStars) && bgStars[..] == StarField(0.0, w, h, velocityScale, field)
      ensures obstacles == [] && stars == []
    {
      ship := new Ship(w, h, GAME_SCALE);
      obstacles := [];
      stars := [];
      bgStars := NewField(0.0, w, h, velocityScale, field);
    }

    /** The keydown handler: records the key, then applies `OnKey`, running
        `resetGame` when it asks for a restart. */
    method KeyDown(key: string, w: real, h: real, field: seq<(real, real, real)>)
      requires Valid() && 0.0 <= w && |field| == BG_STAR_COUNT && FieldDrawsOk(field)
      modifies this
      ensures Valid()
      ensures held == old(held)[key := true]
      ensures OnKey(old(SessionFlags()), key).1 ==>
        fresh(ship) && ship.State() == InitialShip(w, h, GAME_SCALE)
        && obstacles == [] && stars == [] && obsSpawnTimer == 0.0 && starSpawnTimer == 0.0
        && fresh(bgStars) && bgStars[..] == StarField(0.0, w, h, old(velocityScale), field)
        && score == 0 && lives == 1 && level == 1 && SessionFlags() == Flags(false, false, true)
        && velocityScale == old(velocityScale)
      ensures !OnKey(old(SessionFlags()), key).1 ==>
        SessionFlags() == OnKey(old(SessionFlags()), key).0 && ship == old(ship) && score == old(score)
        && lives == old(lives) && level == old(level) && velocityScale == old(velocityScale)
        && bgStars == old(bgStars) && obstacles == old(obstacles) && stars == old(stars)
        && obsSpawnTimer == old(obsSpawnTimer) && starSpawnTimer == old(starSpawnTimer)
    {
      held := held[key := true];
      LowerIsR(key);
      LowerIsQ(key);
      if (gameOver || win) && Lower(key) == "r" {
        Reset(w, h, field);
      } else if (gameOver || win) && (key == "Escape" || Lower(key) == "q") {
        running := false;
      }
    }

    /** The keyup handler. */
    method KeyUp(key: string)
      modifies this`held
      ensures held == old(held)[key := false]
    {
      held := held[key := false];
    }

    /** One frame of the main loop: nothing happens once the loop has been
        stopped; otherwise the frame runs as `RunFrame` says, and it always
        ends at the velocity scale 0.71. */
    method Tick(w: real, h: real, cosA: real, sinA: real, d: FrameDraws) returns (ghost report: Report)
      requires Valid() && 0.0 <= w && 0.0 <= h && FrameDrawsOk(d)
      requires -1.0 <= cosA <= 1.0 && -1.0 <= sinA <= 1.0
      modifies this, ship, bgStars
      ensures Valid()
      ensures !old(running) ==> unchanged(this) && unchanged(ship) && unchanged(bgStars)
      ensures running == old(running) && held == old(held) && ship == old(ship) && bgStars == old(bgStars)
      ensures score >= old(score)
      ensures old(running) ==> velocityScale == 0.71
      ensures old(running) ==> bgStars[..] == RecycledAll(old(bgStars[..]), old(ship.camX), w, h, d.recycle)
      ensures old(running) && !(gameOver || win) ==> level == TargetLevel(score)
      ensures old(running) && old(gameOver || win) ==>
        score == old(score) && lives == old(lives) && obstacles == old(obstacles)
        && stars == old(stars) && obsSpawnTimer == old(obsSpawnTimer) && starSpawnTimer == old(starSpawnTimer)
        && ship.State() == old(ship.State())
      ensures old(running) && !old(gameOver || win) ==>
        Played(old(Snapshot()), old(HeldKeys()), cosA, sinA, w, h, d, Now(), report)
    {
      report := Report(false, ObstacleTally([], 0, 0), StarTally([], 0, 0));
      if !running {
        return;
      }
      report := RunFrame(w, h, cosA, sinA, d);
    }

    /** A frame of the running loop: background stars, then (unless the game
        is over or won) the gameplay block with its level-up and win rules,
        then the velocity-scale statements, and the level drops back to 1
        once the game is over or won. */
    method RunFrame(w: real, h: real, cosA: real, sinA: real, d: FrameDraws) returns (ghost report: Report)
      requires Valid() && 0.0 <= w && 0.0 <= h && FrameDrawsOk(d)
      requires -1.0 <= cosA <= 1.0 && -1.0 <= sinA <= 1.0
      modifies this`obstacles, this`stars, this`score, this`lives, this`gameOver
      modifies this`obsSpawnTimer, this`starSpawnTimer, this`level, this`velocityScale
      modifies this`win, ship, bgStars
      ensures Valid()
      ensures score >= old(score) && velocityScale == 0.71
      ensures !(gameOver || win) ==> level == TargetLevel(score)
      ensures bgStars[..] == RecycledAll(old(bgStars[..]), old(ship.camX), w, h, d.recycle)
      ensures old(gameOver || win) ==>
        score == old(score) && lives == old(lives) && obstacles == old(obstacles)
        && stars == old(stars) && obsSpawnTimer == old(obsSpawnTimer) && starSpawnTimer == old(starSpawnTimer)
        && ship.State() == old(ship.State())
      ensures !old(gameOver || win) ==>
        Played(old(Snapshot()), old(HeldKeys()), cosA, sinA, w, h, d, Now(), report)
    {
      report := ScrollThenPlay(w, h, cosA, sinA, d);
      FinishFrame();
    }

    /** The end of every running frame: the velocity-scale statements as
        written, whose stray semicolon leaves the scale at 0.71 whatever the
        level (see `StraySemicolonSkipsLevels`), then the level drops back to
        1 once the game is over or won. */
    method FinishFrame()
      modifies this`velocityScale, this`level
      ensures velocityScale == VelocityScaleAsWritten(old(level), old(velocityScale)) && velocityScale == 0.71
      ensures level == if gameOver || win then 1 else old(level)
      ensures Now() == old(Now())
    {
      if level == 1 {
        velocityScale := 0.41;
      }
      if level == 2 {
        velocityScale := 0.55;
      }
      if level == 3 {
      }
      {
        velocityScale := 0.71;
      }
      if gameOver || win {
        level := 1;
      }
    }

    /** The first part of a running frame: the background stars scroll,
        then the gameplay block runs unless the game is over or won, in which
        case nothing in play moves. */
    method ScrollThenPlay(w: real, h: real, cosA: real, sinA: real, d: FrameDraws) returns (ghost report: Report)
      requires (gameOver <==> lives <= 0) && (win <==> score >= WIN_SCORE) && 0 <= score
      requires 1 <= level <= TargetLevel(score) && 0.0 < velocityScale && 0.0 <= w && 0.0 <= h && FrameDrawsOk(d)
      requires bgStars.Length == BG_STAR_COUNT && 0.0 <= obsSpawnTimer && 0.0 <= starSpawnTimer
      requires -1.0 <= cosA <= 1.0 && -1.0 <= sinA <= 1.0
      modifies this`obstacles, this`stars, this`score, this`lives, this`gameOver, this`level, this`win
      modifies this`obsSpawnTimer, this`starSpawnTimer, ship, bgStars
      ensures bgStars[..] == RecycledAll(old(bgStars[..]), old(ship.camX), w, h, d.recycle)
      ensures gameOver <==> lives <= 0
      ensures win <==> score >= WIN_SCORE
      ensures 0.0 <= obsSpawnTimer && 0.0 <= starSpawnTimer
      ensures score >= old(score) && 1 <= level <= TargetLevel(score)
      ensures old(gameOver || win) ==>
        score == old(score) && lives == old(lives) && obstacles == old(obstacles) && stars == old(stars)
        && obsSpawnTimer == old(obsSpawnTimer) && starSpawnTimer == old(starSpawnTimer)
        && level == old(level) && unchanged(ship)
      ensures !old(gameOver || win) ==>
        level == TargetLevel(score) && Played(old(Snapshot()), old(HeldKeys()), cosA, sinA, w, h, d, Now(), report)
    {
      ghost var before := Snapshot();
      RecycleField(bgStars, ship.camX, w, h, d.recycle);
      assert Snapshot() == before;
      report := Report(false, ObstacleTally([], 0, 0), StarTally([], 0, 0));
      if !gameOver && !win {
        report := Gameplay(w, h, cosA, sinA, d);
      }
    }

    /** The gameplay block of a frame: `Play`, then the level-up and win
        rules, after which the level is the one the score earns. */
    method Gameplay(w: real, h: real, cosA: real, sinA: real, d: FrameDraws) returns (ghost report: Report)
      requires !gameOver && !win && (gameOver <==> lives <= 0) && 0 <= score && 1 <= level <= TargetLevel(score)
      requires 0.0 < velocityScale && 0.0 <= h && FrameDrawsOk(d)
      requires 0.0 <= obsSpawnTimer && 0.0 <= starSpawnTimer
      requires -1.0 <= cosA <= 1.0 && -1.0 <= sinA <= 1.0
      modifies this`obstacles, this`stars, this`score, this`lives, this`gameOver, this`level, this`win
      modifies this`obsSpawnTimer, this`starSpawnTimer, ship
      ensures Played(old(Snapshot()), old(HeldKeys()), cosA, sinA, w, h, d, Now(), report)
      ensures gameOver <==> lives <= 0
      ensures win <==> score >= WIN_SCORE
      ensures 0.0 <= obsSpawnTimer && 0.0 <= starSpawnTimer
      ensures score >= old(score) && level == TargetLevel(score)
    {
      report := Play(w, h, cosA, sinA, d);
      Promote();
      TargetLevelMonotone(old(score), score);
    }

    /** The gameplay block of a frame up to its level-up and win rules: ship
        physics and the two lives checks, the spawn clocks, and the obstacle
        and star passes. */
    method Play(w: real, h: real, cosA: real, sinA: real, d: FrameDraws) returns (ghost report: Report)
      requires !gameOver && (gameOver <==> lives <= 0) && 0.0 < velocityScale && 0.0 <= h && FrameDrawsOk(d)
      requires 0.0 <= obsSpawnTimer && 0.0 <= starSpawnTimer
      requires -1.0 <= cosA <= 1.0 && -1.0 <= sinA <= 1.0
      modifies this`obstacles, this`stars, this`score, this`lives, this`gameOver
      modifies this`obsSpawnTimer, this`starSpawnTimer, ship
      ensures Played(old(Snapshot()), HeldKeys(), cosA, sinA, w, h, d, Now(), report)
      ensures gameOver <==> lives <= 0
      ensures 0.0 <= obsSpawnTimer && 0.0 <= starSpawnTimer
      ensures score >= old(score)
    {
      var ceiling := Fly(w, h, cosA, sinA);
      ghost var o, s := Advance(w, h, d);
      report := Report(ceiling, o, s);
    }

    /** The level-up and win rules at the end of the gameplay block. */
    method Promote()
      modifies this`level, this`win
      ensures level == if TargetLevel(score) > old(level) then TargetLevel(score) else old(level)
      ensures win == (old(win) || score >= WIN_SCORE)
      ensures Now() == old(Now())
    {
      var newLevel := 1 + score / LEVEL_THRESHOLD;
      if newLevel > MAX_LEVEL {
        newLevel := MAX_LEVEL;
      }
      if newLevel > level {
        level := newLevel;
      }
      if score >= WIN_SCORE {
        win := true;
      }
    }

    /** The ship's part of the gameplay block: physics, then the ceiling
        check and the check on the misspelt property, which never fires. */
    method Fly(w: real, h: real, cosA: real, sinA: real) returns (ceiling: bool)
      requires 0.0 <= velocityScale
      requires -1.0 <= cosA <= 1.0 && -1.0 <= sinA <= 1.0
      modifies this`lives, this`gameOver, ship
      ensures ship.State() == Step(old(ship.State()), HeldKeys(), cosA, sinA, velocityScale, w, h)
      ensures ceiling <==> ship.State().screenY - ship.State().halfH <= 0.0
      ensures lives == old(lives) - (if ceiling then 1 else 0)
      ensures gameOver == (old(gameOver) || (ceiling && lives <= 0))
      ensures score == old(score) && obstacles == old(obstacles) && stars == old(stars)
      ensures obsSpawnTimer == old(obsSpawnTimer) && starSpawnTimer == old(starSpawnTimer)
    {
      ship.Update(HeldKeys(), cosA, sinA, velocityScale, w, h);
      ceiling := CheckCeiling();
      var _ := CheckMisspelt();
    }

    /** Touching the ceiling costs a life, and the last life ends the game. */
    method CheckCeiling() returns (ceiling: bool)
      modifies this`lives, this`gameOver
      ensures ceiling <==> ship.screenY - ship.halfH <= 0.0
      ensures lives == old(lives) - (if ceiling then 1 else 0)
      ensures gameOver == (old(gameOver) || (ceiling && lives <= 0))
    {
      ceiling := ship.screenY - ship.halfH <= 0.0;
      if ceiling {
        lives := lives - 1;
        if lives <= 0 {
          gameOver := true;
        }
      }
    }

    /** The second lives check, on `ship.screenx`: it would take a life like
        the ceiling check, but the ship has no such property, so the
        comparison is with NaN and never holds, and lives and the game-over
        flag are left as they were. */
    method CheckMisspelt() returns (fires: bool)
      modifies this`lives, this`gameOver
      ensures fires <==> AtMost(Minus(ShipProperty(ship.State(), "screenx"), ship.halfH), 0.0)
      ensures !fires && lives == old(lives) && gameOver == old(gameOver)
    {
      fires := AtMost(Minus(ShipProperty(ship.State(), "screenx"), ship.halfH), 0.0);
      if fires {
        lives := lives - 1;
        if lives <= 0 {
          gameOver := true;
        }
      }
      MisspeltCheckNeverFires(ship.State());
    }

    /** The world's part of the gameplay block: the spawn clocks, then the
        obstacle and star passes. */
    method Advance(w: real, h: real, d: FrameDraws) returns (ghost o: ObstacleTally, ghost s: StarTally)
      requires 0.0 < velocityScale && 0.0 <= obsSpawnTimer && 0.0 <= starSpawnTimer && FrameDrawsOk(d)
      modifies this`obstacles, this`stars, this`score, this`lives, this`gameOver
      modifies this`obsSpawnTimer, this`starSpawnTimer
      ensures Advanced(old(obstacles), old(stars), old(obsSpawnTimer), old(starSpawnTimer), level, velocityScale,
                       w, h, d, Now(), o, s)
      ensures score == old(score) + 20 * o.passed + 100 * s.collected
      ensures lives == old(lives) - o.hits
      ensures gameOver == (old(gameOver) || (o.hits > 0 && lives <= 0))
      ensures o.passed + o.hits <= |old(obstacles)| + 1
      ensures s.collected <= |old(stars)| + 1
      ensures 0.0 <= obsSpawnTimer <= ObstacleThreshold(level)
      ensures 0.0 <= starSpawnTimer <= STAR_THRESHOLD
    {
      Spawn(w, h, d);
      o, s := RunPasses();
    }

    /** Both spawn clocks of a frame, each appending at most one entity. */
    method Spawn(w: real, h: real, d: FrameDraws)
      requires 0.0 < velocityScale && 0.0 <= obsSpawnTimer && 0.0 <= starSpawnTimer && FrameDrawsOk(d)
      modifies this`obstacles, this`stars, this`obsSpawnTimer, this`starSpawnTimer
      ensures var os := ObstacleSpawn(old(obsSpawnTimer), velocityScale, level, ship.State().camX, w, h, d.obstacle);
        obsSpawnTimer == os.0 && obstacles == old(obstacles) + os.1 && |os.1| <= 1
      ensures var ss := StarSpawn(old(starSpawnTimer), velocityScale, ship.State().camX, w, h, d.star);
        starSpawnTimer == ss.0 && stars == old(stars) + ss.1 && |ss.1| <= 1
      ensures 0.0 <= obsSpawnTimer <= ObstacleThreshold(level)
      ensures 0.0 <= starSpawnTimer <= STAR_THRESHOLD
    {
      var _ := SpawnObstacle(w, h, d.obstacle);
      var _ := SpawnStar(w, h, d.star);
    }

    /** The obstacle and star passes of a frame, at the current camera. */
    method RunPasses() returns (ghost o: ObstacleTally, ghost s: StarTally)
      modifies this`obstacles, this`stars, this`score, this`lives, this`gameOver
      ensures o == ObstaclePass(old(obstacles), ship.State().camX, ObstacleSpeed(level, velocityScale),
                                HitboxOf(ship.State()))
      ensures s == StarPass(old(stars), ship.State().camX, HitboxOf(ship.State()))
      ensures obstacles == o.kept && stars == s.kept
      ensures score == old(score) + 20 * o.passed + 100 * s.collected
      ensures lives == old(lives) - o.hits
      ensures gameOver == (old(gameOver) || (o.hits > 0 && lives <= 0))
    {
      var hitbox := Hitbox(ship.shipScreenX, ship.screenY, ship.halfW, ship.halfH);
      var obsSpeed := ObstacleSpeed(level, velocityScale);
      o := ObstaclePass(obstacles, ship.camX, obsSpeed, hitbox);
      s := StarPass(stars, ship.camX, hitbox);
      obstacles, score, lives, gameOver := FilterObstacles(obstacles, ship.camX, obsSpeed, hitbox, score, lives, gameOver);
      stars, score := FilterStars(stars, ship.camX, hitbox, score);
    }

    /** The obstacle clock: grows by 0.8 of the velocity scale and, past the
        level's threshold, spawns one obstacle beyond the right edge. */
    method SpawnObstacle(w: real, h: real, r: (real, real, real, real)) returns (fired: bool)
      requires Unit(r.0) && Unit(r.1) && Unit(r.2) && Unit(r.3)
      modifies this`obsSpawnTimer, this`obstacles
      ensures (obsSpawnTimer, fired) == SpawnClock(old(obsSpawnTimer), 0.8 * velocityScale, ObstacleThreshold(level))
      ensures obstacles == old(obstacles)
        + if fired then [NewObstacle(ObstacleSpawnX(ship.camX, w, r.0), r.1, r.2, r.3, GAME_SCALE, h)] else []
      ensures var c := ObstacleSpawn(old(obsSpawnTimer), velocityScale, level, ship.State().camX, w, h, r);
        obsSpawnTimer == c.0 && obstacles == old(obstacles) + c.1
    {
      obsSpawnTimer := obsSpawnTimer + 0.8 * velocityScale;
      var spawnRate := Max(35.0 - (level as real) * 3.5, 15.0);
      fired := obsSpawnTimer > spawnRate;
      if fired {
        var spawnX := ship.camX + w + (r.0 * 100.0 + 50.0);
        obstacles := obstacles + [NewObstacle(spawnX, r.1, r.2, r.3, GAME_SCALE, h)];
        obsSpawnTimer := 0.0;
      }
    }

    /** The star clock: grows by the velocity scale and, past 70, spawns one
        star beyond the right edge. */
    method SpawnStar(w: real, h: real, r: (real, real, real, real)) returns (fired: bool)
      requires Unit(r.0) && Unit(r.1) && Unit(r.2) && Unit(r.3) && 0.0 < velocityScale
      modifies this`starSpawnTimer, this`stars
      ensures (starSpawnTimer, fired) == SpawnClock(old(starSpawnTimer), 1.0 * velocityScale, STAR_THRESHOLD)
      ensures stars == old(stars)
        + if fired then [NewStar(StarSpawnX(ship.camX, w, r.0), r.1, r.2, r.3, GAME_SCALE, velocityScale, h)] else []
      ensures var c := StarSpawn(old(starSpawnTimer), velocityScale, ship.State().camX, w, h, r);
        starSpawnTimer == c.0 && stars == old(stars) + c.1
    {
      starSpawnTimer := starSpawnTimer + 1.0 * velocityScale;
      fired := starSpawnTimer > STAR_THRESHOLD;
      if fired {
        var spawnX := ship.camX + w + (r.0 * 300.0 + 100.0);
        stars := stars + [NewStar(spawnX, r.1, r.2, r.3, GAME_SCALE, velocityScale, h)];
        starSpawnTimer := 0.0;
      }
    }
  }

  /** A frame run once the game is over or won drops the level to 1, but
      the velocity scale stays at 0.71, the level-3 scale. `Game.Reset` keeps
      the scale as it is, so a restart after it plays level 1 at 0.71. */
  method SettlesAfterGameOver(g: Game, w: real, h: real, cosA: real, sinA: real, d: FrameDraws)
    requires g.Valid() && g.running && (g.gameOver || g.win) && 0.0 <= w && 0.0 <= h && FrameDrawsOk(d)
    requires -1.0 <= cosA <= 1.0 && -1.0 <= sinA <= 1.0
    modifies g, g.ship, g.bgStars
    ensures g.velocityScale == 0.71 && g.level == 1
  {
    ghost var _ := g.Tick(w, h, cosA, sinA, d);
  }

  /** What the session invariant guarantees: the level is one of the
      game's, the score has earned it, and the velocity scale lies within
      the game's range. */
  lemma ValidBounds(g: Game)
    requires g.Valid()
    ensures 1 <= g.level <= MAX_LEVEL && 1500 * (g.level - 1) <= g.score
    ensures 0.41 <= g.velocityScale <= 0.71
    ensures g.gameOver || g.win ==> g.level == 1
  {
  }
}
