/** Ship kinematics: one frame of the ship's physics (rotation, thrust,
    gravity, drag, speed clamp, integration, camera, wall and floor bounces).
    Positions and velocities are reals; cos/sin of the ship's angle are
    supplied by the caller, since the properties here are bounds, not
    trigonometry. */
module Kinematics {

  /** -pi/2 (pointing up), to double precision. */
  const INITIAL_ANGLE: real := -1.5707963267948966

  function Min(a: real, b: real): real { if a <= b then a else b }
  function Max(a: real, b: real): real { if a >= b then a else b }
  function Abs(x: real): real { if x < 0.0 then -x else x }

  /** The arrow keys held during a frame. */
  datatype Keys = Keys(left: bool, right: bool, up: bool)

  /** The ship's whole state, as a value. */
  datatype ShipState = ShipState(
    worldX: real, screenY: real, camX: real, shipScreenX: real,
    angle: real, vx: real, vy: real, thrusting: bool,
    halfW: real, halfH: real)

  /** The ship as built at the start of a game in a `w` x `h` viewport; its
      half-extents are 35 units of the game's visual scale. */
  function InitialShip(w: real, h: real, gameScale: real): (s: ShipState)
    ensures s.vx == 0.0 && s.vy == 0.0 && !s.thrusting
    ensures s.worldX == w / 2.0 && s.screenY == h / 2.0
    ensures s.halfW == s.halfH == 35.0 * gameScale
  {
    ShipState(w / 2.0, h / 2.0, 0.0, 0.0, INITIAL_ANGLE, 0.0, 0.0, false,
              35.0 * gameScale, 35.0 * gameScale)
  }

  /** `Math.max(-m, Math.min(m, v))`: the speed clamp on one axis. */
  function Clamp(v: real, m: real): (r: real)
    requires 0.0 <= m
    ensures -m <= r <= m
    ensures -m <= v <= m ==> r == v
    ensures v > m ==> r == m
    ensures v < -m ==> r == -m
  {
    Max(-m, Min(m, v))
  }

  /** The angle after the rotation keys: left turns by -0.1, right by +0.1. */
  function Steer(angle: real, keys: Keys): (a: real)
    ensures keys.left && !keys.right ==> a == angle - 0.1
    ensures keys.right && !keys.left ==> a == angle + 0.1
    ensures keys.left == keys.right ==> a == angle
  {
    var a1 := if keys.left then angle - 0.1 else angle;
    if keys.right then a1 + 0.1 else a1
  }

  /** The velocity after thrust, gravity, drag and the speed clamp.
      `cosA`/`sinA` are the cosine and sine of the steered angle. */
  function Accelerate(vx: real, vy: real, thrust: bool, cosA: real, sinA: real, vs: real): (v: (real, real))
    requires 0.0 <= vs
    ensures -15.0 * vs <= v.0 <= 15.0 * vs && -15.0 * vs <= v.1 <= 15.0 * vs
  {
    var tx := if thrust then vx + cosA * 0.5 else vx;
    var ty := if thrust then vy + sinA * 0.5 else vy;
    var gy := ty + 0.18;
    var maxSpeed := 15.0 * vs;
    (Clamp(tx * 0.991, maxSpeed), Clamp(gy * 0.991, maxSpeed))
  }

  /** The camera for a ship at world position `x` in a viewport `w` wide:
      the ship stays centred except near the world's left end. */
  function Camera(x: real, w: real): (c: (real, real))
    ensures c.0 >= 0.0
    ensures c.0 + c.1 == x
    ensures c.1 <= w / 2.0
    ensures c.0 > 0.0 ==> c.1 == w / 2.0
  {
    var camX := Max(0.0, x - w / 2.0);
    (camX, x - camX)
  }

  /** One frame of ship physics. The wall bounces test the screen X computed
      before the bounce and rewrite `worldX` without recomputing the camera,
      so after a bounce `worldX` no longer equals `camX + shipScreenX`. */
  function Step(s: ShipState, keys: Keys, cosA: real, sinA: real, vs: real, w: real, h: real): (r: ShipState)
    requires 0.0 <= vs
    ensures r.halfW == s.halfW && r.halfH == s.halfH
    ensures r.thrusting == keys.up
    ensures r.angle == Steer(s.angle, keys)
    ensures -15.0 * vs <= r.vx <= 15.0 * vs && -15.0 * vs <= r.vy <= 15.0 * vs
    ensures r.screenY <= h - s.halfH
    ensures r.camX >= 0.0 && r.shipScreenX <= w / 2.0
    ensures r.camX > 0.0 ==> r.shipScreenX == w / 2.0
    ensures r.camX + r.shipScreenX == s.worldX + Accelerate(s.vx, s.vy, keys.up, cosA, sinA, vs).0
    ensures s.halfW <= r.shipScreenX <= w - s.halfW ==> r.worldX == r.camX + r.shipScreenX
    ensures r.shipScreenX > w - s.halfW ==> r.worldX == r.camX + (w - s.halfW)
    ensures r.shipScreenX < s.halfW && r.shipScreenX <= w - s.halfW ==> r.worldX == r.camX + s.halfW
  {
    var v := Accelerate(s.vx, s.vy, keys.up, cosA, sinA, vs);
    var cam := Camera(s.worldX + v.0, w);
    var wall := BounceWalls(s.worldX + v.0, v.0, cam, s.halfW, w);
    var floor := BounceFloor(s.screenY + v.1, v.1, s.halfH, h);
    ShipState(wall.0, floor.0, cam.0, cam.1, Steer(s.angle, keys), wall.1, floor.1, keys.up, s.halfW, s.halfH)
  }

  /** The left and right wall bounces, both tested against the screen X
      `cam.1` computed before either bounce; returns the new world X and vx. */
  function BounceWalls(x: real, vx: real, cam: (real, real), halfW: real, w: real): (r: (real, real))
    ensures -Abs(vx) <= r.1 <= Abs(vx)
    ensures halfW <= cam.1 <= w - halfW ==> r == (x, vx)
    ensures cam.1 > w - halfW ==> r.0 == cam.0 + (w - halfW)
    ensures cam.1 < halfW && cam.1 <= w - halfW ==> r.0 == cam.0 + halfW
    // a single wall reverses the horizontal speed at 40% of its size, whichever way it pointed
    ensures cam.1 < halfW && cam.1 <= w - halfW ==> Abs(r.1) == 0.4 * Abs(vx) && r.1 * vx <= 0.0
    ensures cam.1 > w - halfW && cam.1 >= halfW ==> Abs(r.1) == 0.4 * Abs(vx) && r.1 * vx <= 0.0
    // a screen narrower than the ship fires both bounces, and the two reversals cancel
    ensures cam.1 < halfW && cam.1 > w - halfW ==> r.1 == 0.16 * vx
  {
    var x1 := if cam.1 < halfW then cam.0 + halfW else x;
    var vx1 := if cam.1 < halfW then vx * (-0.4) else vx;
    if cam.1 > w - halfW then (cam.0 + (w - halfW), vx1 * (-0.4)) else (x1, vx1)
  }

  /** The floor bounce; returns the new screen Y and vy. */
  function BounceFloor(y: real, vy: real, halfH: real, h: real): (r: (real, real))
    ensures r.0 <= h - halfH
    ensures -Abs(vy) <= r.1 <= Abs(vy)
    ensures y <= h - halfH ==> r == (y, vy)
    // below the floor: snapped onto it, the vertical speed reversed at 30% of its size
    ensures y > h - halfH ==> r.0 == h - halfH && Abs(r.1) == 0.3 * Abs(vy) && r.1 * vy <= 0.0
  {
    if y > h - halfH then (h - halfH, vy * (-0.3)) else (y, vy)
  }

  /** Proof step for `Ship.Update`: the four in-place stages, named by their
      intermediate results, compose to `Step`. */
  lemma StepStages(s: ShipState, keys: Keys, cosA: real, sinA: real, vs: real, w: real, h: real,
                   acc: (real, real), cam: (real, real), wall: (real, real), floor: (real, real))
    requires 0.0 <= vs
    requires acc == Accelerate(s.vx, s.vy, keys.up, cosA, sinA, vs)
    requires cam == Camera(s.worldX + acc.0, w)
    requires wall == BounceWalls(s.worldX + acc.0, acc.0, cam, s.halfW, w)
    requires floor == BounceFloor(s.screenY + acc.1, acc.1, s.halfH, h)
    ensures Step(s, keys, cosA, sinA, vs, w, h)
         == ShipState(wall.0, floor.0, cam.0, cam.1, Steer(s.angle, keys), wall.1, floor.1, keys.up, s.halfW, s.halfH)
  {
  }

  /** The ship as a mutable object, updated in place once per frame. */
  class Ship {
    var worldX: real
    var screenY: real
    var camX: real
    var shipScreenX: real
    var angle: real
    var vx: real
    var vy: real
    var thrusting: bool
    const halfW: real
    const halfH: real

    function State(): ShipState
      reads this
    {
      ShipState(worldX, screenY, camX, shipScreenX, angle, vx, vy, thrusting, halfW, halfH)
    }

    constructor (w: real, h: real, gameScale: real)
      ensures State() == InitialShip(w, h, gameScale)
    {
      worldX := w / 2.0;
      screenY := h / 2.0;
      camX := 0.0;
      shipScreenX := 0.0;
      angle := INITIAL_ANGLE;
      vx := 0.0;
      vy := 0.0;
      thrusting := false;
      halfW := 35.0 * gameScale;
      halfH := 35.0 * gameScale;
    }

    /** One frame of physics (`Ship.update`); `vs` is the global velocity
        scale and `w` x `h` the viewport. The stages run in the source's
        order, each as a method of its own below. */
    method Update(keys: Keys, cosA: real, sinA: real, vs: real, w: real, h: real)
      requires -1.0 <= cosA <= 1.0 && -1.0 <= sinA <= 1.0
      requires 0.0 <= vs
      modifies this
      ensures State() == Step(old(State()), keys, cosA, sinA, vs, w, h)
      ensures -15.0 * vs <= vx <= 15.0 * vs && -15.0 * vs <= vy <= 15.0 * vs
      ensures screenY <= h - halfH && camX >= 0.0
    {
      ghost var s0 := State();
      Rotate(keys);
      ApplyForces(keys.up, cosA, sinA, vs);
      ghost var acc := (vx, vy);
      Integrate(w);
      ghost var cam := (camX, shipScreenX);
      BounceOffWalls(w);
      BounceOffFloor(h);
      StepStages(s0, keys, cosA, sinA, vs, w, h, acc, cam, (worldX, vx), (screenY, vy));
    }

    /** Left turns by 0.1, right by 0.1 the other way. */
    method Rotate(keys: Keys)
      modifies this`angle
      ensures angle == Steer(old(angle), keys)
    {
      if keys.left { angle := angle - 0.1; }
      if keys.right { angle := angle + 0.1; }
    }

    /** Thrust, gravity, drag and the speed clamp. */
    method ApplyForces(up: bool, cosA: real, sinA: real, vs: real)
      requires 0.0 <= vs
      modifies this`vx, this`vy, this`thrusting
      ensures (vx, vy) == Accelerate(old(vx), old(vy), up, cosA, sinA, vs)
      ensures thrusting == up
    {
      if up {
        vx := vx + cosA * 0.5;
        vy := vy + sinA * 0.5;
        thrusting := true;
      } else {
        thrusting := false;
      }

      vy := vy + 0.18;
      vx := vx * 0.991;
      vy := vy * 0.991;

      var maxSpeed := 15.0 * vs;
      vx := Max(-maxSpeed, Min(maxSpeed, vx));
      vy := Max(-maxSpeed, Min(maxSpeed, vy));
    }

    /** Moves by the velocity and recomputes the camera. */
    method Integrate(w: real)
      modifies this`worldX, this`screenY, this`camX, this`shipScreenX
      ensures worldX == old(worldX) + vx && screenY == old(screenY) + vy
      ensures (camX, shipScreenX) == Camera(worldX, w)
    {
      worldX := worldX + vx;
      screenY := screenY + vy;

      camX := Max(0.0, worldX - w / 2.0);
      shipScreenX := worldX - camX;
    }

    /** Both wall tests read the screen X computed by `Integrate`. */
    method BounceOffWalls(w: real)
      modifies this`worldX, this`vx
      ensures (worldX, vx) == BounceWalls(old(worldX), old(vx), (camX, shipScreenX), halfW, w)
    {
      if shipScreenX < halfW {
        worldX := camX + halfW;
        vx := vx * (-0.4);
      }
      if shipScreenX > w - halfW {
        worldX := camX + (w - halfW);
        vx := vx * (-0.4);
      }
    }

    method BounceOffFloor(h: real)
      modifies this`screenY, this`vy
      ensures (screenY, vy) == BounceFloor(old(screenY), old(vy), halfH, h)
    {
      if screenY > h - halfH {
        screenY := h - halfH;
        vy := vy * (-0.3);
      }
    }
  }
}
