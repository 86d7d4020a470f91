/** The arithmetic of the drifting-element variant (js/jquery.accelero.js):
    input selection, orientation flags, the per-tick velocity/position
    integrator with `Math.ceil` after every step, the bounding-box clamp with
    bounce and off-by-one snap, and the mouse smoothing. */
module Drift {
  import opened Common

  datatype DriftOptions = DriftOptions(
    speed: real,
    scale: real,
    gravityRatio: real,
    bounceRatio: real,
    controlMethod: ControlMethod)

  const Defaults := DriftOptions(1.0, 1.0, 0.98, 0.5, Auto)

  // ---------------------------------------------------------------- input

  datatype MotionSource = DeviceMotion | DeviceOrientation | MouseInput | NoSource

  /** The `if`/`else if` chain of `init`: motion, then orientation, then the
      mouse, which is taken without any capability test. */
  function SelectSource(caps: Capabilities, control: ControlMethod): (r: MotionSource)
    ensures r == DeviceMotion ==> caps.motion && control in {Auto, MotionControl}
    ensures r == DeviceOrientation ==> caps.orientation && control in {Auto, OrientationControl}
    ensures r == MouseInput ==> control in {Auto, MouseControl}
    ensures caps.motion && control in {Auto, MotionControl} ==> r == DeviceMotion
    ensures control == Auto && !caps.motion ==> r == (if caps.orientation then DeviceOrientation else MouseInput)
    ensures control == MouseControl ==> r == MouseInput
    ensures r == NoSource <==>
      (|| control !in {Auto, MotionControl, OrientationControl, MouseControl}
       || (control == MotionControl && !caps.motion)
       || (control == OrientationControl && !caps.orientation))
  {
    if caps.motion && (control == Auto || control == MotionControl) then DeviceMotion
    else if caps.orientation && (control == Auto || control == OrientationControl) then DeviceOrientation
    else if control == Auto || control == MouseControl then MouseInput
    else NoSource
  }

  // ---------------------------------------------------- orientation flags

  datatype DriftFlags = DriftFlags(landscape: bool, reverse: bool)

  /** The flags `_move` derives from `window.orientation`. */
  function OrientationFlags(o: Orientation): DriftFlags {
    match o
    case Undefined => DriftFlags(true, false)
    case Angle(a) => DriftFlags(a == 90 || a == -90, a == 90 || a == 180)
  }

  /** Undefined: landscape only; 90: landscape and reverse; -90: landscape
      only; 180: reverse only; 0 (and any other angle): neither. */
  lemma OrientationFlagsTable(o: Orientation)
    ensures OrientationFlags(Undefined) == DriftFlags(true, false)
    ensures OrientationFlags(Angle(90)) == DriftFlags(true, true)
    ensures OrientationFlags(Angle(-90)) == DriftFlags(true, false)
    ensures OrientationFlags(Angle(180)) == DriftFlags(false, true)
    ensures o.Angle? && o.degrees !in {90, -90, 180} ==> OrientationFlags(o) == DriftFlags(false, false)
  {
  }

  // ----------------------------------------------------------- integrator

  /** The motion record's integrated part. Velocities are always results of
      `Math.ceil`, hence integers; positions are real because the mouse handler
      moves them by fractions between ticks. */
  datatype Motion = Motion(x: real, y: real, vx: int, vy: int, maxX: real, maxY: real)

  const AtRest := Motion(0.0, 0.0, 0, 0, 0.0, 0.0)

  /** The velocity update `Math.ceil(v + accel * speed)`. */
  function Accelerated(v: int, accel: real, speed: real): int {
    Ceil(v as real + accel * speed)
  }

  /** Gravity damping `Math.ceil(v * gravityRatio)`. */
  function Damp(v: int, gravityRatio: real): int {
    Ceil(v as real * gravityRatio)
  }

  /** `Math.ceil(parseInt(p ± v / size, 10))`. */
  function Advance(p: real, v: int, size: real, reverse: bool): int
    requires size != 0.0
  {
    Ceil(Trunc(if reverse then p - v as real / size else p + v as real / size) as real)
  }

  /** The velocity after hitting a wall: `-Math.ceil(v * bounceRatio)`. */
  function Bounce(v: int, bounceRatio: real): int {
    -Ceil(v as real * bounceRatio)
  }

  /** `_boundingBoxCheck` on one axis: lower clamp, upper clamp (`>=`), then the
      snap from `max - 1` to `max`. */
  function CheckAxis(p: real, v: int, max: real, bounceRatio: real): (real, int) {
    var p1 := if p < 0.0 then 0.0 else p;
    var v1 := if p < 0.0 then Bounce(v, bounceRatio) else v;
    var p2 := if p1 >= max then max else p1;
    var v2 := if p1 >= max then Bounce(v1, bounceRatio) else v1;
    (if p2 == max - 1.0 then max else p2, v2)
  }

  /** One axis of `_move`: `v = ceil(v + accel * speed)`, damping, position
      advance, then the clamp. The axes never read each other's state. */
  function AxisTick(p: real, v: int, accel: real, o: DriftOptions, reverse: bool, size: real, max: real): (real, int)
    requires size != 0.0
  {
    var v1 := Damp(Accelerated(v, accel, o.speed), o.gravityRatio);
    CheckAxis(Advance(p, v1, size, reverse) as real, v1, max, o.bounceRatio)
  }

  /** `AxisTick` spelled out step by step, as `_move` performs it. */
  lemma AxisTickSteps(p: real, v: int, accel: real, o: DriftOptions, reverse: bool, size: real, max: real, vAcc: int, v1: int, p1: real)
    requires size != 0.0
    requires vAcc == Accelerated(v, accel, o.speed)
    requires v1 == Damp(vAcc, o.gravityRatio)
    requires p1 == Advance(p, v1, size, reverse) as real
    ensures AxisTick(p, v, accel, o, reverse, size, max) == CheckAxis(p1, v1, max, o.bounceRatio)
  {
  }

  /** One `_move`, for an element of size `element` inside a container of size
      `container`. In landscape `ay` drives x and `ax` drives y; otherwise `ax`
      drives x and `-ay` drives y. */
  function Integrate(m: Motion, ax: real, ay: real, o: DriftOptions, flags: DriftFlags, container: Size, element: Size): Motion
    requires element.width != 0.0 && element.height != 0.0
  {
    var maxX := container.width - element.width;
    var maxY := container.height - element.height;
    var (x, vx) := AxisTick(m.x, m.vx, if flags.landscape then ay else ax, o, flags.reverse, element.width, maxX);
    var (y, vy) := AxisTick(m.y, m.vy, if flags.landscape then ax else -ay, o, flags.reverse, element.height, maxY);
    Motion(x, y, vx, vy, maxX, maxY)
  }

  // ------------------------------------------------------- clamp properties

  /** With a non-negative extent the clamp keeps the position in `[0, max]`,
      and it never leaves the position at `max - 1`. */
  lemma CheckAxisBounds(p: real, v: int, max: real, bounceRatio: real)
    ensures max >= 0.0 ==> 0.0 <= CheckAxis(p, v, max, bounceRatio).0 <= max
    ensures CheckAxis(p, v, max, bounceRatio).0 != max - 1.0
    ensures IsIntegral(p) && IsIntegral(max) ==> IsIntegral(CheckAxis(p, v, max, bounceRatio).0)
  {
  }

  /** Every case of the clamp: inside and not at `max - 1` nothing changes; at
      `max - 1` only the position snaps; a single clamp reflects the velocity
      once (the upper test is `>=`, so sitting exactly on `max` reflects too);
      below zero with `max <= 0` both clamps fire and reflect twice. */
  lemma CheckAxisCases(p: real, v: int, max: real, b: real)
    ensures 0.0 <= p < max && p != max - 1.0 ==> CheckAxis(p, v, max, b) == (p, v)
    ensures 0.0 <= p < max && p == max - 1.0 ==> CheckAxis(p, v, max, b) == (max, v)
    ensures 0.0 <= p && max <= p ==> CheckAxis(p, v, max, b) == (max, Bounce(v, b))
    ensures p < 0.0 && 0.0 < max ==> CheckAxis(p, v, max, b) == (if max == 1.0 then 1.0 else 0.0, Bounce(v, b))
    ensures p < 0.0 && max <= 0.0 ==> CheckAxis(p, v, max, b) == (max, Bounce(Bounce(v, b), b))
  {
  }

  /** A bounce reverses the direction and, for a ratio in `[0, 1]`, does not
      speed the element up. */
  lemma BounceReverses(v: int, b: real)
    requires 0.0 <= b <= 1.0
    ensures v >= 0 ==> -v <= Bounce(v, b) <= 0
    ensures v <= 0 ==> 0 <= Bounce(v, b) <= -v
  {
    if v >= 0 {
      ProductBounds(v as real, b);
    } else {
      ProductBounds(-v as real, b);
      assert v as real * b == -((-v) as real * b);
    }
  }

  lemma ProductBounds(x: real, b: real)
    requires x >= 0.0 && 0.0 <= b <= 1.0
    ensures 0.0 <= x * b <= x
  {
    assert x - x * b == x * (1.0 - b);
    assert x * (1.0 - b) >= 0.0;
  }

  // ---------------------------------------------------- damping properties

  /** Damping with a ratio in `[0, 1]` never speeds the element up. Because the
      rounding is upward, a positive velocity with a positive ratio never drops
      below 1, while a negative one reaches 0: `Damp(1, 0.98) == 1` but
      `Damp(-1, 0.98) == 0`. */
  lemma DampBias(v: int, g: real)
    requires 0.0 <= g <= 1.0
    ensures v >= 0 ==> 0 <= Damp(v, g) <= v
    ensures v <= 0 ==> v <= Damp(v, g) <= 0
    ensures v > 0 && g > 0.0 ==> Damp(v, g) >= 1
  {
    if v >= 0 {
      ProductBounds(v as real, g);
    } else {
      ProductBounds(-v as real, g);
      assert v as real * g == -((-v) as real * g);
    }
    if v > 0 && g > 0.0 {
      assert v as real * g > 0.0;
    }
  }

  /** The upward rounding at work: a velocity of 1 survives damping by 0.98,
      a velocity of -1 does not. */
  lemma DampExample()
    ensures Damp(1, 0.98) == 1 && Damp(-1, 0.98) == 0
  {
    assert Ceil(0.98) == 1;
    assert Ceil(-0.98) == 0;
  }

  /** The position step is the exact step truncated toward zero: integral, less
      than 1 away from it, and no larger in magnitude. */
  lemma AdvanceRounding(p: real, v: int, size: real, reverse: bool)
    requires size != 0.0
    ensures var exact := if reverse then p - v as real / size else p + v as real / size;
      var n := Advance(p, v, size, reverse) as real;
      && (exact >= 0.0 ==> 0.0 <= n <= exact < n + 1.0)
      && (exact < 0.0 ==> n - 1.0 < exact <= n <= 0.0)
  {
    var exact := if reverse then p - v as real / size else p + v as real / size;
    var t := Trunc(exact);
    RoundingIntegers(t);
  }

  // ------------------------------------------------------ tick properties

  lemma AxisTickBounds(p: real, v: int, accel: real, o: DriftOptions, reverse: bool, size: real, max: real)
    requires size != 0.0
    ensures max >= 0.0 ==> 0.0 <= AxisTick(p, v, accel, o, reverse, size, max).0 <= max
    ensures AxisTick(p, v, accel, o, reverse, size, max).0 != max - 1.0
    ensures IsIntegral(max) ==> IsIntegral(AxisTick(p, v, accel, o, reverse, size, max).0)
  {
    var v1 := Damp(Accelerated(v, accel, o.speed), o.gravityRatio);
    var p1 := Advance(p, v1, size, reverse);
    RoundingIntegers(p1);
    CheckAxisBounds(p1 as real, v1, max, o.bounceRatio);
  }

  /** After a tick, a non-negative extent contains the position, the position
      is never one short of the extent, and with whole-pixel sizes the position
      is a whole number. The extents are container size minus element size. */
  lemma IntegrateBounds(m: Motion, ax: real, ay: real, o: DriftOptions, flags: DriftFlags, container: Size, element: Size)
    requires element.width != 0.0 && element.height != 0.0
    ensures var r := Integrate(m, ax, ay, o, flags, container, element);
      && r.maxX == container.width - element.width && r.maxY == container.height - element.height
      && (r.maxX >= 0.0 ==> 0.0 <= r.x <= r.maxX)
      && (r.maxY >= 0.0 ==> 0.0 <= r.y <= r.maxY)
      && r.x != r.maxX - 1.0 && r.y != r.maxY - 1.0
      && (IsIntegral(r.maxX) ==> IsIntegral(r.x))
      && (IsIntegral(r.maxY) ==> IsIntegral(r.y))
  {
    AxisTickBounds(m.x, m.vx, if flags.landscape then ay else ax, o, flags.reverse, element.width, container.width - element.width);
    AxisTickBounds(m.y, m.vy, if flags.landscape then ax else -ay, o, flags.reverse, element.height, container.height - element.height);
  }

  /** The axes do not interact: the new `x` and `vx` depend only on the old
      `x` and `vx` and on one acceleration, `ay` in landscape and `ax`
      otherwise; symmetrically for `y` and `vy`. */
  lemma IntegrateAxesIndependent(m: Motion, m': Motion, ax: real, ay: real, ax': real, ay': real, o: DriftOptions, flags: DriftFlags, container: Size, element: Size)
    requires element.width != 0.0 && element.height != 0.0
    ensures m.x == m'.x && m.vx == m'.vx && (if flags.landscape then ay == ay' else ax == ax') ==>
      var r := Integrate(m, ax, ay, o, flags, container, element);
      var r' := Integrate(m', ax', ay', o, flags, container, element);
      r.x == r'.x && r.vx == r'.vx
    ensures m.y == m'.y && m.vy == m'.vy && (if flags.landscape then ax == ax' else ay == ay') ==>
      var r := Integrate(m, ax, ay, o, flags, container, element);
      var r' := Integrate(m', ax', ay', o, flags, container, element);
      r.y == r'.y && r.vy == r'.vy
  {
  }

  /** The worked example of a tick from rest, portrait, `ax = ay = 1`,
      `speed = 1`, `gravityRatio = 0.98`: `vx = ceil(ceil(1) * 0.98) = 1` and
      `vy = ceil(ceil(-1) * 0.98) = 0`. */
  lemma TickFromRestExample()
    ensures var r := Integrate(AtRest, 1.0, 1.0, Defaults, OrientationFlags(Angle(0)), Size(1000.0, 1000.0), Size(10.0, 10.0));
      r.vx == 1 && r.vy == 0 && r.x == 0.0 && r.y == 0.0
  {
    assert Ceil(1.0) == 1 && Ceil(-1.0) == -1;
    assert Ceil(0.98) == 1;
    assert Ceil(-0.98) == 0;
    assert Trunc(0.1) == 0;
  }

  /** The worked bounce: at `max_x` with `vx = 10` and ratio 0.5, the position
      stays at `max_x` and the velocity becomes `-5`. */
  lemma BounceExample(max: real)
    requires max >= 0.0
    ensures CheckAxis(max, 10, max, 0.5) == (max, -5)
  {
    assert Ceil(5.0) == 5;
  }

  // ---------------------------------------------------------------- mouse

  /** The mouse handler's smoothing `x += (target - x) / (12 / speed)`, written
      as `x + (target - x) * speed / 12`, which is also what JavaScript computes
      for `speed == 0` (`12 / 0` is Infinity, so nothing is added). */
  function Smooth(x: real, target: real, speed: real): real {
    x + (target - x) * speed / 12.0
  }

  /** For a non-zero speed the two forms agree; with `0 <= speed <= 12` every
      step moves toward the target without overshooting it, reaching it at 12. */
  lemma SmoothApproaches(x: real, target: real, speed: real)
    ensures speed != 0.0 ==> Smooth(x, target, speed) == x + (target - x) / (12.0 / speed)
    ensures 0.0 <= speed <= 12.0 && x <= target ==> x <= Smooth(x, target, speed) <= target
    ensures 0.0 <= speed <= 12.0 && target <= x ==> target <= Smooth(x, target, speed) <= x
    ensures speed == 12.0 ==> Smooth(x, target, speed) == target
  {
    if 0.0 <= speed <= 12.0 {
      var k := speed / 12.0;
      assert Smooth(x, target, speed) == x + (target - x) * k;
      if x <= target {
        ProductBounds(target - x, k);
      } else {
        ProductBounds(x - target, k);
        assert (target - x) * k == -((x - target) * k);
      }
    }
  }

  // ---------------------------------------------------------------- scale

  /** The element size after `init`'s scaling: rounded up when `scale != 1`,
      unchanged otherwise. */
  function ScaledSize(s: Size, scale: real): (r: Size)
    ensures scale == 1.0 ==> r == s
    ensures scale != 1.0 ==> IsIntegral(r.width) && IsIntegral(r.height)
    ensures s.width * scale <= r.width < s.width * scale + 1.0
    ensures s.height * scale <= r.height < s.height * scale + 1.0
  {
    if scale != 1.0 then
      var w := Ceil(s.width * scale);
      var h := Ceil(s.height * scale);
      assert IsIntegral(w as real) by { RoundingIntegers(w); }
      assert IsIntegral(h as real) by { RoundingIntegers(h); }
      Size(w as real, h as real)
    else s
  }
}
