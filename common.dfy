/** Values shared by both variants of the accelero plugin: the browser inputs
    they read and the two JavaScript rounding primitives they use. Numbers are
    exact reals; IEEE-754 rounding is not modelled. */
module Common {

  datatype Option<T> = None | Some(value: T)

  /** `window.orientation`: undefined on desktop browsers, otherwise the screen
      rotation angle in degrees (0, 90, -90 or 180 in practice). */
  datatype Orientation = Undefined | Angle(degrees: int)

  /** The `controlMethod` option. Any string other than the five the plugins
      compare against is `Unrecognised`. */
  datatype ControlMethod =
    | Auto
    | OrientationControl
    | TouchControl
    | MotionControl
    | MouseControl
    | Unrecognised

  /** Feature detection done when a plugin is attached: `DeviceMotionEvent`,
      `DeviceOrientationEvent`, touch and `onmousemove` support. */
  datatype Capabilities = Capabilities(motion: bool, orientation: bool, touch: bool, mouse: bool)

  /** The width and height of an element, as jQuery's `width()`/`height()` report them. */
  datatype Size = Size(width: real, height: real)

  predicate IsIntegral(r: real) {
    r == r.Floor as real
  }

  /** `Math.ceil`: the least integer not below `r`. */
  function Ceil(r: real): (n: int)
    ensures r <= n as real < r + 1.0
  {
    var f := (-r).Floor;
    assert f as real <= -r < f as real + 1.0;
    -f
  }

  /** Rounding a whole number, up or toward zero, leaves it unchanged. */
  lemma RoundingIntegers(n: int)
    ensures IsIntegral(n as real)
    ensures Ceil(n as real) == n && Trunc(n as real) == n
  {
    FloorOfIntegral(n as real, n);
    FloorOfIntegral(-n as real, -n);
  }

  /** The floor of an integer-valued real is that integer. */
  lemma FloorOfIntegral(r: real, k: int)
    requires r == k as real
    ensures r.Floor == k
  {
  }

  /** `parseInt(r, 10)` applied to a number: truncation toward zero. */
  function Trunc(r: real): (n: int)
    ensures 0.0 <= r ==> n as real <= r < n as real + 1.0
    ensures r < 0.0 ==> n as real - 1.0 < r <= n as real
  {
    if r < 0.0 then Ceil(r) else r.Floor
  }
}
