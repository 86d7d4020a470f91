/** The arithmetic of the tilt/depth variant (jquery.accelero.js): input
    selection, orientation normalisation, and the per-layer rotation,
    translation, transform choice and recentring formulas. Layer `i` is the
    0-based position in the (optionally reversed) layer list. */
module Tilt {
  import opened Common

  datatype TiltOptions = TiltOptions(
    controlMethod: ControlMethod,
    enableMove: bool,
    enableRotate: bool,
    invertLayerStack: bool,
    invertMoveX: bool,
    invertMoveY: bool,
    invertRotateX: bool,
    invertRotateY: bool,
    maxAngle: real,
    speed: real)

  const Defaults := TiltOptions(Auto, true, true, false, false, false, false, false, 3.0, 0.2)

  // ---------------------------------------------------------------- input

  datatype InputSource = OrientationInput | PointerInput | NoInput

  /** The test shared by `init` (which subscribes) and `track` (which reads):
      orientation first, then mouse/touch. */
  function SelectInput(caps: Capabilities, control: ControlMethod): (r: InputSource)
    ensures r == OrientationInput ==> caps.orientation && control in {Auto, OrientationControl}
    ensures r == PointerInput ==> (caps.touch || caps.mouse) && control in {Auto, TouchControl}
    ensures caps.orientation && control in {Auto, OrientationControl} ==> r == OrientationInput
    ensures !caps.orientation && (caps.touch || caps.mouse) && control == Auto ==> r == PointerInput
    ensures control == TouchControl ==> r == (if caps.touch || caps.mouse then PointerInput else NoInput)
    ensures control !in {Auto, OrientationControl, TouchControl} ==> r == NoInput
  {
    if caps.orientation && (control == Auto || control == OrientationControl) then OrientationInput
    else if (caps.touch || caps.mouse) && (control == Auto || control == TouchControl) then PointerInput
    else NoInput
  }

  // ------------------------------------------------- orientation handling

  /** The three flags `track` derives from `window.orientation`. */
  datatype TrackFlags = TrackFlags(landscape: bool, reverse: bool, upsideDown: bool)

  function FlagsOf(o: Orientation): TrackFlags {
    match o
    case Undefined => TrackFlags(true, false, false)
    case Angle(a) => TrackFlags(a == 90 || a == -90, a == 90 || a == -90, a == -90)
  }

  /** The centre offsets `track` derives from the orientation sensor values
      `ax` (gamma * 5) and `ay` (beta * 7), written with the source's branches. */
  function NormaliseOrientation(o: Orientation, ax: real, ay: real): (real, real) {
    var f := FlagsOf(o);
    if f.reverse then (ay, if f.upsideDown then -ax else ax)
    else (ax, if f.upsideDown then -ay else ay)
  }

  /** Only 90 and -90 swap the axes, only -90 negates, and every other angle
      (undefined included) passes `(ax, ay)` through: the upside-down negation
      of the non-swapping branch never applies. */
  lemma NormaliseOrientationTable(o: Orientation, ax: real, ay: real)
    ensures NormaliseOrientation(o, ax, ay) ==
      if o == Angle(90) then (ay, ax)
      else if o == Angle(-90) then (ay, -ax)
      else (ax, ay)
    ensures FlagsOf(o).upsideDown ==> FlagsOf(o).reverse
  {
  }

  // ------------------------------------------------------------- rotation

  function Abs(r: real): real {
    if r < 0.0 then -r else r
  }

  /** `rotateX` for layer `i`, with the source's four branches. */
  function RotateX(invert: bool, maxAngle: real, i: nat, offset: real, center: real): real
    requires center != 0.0
  {
    var scale := maxAngle * (i + 1) as real;
    if invert then
      (if offset > 0.0 then -scale * (offset / center) else scale * (Abs(offset) / center))
    else
      (if offset > 0.0 then scale * (offset / center) else -scale * (Abs(offset) / center))
  }

  /** `rotateY` for layer `i`, with the source's four branches. */
  function RotateY(invert: bool, maxAngle: real, i: nat, offset: real, center: real): real
    requires center != 0.0
  {
    var scale := maxAngle * (i + 1) as real;
    if invert then
      (if offset > 0.0 then scale * (offset / center) else -scale * (Abs(offset) / center))
    else
      (if offset > 0.0 then -scale * (offset / center) else scale * (Abs(offset) / center))
  }

  /** The sign of the offset does not matter: both branches give
      `maxAngle * (i+1) * offset / center`, negated exactly when inverted. */
  lemma RotateXLinear(invert: bool, maxAngle: real, i: nat, offset: real, center: real)
    requires center != 0.0
    ensures RotateX(invert, maxAngle, i, offset, center)
         == (if invert then -1.0 else 1.0) * (maxAngle * (i + 1) as real) * (offset / center)
  {
    var scale := maxAngle * (i + 1) as real;
    if offset <= 0.0 {
      assert Abs(offset) / center == -(offset / center);
    }
  }

  /** The Y rotation has the opposite default sign, and a zero offset never rotates. */
  lemma RotateYLinear(invert: bool, maxAngle: real, i: nat, offset: real, center: real)
    requires center != 0.0
    ensures RotateY(invert, maxAngle, i, offset, center)
         == (if invert then 1.0 else -1.0) * (maxAngle * (i + 1) as real) * (offset / center)
    ensures RotateY(invert, maxAngle, i, offset, center) == -RotateX(invert, maxAngle, i, offset, center)
    ensures offset == 0.0 ==> RotateY(invert, maxAngle, i, offset, center) == 0.0
  {
    var scale := maxAngle * (i + 1) as real;
    if offset <= 0.0 {
      assert Abs(offset) / center == -(offset / center);
    }
    RotateXLinear(invert, maxAngle, i, offset, center);
  }

  // ---------------------------------------------------------- translation

  /** `translateX`/`translateY` for layer `i` of `layerCount`. The layer list
      and the count come from the same selector, so `i < layerCount`. */
  function Translate(invert: bool, offset: real, layerCount: nat, i: nat, speed: real): real
    requires i < layerCount
  {
    var divisor := (layerCount - i) as real;
    if invert then -((offset / divisor) * speed) else (offset / divisor) * speed
  }

  /** The divisor is at least 1, so no layer moves further than
      `offset * speed`; the last layer moves exactly that far, the first layer
      `1/layerCount` of it; inverting negates. */
  lemma TranslateBounds(invert: bool, offset: real, layerCount: nat, i: nat, speed: real)
    requires i < layerCount
    ensures layerCount - i >= 1
    ensures Abs(Translate(invert, offset, layerCount, i, speed)) <= Abs(offset * speed)
    ensures Translate(true, offset, layerCount, i, speed) == -Translate(false, offset, layerCount, i, speed)
    ensures i == layerCount - 1 ==> Translate(false, offset, layerCount, i, speed) == offset * speed
    ensures Translate(false, offset, layerCount, i, speed) * (layerCount - i) as real == offset * speed
  {
    var d := (layerCount - i) as real;
    var t := (offset / d) * speed;
    var p := offset * speed;
    assert t * d == p;
    var a := Abs(t);
    var b := Abs(p);
    assert a * d == b by {
      if t < 0.0 { assert p < 0.0; } else { assert p >= 0.0; }
    }
    assert a * d - a == a * (d - 1.0);
    assert a >= 0.0 && d - 1.0 >= 0.0;
    ProductOfNonNegatives(a, d - 1.0);
    assert a <= b;
    assert Abs(Translate(invert, offset, layerCount, i, speed)) == a;
  }

  lemma ProductOfNonNegatives(x: real, y: real)
    requires x >= 0.0 && y >= 0.0
    ensures x * y >= 0.0
  {
  }

  // ------------------------------------------------------ transform choice

  /** The components of the CSS `transform` written for a layer. `rotate` holds
      the values of the CSS `rotateX(...)` and `rotateY(...)` slots, in that
      order; `perspective` is `perspective(600px)`. */
  datatype Transform = Transform(perspective: bool, rotate: Option<(real, real)>, translate: Option<(real, real)>)

  /** The CSS object `move` passes to `.css`: `transformOrigin` is the
      `transform-origin: 50% 50%` entry, `transform` is absent when `None`. */
  datatype Css = Css(transformOrigin: bool, transform: Option<Transform>, zIndex: int)

  /** The `switch (true)` of `move`. */
  function StyleFor(o: TiltOptions, i: nat, rotateX: real, rotateY: real, translateX: real, translateY: real): Css {
    if o.enableMove && o.enableRotate then
      Css(true, Some(Transform(true, Some((rotateY, rotateX)), Some((translateX, translateY)))), (i + 1) * 10)
    else if o.enableMove then
      Css(false, Some(Transform(false, None, Some((translateX, translateY)))), (i + 1) * 10)
    else if o.enableRotate then
      Css(true, Some(Transform(true, Some((rotateY, rotateX)), None)), (i + 1) * 10)
    else
      Css(false, None, (i + 1) * 10)
  }

  /** Which components are written depends only on the two enable flags: the
      origin and perspective come with rotation, translation with movement, a
      disabled effect is omitted rather than zeroed, and with neither only the
      z-index `(i+1)*10` is written. The CSS `rotateX` slot carries the computed
      `rotateY` and vice versa. */
  lemma StyleComponents(o: TiltOptions, i: nat, rx: real, ry: real, tx: real, ty: real)
    ensures StyleFor(o, i, rx, ry, tx, ty).zIndex == (i + 1) * 10
    ensures StyleFor(o, i, rx, ry, tx, ty).transformOrigin <==> o.enableRotate
    ensures StyleFor(o, i, rx, ry, tx, ty).transform.None? <==> !o.enableMove && !o.enableRotate
    ensures StyleFor(o, i, rx, ry, tx, ty).transform.Some? ==>
      var t := StyleFor(o, i, rx, ry, tx, ty).transform.value;
      && (t.perspective <==> o.enableRotate)
      && (t.rotate == if o.enableRotate then Some((ry, rx)) else None)
      && (t.translate == if o.enableMove then Some((tx, ty)) else None)
  {
  }

  /** With the default options every layer gets the full transform: origin,
      perspective, both rotations and both translations. */
  lemma DefaultsStyle(i: nat, rx: real, ry: real, tx: real, ty: real)
    ensures StyleFor(Defaults, i, rx, ry, tx, ty)
         == Css(true, Some(Transform(true, Some((ry, rx)), Some((tx, ty)))), (i + 1) * 10)
  {
  }

  // ------------------------------------------------------------ recentring

  /** The `left` (or `top`) offset `resize` writes for a layer of the given size
      inside a container of the given size. */
  function RecentreOffset(layerSize: real, containerSize: real): real {
    -((layerSize - containerSize) / 2.0)
  }

  /** The offset puts the layer's centre on the container's centre. */
  lemma RecentreCentres(layerSize: real, containerSize: real)
    ensures RecentreOffset(layerSize, containerSize) + layerSize / 2.0 == containerSize / 2.0
    ensures layerSize >= containerSize ==> RecentreOffset(layerSize, containerSize) <= 0.0
  {
  }

  // ---------------------------------------------------------- layer order

  /** The layer list built in `init`: the child `div`s (without `.ignore`) as
      they are in the HTML when `invertLayerStack` is set, reversed otherwise. */
  function LayerOrder<T>(children: seq<T>, invertLayerStack: bool): (r: seq<T>)
    ensures |r| == |children|
    ensures forall i :: 0 <= i < |r| ==> r[i] == children[if invertLayerStack then i else |children| - 1 - i]
  {
    if invertLayerStack then children
    else seq(|children|, i requires 0 <= i < |children| => children[|children| - 1 - i])
  }
}
