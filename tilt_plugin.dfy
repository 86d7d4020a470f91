/** The tilt/depth plugin object of jquery.accelero.js: its layer list, the
    `_accelero` tracking state, and the `resize`, `track` and `move` passes that
    update them layer by layer. DOM reads (sizes, offsets, `window.orientation`,
    event coordinates) are parameters. */
module TiltPlugin {
  import opened Common
  import opened Tilt

  /** Page coordinates of a mouse or touch event. */
  datatype PointerEvent = PointerEvent(pageX: real, pageY: real)

  /** The container's document offset and size, as read during an event. */
  datatype Box = Box(left: real, top: real, width: real, height: real)

  /** The `rotate-x`, `rotate-y`, `translate-x` and `translate-y` data
      annotations `move` writes on a layer. */
  datatype Frame = Frame(rotateX: real, rotateY: real, translateX: real, translateY: real)

  /** A layer element: its size as last read by `resize` (the plugin never
      writes it), the CSS properties the plugin writes, and its data annotations. `transformOrigin` records that
      `transform-origin: 50% 50%` has been written. */
  datatype Layer = Layer(
    size: Size,
    zIndex: int,
    left: real,
    top: real,
    layerData: int,
    frame: Option<Frame>,
    transformOrigin: bool,
    transform: Option<Transform>)

  /** A layer before the plugin has written anything to it. */
  function Unstyled(size: Size): Layer {
    Layer(size, 0, 0.0, 0.0, 0, None, false, None)
  }

  /** The part of `_accelero` that `track` updates. */
  datatype Tracking = Tracking(
    currentX: Option<real>,
    currentY: Option<real>,
    xdiff: real,
    ydiff: real,
    centerOffsetX: real,
    centerOffsetY: real)

  const Untracked := Tracking(None, None, 0.0, 0.0, 0.0, 0.0)

  // ------------------------------------------------------------- resize

  /** What `resize` writes on layer `i`. */
  function Recentred(l: Layer, i: nat, container: Size): Layer {
    l.(zIndex := i + 1,
       left := RecentreOffset(l.size.width, container.width),
       top := RecentreOffset(l.size.height, container.height),
       layerData := i + 1)
  }

  /** Recentring depends only on the sizes: the layer's centre lands on the
      container's centre, its stacking index is `i+1`, and a second resize with
      unchanged sizes changes nothing. */
  lemma RecentredFacts(l: Layer, i: nat, container: Size)
    ensures Recentred(l, i, container).zIndex == Recentred(l, i, container).layerData == i + 1
    ensures Recentred(l, i, container).left + l.size.width / 2.0 == container.width / 2.0
    ensures Recentred(l, i, container).top + l.size.height / 2.0 == container.height / 2.0
    ensures Recentred(Recentred(l, i, container), i, container) == Recentred(l, i, container)
    ensures Recentred(l, i, container).frame == l.frame && Recentred(l, i, container).transform == l.transform
  {
    RecentreCentres(l.size.width, container.width);
    RecentreCentres(l.size.height, container.height);
  }

  // -------------------------------------------------------------- track

  /** One call of `track` for the chosen input source. */
  function TrackStep(t: Tracking, input: InputSource, o: Orientation, ax: real, ay: real, evt: PointerEvent, box: Box): Tracking {
    match input
    case OrientationInput =>
      var offsets := NormaliseOrientation(o, ax, ay);
      t.(centerOffsetX := offsets.0, centerOffsetY := offsets.1)
    case PointerInput =>
      var lastX := if t.currentX.Some? then t.currentX.value else evt.pageX;
      var lastY := if t.currentY.Some? then t.currentY.value else evt.pageY;
      Tracking(Some(evt.pageX), Some(evt.pageY),
               evt.pageX - lastX, evt.pageY - lastY,
               evt.pageX - (box.left + box.width / 2.0),
               evt.pageY - (box.top + box.height / 2.0))
    case NoInput => t
  }

  /** `track` called `n` times with the same event, as `move` does, once per layer. */
  function TrackRepeat(t: Tracking, n: nat, input: InputSource, o: Orientation, ax: real, ay: real, evt: PointerEvent, box: Box): Tracking {
    if n == 0 then t else TrackStep(TrackRepeat(t, n - 1, input, o, ax, ay, evt, box), input, o, ax, ay, evt, box)
  }

  /** Mouse/touch tracking: the first event only records the position (a zero
      diff); later events report the distance from the previous position; the
      offsets are measured from the container's centre. */
  lemma TrackPointer(t: Tracking, o: Orientation, ax: real, ay: real, evt: PointerEvent, box: Box)
    ensures var r := TrackStep(t, PointerInput, o, ax, ay, evt, box);
      && r.currentX == Some(evt.pageX) && r.currentY == Some(evt.pageY)
      && r.xdiff == (if t.currentX.Some? then evt.pageX - t.currentX.value else 0.0)
      && r.ydiff == (if t.currentY.Some? then evt.pageY - t.currentY.value else 0.0)
      && r.centerOffsetX + box.left + box.width / 2.0 == evt.pageX
      && r.centerOffsetY + box.top + box.height / 2.0 == evt.pageY
  {
  }

  /** Orientation tracking sets only the offsets, from the normalised sensor values. */
  lemma TrackOrientation(t: Tracking, o: Orientation, ax: real, ay: real, evt: PointerEvent, box: Box)
    ensures var r := TrackStep(t, OrientationInput, o, ax, ay, evt, box);
      && (r.centerOffsetX, r.centerOffsetY) == NormaliseOrientation(o, ax, ay)
      && r.currentX == t.currentX && r.currentY == t.currentY
      && r.xdiff == t.xdiff && r.ydiff == t.ydiff
  {
  }

  /** Once `track` has seen an event, seeing it again leaves the offsets and
      positions as they are and zeroes the diffs: with several layers, only the
      first layer's call observes the pointer's movement. */
  lemma TrackAgain(t: Tracking, input: InputSource, o: Orientation, ax: real, ay: real, evt: PointerEvent, box: Box)
    ensures var once := TrackStep(t, input, o, ax, ay, evt, box);
      var twice := TrackStep(once, input, o, ax, ay, evt, box);
      && twice.centerOffsetX == once.centerOffsetX && twice.centerOffsetY == once.centerOffsetY
      && twice.currentX == once.currentX && twice.currentY == once.currentY
      && (input == PointerInput ==> twice.xdiff == 0.0 && twice.ydiff == 0.0)
      && TrackStep(twice, input, o, ax, ay, evt, box) == twice
  {
  }

  /** After `n >= 1` calls with one event, the state is that of one call, except
      that from the second call on the pointer diffs are zero. */
  lemma {:induction false} TrackRepeatSettles(t: Tracking, n: nat, input: InputSource, o: Orientation, ax: real, ay: real, evt: PointerEvent, box: Box)
    requires n >= 1
    ensures var once := TrackStep(t, input, o, ax, ay, evt, box);
      TrackRepeat(t, n, input, o, ax, ay, evt, box)
        == if n == 1 then once else TrackStep(once, input, o, ax, ay, evt, box)
  {
    var once := TrackStep(t, input, o, ax, ay, evt, box);
    assert TrackRepeat(t, 1, input, o, ax, ay, evt, box) == once;
    if n > 2 {
      TrackRepeatSettles(t, n - 1, input, o, ax, ay, evt, box);
      TrackAgain(t, input, o, ax, ay, evt, box);
    }
  }

  // --------------------------------------------------------------- move

  /** What `move` writes on layer `i` of `layerCount`, given the centre offsets
      and the centre distances recorded by the last `resize`. */
  function Moved(l: Layer, i: nat, layerCount: nat, o: TiltOptions, offsetX: real, offsetY: real, centerX: real, centerY: real): Layer
    requires i < layerCount && centerX != 0.0 && centerY != 0.0
  {
    var rx := RotateX(o.invertRotateX, o.maxAngle, i, offsetX, centerX);
    var ry := RotateY(o.invertRotateY, o.maxAngle, i, offsetY, centerY);
    var tx := Translate(o.invertMoveX, offsetX, layerCount, i, o.speed);
    var ty := Translate(o.invertMoveY, offsetY, layerCount, i, o.speed);
    var css := StyleFor(o, i, rx, ry, tx, ty);
    l.(zIndex := css.zIndex,
       layerData := (i + 1) * 10,
       frame := Some(Frame(rx, ry, tx, ty)),
       transformOrigin := l.transformOrigin || css.transformOrigin,
       transform := if css.transform.Some? then css.transform else l.transform)
  }

  /** After `move`, layer `i` stacks at `(i+1)*10` whatever the enable flags,
      its annotations carry the signed linear rotation and translation values,
      its position and size are untouched, and moving again with the same
      offsets changes nothing. */
  lemma MovedFacts(l: Layer, i: nat, layerCount: nat, o: TiltOptions, offsetX: real, offsetY: real, centerX: real, centerY: real)
    requires i < layerCount && centerX != 0.0 && centerY != 0.0
    ensures var m := Moved(l, i, layerCount, o, offsetX, offsetY, centerX, centerY);
      && m.zIndex == (i + 1) * 10 && m.layerData == (i + 1) * 10
      && m.size == l.size && m.left == l.left && m.top == l.top
      && m.frame.Some?
      && m.frame.value.rotateX == (if o.invertRotateX then -1.0 else 1.0) * (o.maxAngle * (i + 1) as real) * (offsetX / centerX)
      && m.frame.value.rotateY == (if o.invertRotateY then 1.0 else -1.0) * (o.maxAngle * (i + 1) as real) * (offsetY / centerY)
      && m.frame.value.translateX * (layerCount - i) as real == (if o.invertMoveX then -1.0 else 1.0) * offsetX * o.speed
      && m.frame.value.translateY * (layerCount - i) as real == (if o.invertMoveY then -1.0 else 1.0) * offsetY * o.speed
      && Moved(m, i, layerCount, o, offsetX, offsetY, centerX, centerY) == m
  {
    RotateXLinear(o.invertRotateX, o.maxAngle, i, offsetX, centerX);
    RotateYLinear(o.invertRotateY, o.maxAngle, i, offsetY, centerY);
    TranslateBounds(o.invertMoveX, offsetX, layerCount, i, o.speed);
    TranslateBounds(o.invertMoveY, offsetY, layerCount, i, o.speed);
    var rx := RotateX(o.invertRotateX, o.maxAngle, i, offsetX, centerX);
    var ry := RotateY(o.invertRotateY, o.maxAngle, i, offsetY, centerY);
    var tx := Translate(o.invertMoveX, offsetX, layerCount, i, o.speed);
    var ty := Translate(o.invertMoveY, offsetY, layerCount, i, o.speed);
    StyleComponents(o, i, rx, ry, tx, ty);
  }

  // ------------------------------------------------------------- plugin

  class Plugin {
    const options: TiltOptions
    const caps: Capabilities
    /** The input source `init` subscribed to, which `track` tests again. */
    const input: InputSource
    /** `_accelero.layerCount`, also written as the `layer-count` data annotation. */
    const layerCount: nat
    /** `_accelero.layers`, in stacking order. */
    const layers: array<Layer>

    var centerX: real
    var centerY: real
    var currentX: Option<real>
    var currentY: Option<real>
    var xdiff: real
    var ydiff: real
    var centerOffsetX: real
    var centerOffsetY: real
    /** `_motion.ax` and `_motion.ay`, set by the orientation handler. */
    var motionAx: real
    var motionAy: real

    ghost predicate Valid()
      reads this
    {
      layers.Length == layerCount
    }

    function TrackingState(): Tracking
      reads this
    {
      Tracking(currentX, currentY, xdiff, ydiff, centerOffsetX, centerOffsetY)
    }

    /** The constructor and `init`: options, layer list and count, the first
        `resize`, and the choice of input source. */
    constructor (opts: TiltOptions, supported: Capabilities, children: seq<Size>, container: Size)
      ensures Valid() && fresh(layers)
      ensures options == opts && caps == supported
      ensures input == SelectInput(supported, opts.controlMethod)
      ensures layerCount == |children|
      ensures forall i :: 0 <= i < layerCount ==>
        layers[i] == Recentred(Unstyled(LayerOrder(children, opts.invertLayerStack)[i]), i, container)
      ensures centerX == container.width / 2.0 && centerY == container.height / 2.0
      ensures TrackingState() == Untracked
      ensures motionAx == 0.0 && motionAy == 0.0
    {
      options := opts;
      caps := supported;
      var ordered := LayerOrder(children, opts.invertLayerStack);
      layers := new Layer[|children|](i requires 0 <= i < |children| => Unstyled(ordered[i]));
      layerCount := |children|;
      input := SelectInput(supported, opts.controlMethod);
      centerX, centerY := 0.0, 0.0;
      currentX, currentY := None, None;
      xdiff, ydiff := 0.0, 0.0;
      centerOffsetX, centerOffsetY := 0.0, 0.0;
      motionAx, motionAy := 0.0, 0.0;
      new;
      Resize(container, ordered);
    }

    /** The `deviceorientation` handler: scaled gamma and beta. The animation
        frame it requests then runs `Move`. */
    method OnDeviceOrientation(gamma: real, beta: real)
      modifies this`motionAx, this`motionAy
      ensures motionAx == gamma * 5.0 && motionAy == beta * 7.0
    {
      motionAx := gamma * 5.0;
      motionAy := beta * 7.0;
    }

    /** `resize`: record the container's centre, then read every layer's current
        size (`layerSizes`, in layer order) and recentre it. */
    method Resize(container: Size, layerSizes: seq<Size>)
      requires Valid() && |layerSizes| == layers.Length
      modifies this`centerX, this`centerY, layers
      ensures centerX == container.width / 2.0 && centerY == container.height / 2.0
      ensures forall i :: 0 <= i < layers.Length ==>
        layers[i] == Recentred(old(layers[i]).(size := layerSizes[i]), i, container)
    {
      centerX := container.width / 2.0;
      centerY := container.height / 2.0;
      var i := 0;
      while i < layers.Length
        modifies layers
        invariant 0 <= i <= layers.Length
        invariant forall j :: 0 <= j < i ==> layers[j] == Recentred(old(layers[j]).(size := layerSizes[j]), j, container)
        invariant forall j :: i <= j < layers.Length ==> layers[j] == old(layers[j])
      {
        var l := layers[i].(size := layerSizes[i]);
        layers[i] := l.(zIndex := i + 1,
                        left := -((l.size.width - container.width) / 2.0),
                        top := -((l.size.height - container.height) / 2.0),
                        layerData := i + 1);
        i := i + 1;
      }
    }

    /** `track`: update the offsets (and, for mouse/touch, the position and diff)
        from the event. */
    method Track(evt: PointerEvent, o: Orientation, box: Box)
      modifies this`currentX, this`currentY, this`xdiff, this`ydiff, this`centerOffsetX, this`centerOffsetY
      ensures TrackingState() == TrackStep(old(TrackingState()), input, o, motionAx, motionAy, evt, box)
    {
      var reverse := false;
      var upsideDown := false;
      if o.Angle? {
        if o.degrees == 90 || o.degrees == -90 {
          reverse := true;
        }
        if o.degrees == -90 {
          upsideDown := true;
        }
      }
      if input == OrientationInput {
        if reverse {
          centerOffsetX := motionAy;
          centerOffsetY := if upsideDown then -motionAx else motionAx;
        } else {
          centerOffsetX := motionAx;
          centerOffsetY := if upsideDown then -motionAy else motionAy;
        }
      } else if input == PointerInput {
        if currentX.None? {
          currentX := Some(evt.pageX);
        }
        if currentY.None? {
          currentY := Some(evt.pageY);
        }
        xdiff := evt.pageX - currentX.value;
        ydiff := evt.pageY - currentY.value;
        currentX := Some(evt.pageX);
        currentY := Some(evt.pageY);
        centerOffsetX := evt.pageX - (box.left + box.width / 2.0);
        centerOffsetY := evt.pageY - (box.top + box.height / 2.0);
      }
    }

    /** `move`: for each layer, track the event, then compute and write its
        rotation, translation, transform and z-index. */
    method Move(evt: PointerEvent, o: Orientation, box: Box)
      requires Valid() && centerX != 0.0 && centerY != 0.0
      modifies layers, this`currentX, this`currentY, this`xdiff, this`ydiff, this`centerOffsetX, this`centerOffsetY
      ensures TrackingState() == TrackRepeat(old(TrackingState()), layerCount, input, o, motionAx, motionAy, evt, box)
      ensures var once := TrackStep(old(TrackingState()), input, o, motionAx, motionAy, evt, box);
        forall i :: 0 <= i < layerCount ==>
          layers[i] == Moved(old(layers[i]), i, layerCount, options, once.centerOffsetX, once.centerOffsetY, centerX, centerY)
    {
      ghost var start := TrackingState();
      ghost var once := TrackStep(start, input, o, motionAx, motionAy, evt, box);
      var i := 0;
      while i < layers.Length
        invariant 0 <= i <= layers.Length
        invariant TrackingState() == TrackRepeat(start, i, input, o, motionAx, motionAy, evt, box)
        invariant forall j :: 0 <= j < i ==>
          layers[j] == Moved(old(layers[j]), j, layerCount, options, once.centerOffsetX, once.centerOffsetY, centerX, centerY)
        invariant forall j :: i <= j < layers.Length ==> layers[j] == old(layers[j])
      {
        Track(evt, o, box);
        TrackRepeatSettles(start, i + 1, input, o, motionAx, motionAy, evt, box);
        TrackAgain(start, input, o, motionAx, motionAy, evt, box);
        var rx := RotateX(options.invertRotateX, options.maxAngle, i, centerOffsetX, centerX);
        var ry := RotateY(options.invertRotateY, options.maxAngle, i, centerOffsetY, centerY);
        var tx := Translate(options.invertMoveX, centerOffsetX, layerCount, i, options.speed);
        var ty := Translate(options.invertMoveY, centerOffsetY, layerCount, i, options.speed);
        var css := StyleFor(options, i, rx, ry, tx, ty);
        var l := layers[i];
        layers[i] := l.(zIndex := css.zIndex,
                        layerData := (i + 1) * 10,
                        frame := Some(Frame(rx, ry, tx, ty)),
                        transformOrigin := l.transformOrigin || css.transformOrigin,
                        transform := if css.transform.Some? then css.transform else l.transform);
        i := i + 1;
      }
    }
  }
}
