/** The drifting-element plugin object of js/jquery.accelero.js: the `motion`
    record advanced by the 25 ms `_track` interval, the sensor and mouse
    handlers that feed it, and the interval handle `init` manages. DOM reads
    (sizes, offsets, `window.orientation`, sensor values) are parameters. */
module DriftPlugin {
  import opened Common
  import opened Drift

  class Plugin {
    const options: DriftOptions
    /** The input `init` subscribed to. */
    const source: MotionSource
    /** The element's size after `init`'s scaling. */
    const elementSize: Size

    // the `motion` record
    var x: real
    var y: real
    var vx: int
    var vy: int
    var maxX: real
    var maxY: real
    var ax: real
    var ay: real
    var az: real
    var newTop: real
    var newLeft: real

    /** The `acceleration-x/y/z` data annotations `_track` writes. */
    var accelerationData: (real, real, real)

    /** `this.timer`, the intervals this instance has started and not cleared,
        and the number of interval handles issued so far. */
    var timer: Option<nat>
    var liveTimers: set<nat>
    var handles: nat

    function State(): Motion
      reads this
    {
      Motion(x, y, vx, vy, maxX, maxY)
    }

    /** At most one interval runs, and it is the one `timer` names. */
    ghost predicate TimersValid()
      reads this
    {
      && liveTimers == (if timer.Some? then {timer.value} else {})
      && (timer.Some? ==> timer.value <= handles)
    }

    /** The constructor and `init`: scale the element, choose the input, and
        start the interval for it. */
    constructor (opts: DriftOptions, supported: Capabilities, element: Size)
      ensures options == opts
      ensures source == SelectSource(supported, opts.controlMethod)
      ensures elementSize == ScaledSize(element, opts.scale)
      ensures State() == AtRest && ax == 0.0 && ay == 0.0 && az == 0.0
      ensures TimersValid() && |liveTimers| == (if source == NoSource then 0 else 1)
    {
      options := opts;
      elementSize := ScaledSize(element, opts.scale);
      var chosen := NoSource;
      if supported.motion && (opts.controlMethod == Auto || opts.controlMethod == MotionControl) {
        chosen := DeviceMotion;
      } else if supported.orientation && (opts.controlMethod == Auto || opts.controlMethod == OrientationControl) {
        chosen := DeviceOrientation;
      } else if opts.controlMethod == Auto || opts.controlMethod == MouseControl {
        chosen := MouseInput;
      }
      source := chosen;
      x, y, vx, vy, maxX, maxY := 0.0, 0.0, 0, 0, 0.0, 0.0;
      ax, ay, az := 0.0, 0.0, 0.0;
      newTop, newLeft := 0.0, 0.0;
      accelerationData := (0.0, 0.0, 0.0);
      timer, liveTimers, handles := None, {}, 0;
      new;
      if chosen != NoSource {
        RestartTimer();
      }
    }

    /** `clearInterval(this.timer)` followed by `this.timer = setInterval(...)`. */
    method RestartTimer()
      requires TimersValid()
      modifies this`timer, this`liveTimers, this`handles
      ensures TimersValid()
      ensures handles == old(handles) + 1 && timer == Some(handles) && liveTimers == {handles}
    {
      if timer.Some? {
        liveTimers := liveTimers - {timer.value};
      }
      handles := handles + 1;
      timer := Some(handles);
      liveTimers := liveTimers + {handles};
    }

    /** The `ondevicemotion` handler: acceleration including gravity, times 5. */
    method OnDeviceMotion(gx: real, gy: real, gz: real)
      modifies this`ax, this`ay, this`az
      ensures ax == gx * 5.0 && ay == gy * 5.0 && az == gz * 5.0
    {
      ax := gx * 5.0;
      ay := gy * 5.0;
      az := gz * 5.0;
    }

    /** The `deviceorientation` handler: beta, gamma and alpha, unscaled. */
    method OnDeviceOrientation(alpha: real, beta: real, gamma: real)
      modifies this`ax, this`ay, this`az
      ensures ax == beta && ay == gamma && az == alpha
    {
      ax := beta;
      ay := gamma;
      az := alpha;
    }

    /** The container's `mousemove` handler: the target is the translation that
        would put the element's centre under the pointer (the pointer minus the
        container's offset and half the element's size), and the position moves
        `speed / 12` of the way there. `(t - x) / (12 / speed)` is computed as `(t - x) * speed / 12`. */
    method OnMouseMove(pageX: real, pageY: real, containerLeft: real, containerTop: real)
      modifies this`newTop, this`newLeft, this`x, this`y
      ensures newTop == pageY - (containerTop + elementSize.height / 2.0)
      ensures newLeft == pageX - (containerLeft + elementSize.width / 2.0)
      ensures x == Smooth(old(x), newLeft, options.speed)
      ensures y == Smooth(old(y), newTop, options.speed)
    {
      newTop := pageY - (containerTop + elementSize.height / 2.0);
      newLeft := pageX - (containerLeft + elementSize.width / 2.0);
      x := x + (newLeft - x) * options.speed / 12.0;
      y := y + (newTop - y) * options.speed / 12.0;
    }

    /** `_track`, run by the interval: record the accelerations, then `_move`. */
    method Tick(container: Size, o: Orientation)
      requires elementSize.width != 0.0 && elementSize.height != 0.0
      modifies this`accelerationData, this`x, this`y, this`vx, this`vy, this`maxX, this`maxY
      ensures accelerationData == (ax, ay, az)
      ensures State() == Integrate(old(State()), ax, ay, options, OrientationFlags(o), container, elementSize)
    {
      accelerationData := (ax, ay, az);
      Move(container, o);
    }

    /** `_move`: orientation flags, extents, velocity update with ceiling after
        every step, damping, position advance, then the bounding-box check. */
    method Move(container: Size, o: Orientation)
      requires elementSize.width != 0.0 && elementSize.height != 0.0
      modifies this`x, this`y, this`vx, this`vy, this`maxX, this`maxY
      ensures State() == Integrate(old(State()), ax, ay, options, OrientationFlags(o), container, elementSize)
    {
      ghost var m := State();
      var landscape := true;
      var reverse := false;
      if o.Angle? {
        landscape := false;
        if o.degrees == 90 || o.degrees == -90 {
          landscape := true;
        }
        if o.degrees == 90 || o.degrees == 180 {
          reverse := true;
        }
      }
      assert DriftFlags(landscape, reverse) == OrientationFlags(o);

      maxX := container.width - elementSize.width;
      maxY := container.height - elementSize.height;

      ghost var vxAcc, vyAcc := Accelerate(landscape);
      vx := Damp(vx, options.gravityRatio);
      vy := Damp(vy, options.gravityRatio);
      AdvancePosition(reverse);

      AxisTickSteps(m.x, m.vx, if landscape then ay else ax, options, reverse, elementSize.width, maxX, vxAcc, vx, x);
      AxisTickSteps(m.y, m.vy, if landscape then ax else -ay, options, reverse, elementSize.height, maxY, vyAcc, vy, y);

      BoundingBoxCheck();
    }

    /** The velocity update of `_move`: in landscape `ay` accelerates x and `ax`
        accelerates y, otherwise `-ay` accelerates y and `ax` accelerates x, each
        sum rounded up. The results are returned as well, before damping. */
    method Accelerate(landscape: bool) returns (ghost vxAcc: int, ghost vyAcc: int)
      modifies this`vx, this`vy
      ensures vx == vxAcc == Accelerated(old(vx), if landscape then ay else ax, options.speed)
      ensures vy == vyAcc == Accelerated(old(vy), if landscape then ax else -ay, options.speed)
    {
      if landscape {
        vx := Ceil(vx as real + ay * options.speed);
        vy := Ceil(vy as real + ax * options.speed);
      } else {
        ghost var vy0 := vy;
        vy := Ceil(vy as real - ay * options.speed);
        vx := Ceil(vx as real + ax * options.speed);
        assert vy0 as real - ay * options.speed == vy0 as real + -ay * options.speed;
      }
      vxAcc, vyAcc := vx, vy;
    }

    /** The position update of `_move`: `Math.ceil(parseInt(p ± v / size))`,
        subtracting when the orientation is reversed. */
    method AdvancePosition(reverse: bool)
      requires elementSize.width != 0.0 && elementSize.height != 0.0
      modifies this`x, this`y
      ensures x == Advance(old(x), vx, elementSize.width, reverse) as real
      ensures y == Advance(old(y), vy, elementSize.height, reverse) as real
    {
      x := Advance(x, vx, elementSize.width, reverse) as real;
      y := Advance(y, vy, elementSize.height, reverse) as real;
    }

    /** `_boundingBoxCheck`: both lower clamps, both upper clamps, then the
        off-by-one snaps, each axis on its own. */
    method BoundingBoxCheck()
      modifies this`x, this`y, this`vx, this`vy
      ensures (x, vx) == CheckAxis(old(x), old(vx), maxX, options.bounceRatio)
      ensures (y, vy) == CheckAxis(old(y), old(vy), maxY, options.bounceRatio)
    {
      ghost var x0, vx0, y0, vy0 := x, vx, y, vy;
      if x < 0.0 {
        x := 0.0;
        vx := Bounce(vx, options.bounceRatio);
      }
      if y < 0.0 {
        y := 0.0;
        vy := Bounce(vy, options.bounceRatio);
      }
      assert x == (if x0 < 0.0 then 0.0 else x0) && vx == (if x0 < 0.0 then Bounce(vx0, options.bounceRatio) else vx0);
      if x >= maxX {
        x := maxX;
        vx := Bounce(vx, options.bounceRatio);
      }
      if y >= maxY {
        y := maxY;
        vy := Bounce(vy, options.bounceRatio);
      }
      if x == maxX - 1.0 {
        x := maxX;
      }
      if y == maxY - 1.0 {
        y := maxY;
      }
    }
  }
}
