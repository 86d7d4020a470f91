# accelero, modelled in Dafny

accelero is a jQuery plugin. It ships in two variants.

- **Tilt/depth variant** (`jquery.accelero.js`). A container holds stacked layer `div`s. On every device-orientation reading, mouse move or touch move, `move` runs `track` for each layer. `track` turns the input into a centre offset. `move` then rotates and translates each layer in proportion to its depth and writes its z-index. `resize` centres every layer in the container.
- **Drifting-element variant** (`js/jquery.accelero.js`). A single element drifts inside a container. A 25 ms interval (`_track`) advances a motion record: velocity from the acceleration, gravity damping, position advance, then a bounding-box clamp with bounce and an off-by-one snap. In the mouse mode a `mousemove` handler also pulls the position toward the pointer.

Both variants share three things:
- an option merge: defaults, then the element's data attributes, then explicit options;
- feature detection;
- the attach-once guard of `$.fn.accelero`.

The model has seven modules:

- `Common` (`common.dfy`): the inputs the browser provides (orientation angle, capabilities, sizes). It also defines `Math.ceil` as `Ceil`, and `parseInt(n, 10)` on a number as `Trunc`, which truncates toward zero.
- `Options` (`options.dfy`): the data-attribute copy loop and the `$.extend` merge.
- `Registry` (`registry.dfy`): the attach-once guard, as a store that maps elements to plugins.
- `Tilt` (`tilt.dfy`): the pure formulas of the tilt variant.
- `TiltPlugin` (`tilt_plugin.dfy`): the tilt plugin object as a class.
  - It holds the `_accelero` tracking fields.
  - It holds the layers as an array.
  - `Resize`, `Track` and `Move` update that state layer by layer. Each is proved against the pure functions.
- `Drift` (`drift.dfy`): the pure per-axis integrator and clamp of the drifting variant, and the mouse smoothing.
- `DriftPlugin` (`drift_plugin.dfy`): the drifting plugin object as a class.
  - It holds the `motion` record.
  - The constructor does `init`'s scaling and picks the input.
  - It has the sensor and mouse handlers, the interval tick, `_move` and `_boundingBoxCheck`.
  - Each state change is proved equal to the pure integrator.

DOM reads are parameters: sizes, offsets, `window.orientation`, sensor values and event coordinates. Numbers are exact reals, and IEEE-754 double rounding is not modelled.

## Model

| member | source | states |
|---|---|---|
| Common.Ceil | js/jquery.accelero.js:177-187 | `Math.ceil(r)` is the least integer not below `r`. |
| Common.Trunc | js/jquery.accelero.js:191-197 | `parseInt` of a number truncates toward zero: for `r >= 0` the result is at most `r` and within 1 of it; for `r < 0` it is at least `r` and within 1 of it. |
| Common.RoundingIntegers | js/jquery.accelero.js:189-198 | Rounding a whole number, up or toward zero, returns it unchanged. This is why positions and velocities stay whole. |
| Options.CopyDataOptions | jquery.accelero.js:50-60 | The data-attribute loop copies every attribute, known option or not, because its type guard is always truthy. The result has exactly the attribute keys and the same values. |
| Options.MergePrecedence | jquery.accelero.js:63 | `$.extend({}, defaults, dataOptions, options)`: a key is present iff some source defines it. Its value comes from the explicit options, else from the data attributes, else from the defaults. Undefined values never overwrite. |
| Options.MergeOfDefaultsOnly | js/jquery.accelero.js:12-38 | With no data attributes and no explicit options, the merged options equal the defaults. |
| Registry.CreatedExactlyOnce | jquery.accelero.js:352-358 | The guard constructs a plugin exactly for the elements not already attached. Each element gets at most one plugin. |
| Registry.ReattachCreatesNothing | js/jquery.accelero.js:243-249 | Calling the plugin again on elements that already carry `plugin_accelero` constructs nothing. |
| Registry.PluginStore.constructor | jquery.accelero.js:352-358 | The store starts with no elements attached and no plugins constructed. |
| Registry.PluginStore.Attach | jquery.accelero.js:352-358 | After the call, every element passed is attached. The plugins constructed are appended exactly as `Created` lists them. |
| Registry.AttachTwice | js/jquery.accelero.js:243-249 | Attaching the same elements twice leaves the store exactly as one attachment does. |
| Tilt.SelectInput | jquery.accelero.js:110-134 | Orientation input is chosen iff it is supported and the method is `auto` or `orientation`. Otherwise pointer input is chosen iff touch or mouse is supported and the method is `auto` or `touch`. Otherwise nothing is chosen. |
| Tilt.NormaliseOrientationTable | jquery.accelero.js:176-205 | At 90 the offsets are `(ay, ax)`. At -90 they are `(ay, -ax)`. At every other angle, and when the angle is undefined, they are `(ax, ay)`. The upside-down negation of the non-swapping branch can never fire. |
| Tilt.RotateXLinear | jquery.accelero.js:253-266 | Both sign branches give `maxAngle*(i+1)*offsetX/centerX`. `invertRotateX` negates it exactly. |
| Tilt.RotateYLinear | jquery.accelero.js:269-282 | The Y rotation is `-maxAngle*(i+1)*offsetY/centerY` by default and positive when inverted. It is the negation of the X formula for the same inputs, and a zero offset gives zero. |
| Tilt.TranslateBounds | jquery.accelero.js:284-302 | The divisor `layerCount - i` is at least 1. The translation is `offset*speed/(layerCount-i)`, negated when inverted. No layer moves further than `offset*speed`, and the last layer moves exactly that far. |
| Tilt.StyleComponents | jquery.accelero.js:305-335 | The z-index is always `(i+1)*10`. `transform-origin` and perspective come iff rotation is enabled, and rotate iff rotation is enabled. Translate comes iff movement is enabled. With neither flag only the z-index is written. The CSS `rotateX` slot carries `rotateY` and vice versa. |
| Tilt.DefaultsStyle | jquery.accelero.js:13-44 | With the default options (both effects on, no inversion), every layer gets the full transform: origin, perspective, swapped rotations, translations and z-index `(i+1)*10`. |
| Tilt.RecentreCentres | jquery.accelero.js:156-163 | `left = -((layerWidth - containerWidth)/2)` puts the layer's centre on the container's centre. The same holds for `top`. |
| Tilt.LayerOrder | jquery.accelero.js:89-101 | The layer list keeps the HTML order under `invertLayerStack` and reverses it otherwise. Its length is the layer count. |
| TiltPlugin.RecentredFacts | jquery.accelero.js:146-165 | `resize` sets the z-index and `layer` annotation to `i+1` and centres the layer. It depends only on the sizes, so repeating it is idempotent. It leaves the transform untouched. |
| TiltPlugin.TrackPointer | jquery.accelero.js:210-233 | The first pointer event records the position with a zero diff. Later ones give `xdiff = pageX - previous currentX`, and the same for y. `current` becomes the event position. The offsets are measured from the container's centre. |
| TiltPlugin.TrackOrientation | jquery.accelero.js:194-206 | Orientation tracking sets only the centre offsets, to the normalised sensor values. |
| TiltPlugin.TrackAgain | jquery.accelero.js:210-224 | Tracking the same event a second time keeps the offsets and positions and zeroes the pointer diffs. A third call changes nothing. |
| TiltPlugin.TrackRepeatSettles | jquery.accelero.js:247-250 | `move` runs `track` once per layer with the same event. After `n >= 1` calls the state is that of one call, except that the diffs are 0 from the second call on. |
| TiltPlugin.MovedFacts | jquery.accelero.js:305-345 | After `move`, a layer's z-index and `layer` annotation are `(i+1)*10` whatever the flags. Its annotations carry the signed linear rotations and the translations. Its size and position are untouched. Moving again with the same offsets changes nothing. |
| TiltPlugin.Plugin.constructor | jquery.accelero.js:46-107 | Builds the layer array in `LayerOrder`, recentred by the first `resize`. `layerCount` is the number of layers and tracking starts empty. The input is chosen by `SelectInput`. |
| TiltPlugin.Plugin.OnDeviceOrientation | jquery.accelero.js:112-116 | The orientation handler stores `gamma*5` and `beta*7`. |
| TiltPlugin.Plugin.Resize | jquery.accelero.js:146-165 | Records the container's half-size as the centre. Every layer takes its freshly read size and becomes `Recentred` with it, so layers that changed size are recentred by their new size. |
| TiltPlugin.Plugin.Track | jquery.accelero.js:168-241 | The new tracking state is `TrackStep` of the old one for the chosen input and the orientation. |
| TiltPlugin.Plugin.Move | jquery.accelero.js:243-348 | The tracking state is `track` repeated once per layer. Every layer becomes `Moved` with the offsets the first `track` produced. |
| Drift.SelectSource | js/jquery.accelero.js:98-137 | Motion comes first (`auto` or `motion`), then orientation (`auto` or `orientation`), then mouse (`auto` or `mouse`), which has no capability test. Nothing is chosen iff the method is unrecognised or the requested sensor is missing. |
| Drift.OrientationFlagsTable | js/jquery.accelero.js:155-170 | An undefined orientation gives landscape only. 90 gives landscape and reverse, -90 landscape only, 180 reverse only, and any other angle neither. |
| Drift.CheckAxisBounds | js/jquery.accelero.js:204-239 | After the bounding-box check, a non-negative extent contains the position. The position is never `max - 1`. Whole inputs give a whole position. |
| Drift.CheckAxisCases | js/jquery.accelero.js:204-239 | Inside the box and not at `max - 1`, nothing changes. At `max - 1` only the position snaps. Each clamp that fires reflects the velocity to `-ceil(v*bounceRatio)`. The upper test is `>=`, so sitting on `max` reflects too. Below zero with `max <= 0` both clamps fire. |
| Drift.BounceReverses | js/jquery.accelero.js:209-227 | For a ratio in `[0, 1]`, a bounce reverses the velocity's direction and never increases its magnitude. |
| Drift.DampBias | js/jquery.accelero.js:186-187 | For a ratio in `[0, 1]`, damping never increases the speed or changes its sign. With a positive ratio, a positive velocity never drops below 1. |
| Drift.DampExample | js/jquery.accelero.js:186-187 | `ceil(1*0.98) = 1` but `ceil(-1*0.98) = 0`: the rounding is biased upward. |
| Drift.AdvanceRounding | js/jquery.accelero.js:189-198 | The position step is the exact `p ± v/size` truncated toward zero. It is whole, within 1 of the exact value, and no larger in magnitude. |
| Drift.AxisTickBounds | js/jquery.accelero.js:172-239 | One axis of a tick ends inside a non-negative extent, never at `max - 1`, and whole when the extent is whole. |
| Drift.IntegrateBounds | js/jquery.accelero.js:172-239 | After a tick the extents are container size minus element size. Both positions are within a non-negative extent, neither is at its `max - 1`, and both are whole when the extents are whole. |
| Drift.IntegrateAxesIndependent | js/jquery.accelero.js:175-198 | The new `x, vx` depend only on the old `x, vx` and one acceleration (`ay` in landscape, `ax` otherwise). The same holds for `y, vy`, so the axes never interact. |
| Drift.TickFromRestExample | js/jquery.accelero.js:175-198 | From rest in portrait with unit accelerations, one tick gives `vx = 1`, `vy = 0` and leaves the element at the origin. |
| Drift.BounceExample | js/jquery.accelero.js:218-222 | At `max_x` with `vx = 10` and ratio 0.5, the position stays at `max_x` and the velocity becomes `-5`. |
| Drift.SmoothApproaches | js/jquery.accelero.js:130-131 | For a non-zero speed, the smoothing equals `x + (target - x)/(12/speed)`. With `0 <= speed <= 12` it moves toward the target without overshooting, and at 12 it reaches the target. |
| Drift.ScaledSize | js/jquery.accelero.js:87-96 | With `scale != 1` the element becomes `ceil(size*scale)`, a whole number within 1 above the exact product. With `scale == 1` the size is unchanged. |
| DriftPlugin.Plugin.constructor | js/jquery.accelero.js:23-137 | The motion record starts at rest. The element size is scaled. The input is `SelectSource`. Exactly one interval is live iff an input was chosen. |
| DriftPlugin.Plugin.RestartTimer | js/jquery.accelero.js:107-108 | `clearInterval` then `setInterval`: afterwards exactly one interval, the new one, is live. |
| DriftPlugin.Plugin.OnDeviceMotion | js/jquery.accelero.js:100-105 | The motion handler stores the acceleration including gravity, times 5. |
| DriftPlugin.Plugin.OnDeviceOrientation | js/jquery.accelero.js:112-118 | The orientation handler stores beta, gamma and alpha as `ax`, `ay` and `az`. |
| DriftPlugin.Plugin.OnMouseMove | js/jquery.accelero.js:126-133 | The target is the translation that would put the element's centre under the pointer: the pointer minus the container's offset and half the element's size. It does not depend on where the element is. Each position moves by `Smooth` toward it. |
| DriftPlugin.Plugin.Tick | js/jquery.accelero.js:139-153 | Records the accelerations as data and advances the motion record by `Integrate`. |
| DriftPlugin.Plugin.Move | js/jquery.accelero.js:154-203 | The new motion record is `Integrate` of the old one under the orientation's flags. |
| DriftPlugin.Plugin.Accelerate | js/jquery.accelero.js:175-184 | Each velocity becomes `ceil(v + accel*speed)`. In landscape `ay` drives x and `ax` drives y; otherwise `ax` drives x and `-ay` drives y. |
| DriftPlugin.Plugin.AdvancePosition | js/jquery.accelero.js:189-198 | Each position becomes the truncated `p ± v/size`, subtracting when reversed. |
| DriftPlugin.Plugin.BoundingBoxCheck | js/jquery.accelero.js:204-240 | Each axis becomes `CheckAxis` of its old position and velocity: the clamps run in the source's order, and the axes never interact. |

## Left out

- IEEE-754 double rounding: numbers are exact reals. A product such as `v*0.98` that lands within rounding distance of a whole number may round differently in JavaScript.
- `parseInt` on numbers whose string form uses exponent notation (below `1e-6` or from `1e21` up): it is modelled as plain truncation.
- TiltPlugin.Plugin.Move: requires non-zero container half-sizes. JavaScript divides by them and yields Infinity or NaN, which reals cannot express.
- Tilt.RotateX: requires a non-zero `center`, for the same reason.
- DriftPlugin.Plugin.Move: requires a non-zero element size. The same requirement applies to `Tick`, `AdvancePosition`, `Drift.Advance` and `Drift.Integrate`; JavaScript yields Infinity or NaN.
- CSS writes are modelled as the chosen components, not as strings: the transform text, number-to-string formatting, `px` suffixes, and the final `translate3d` write of the drifting variant.
- Event listener registration, `window.ondevicemotion`, `onorientationchange`, window `resize`, and the `requestAnimFrame` shim are left out. The handlers are methods, and a caller runs `Move`, `Resize` or `Tick` when the browser would.
- `setInterval` timing is left out: the 25 ms period is not represented, and interval handles are natural numbers.
- The debug overlay of the drifting variant is left out (DOM injection only).
- Auto-initialisation on document ready is left out.
- The `px`, `py`, `newX` and `newY` values of `track` are left out: they are computed but never read.
- The `x-diff`, `y-diff`, `current-x` and `current-y` container data annotations mirror the tracking fields, which are modelled.
- The `_accelero.rotateX/translateX` scratch fields are left out: each layer's `rotate-x`/`translate-x` annotations hold the same values.
- Options are typed records in the plugin constructors. The coercion of arbitrary data-attribute values to those types is left out; the merge itself is modelled on key/value maps in `Options`.
- The `containerElement`, `debug` and `debugElement` options of the drifting variant are left out: the container's size and offset are parameters, and `debug` only drives the overlay.
- The unused `z` and `vz` fields of the drifting `motion` record are left out.
- DriftPlugin.Plugin: the element size is fixed when the plugin is constructed. Only the plugin writes the element's size, and only once.
- TiltPlugin.Plugin: `_motion.ax`/`ay` start at 0 instead of undefined. In orientation mode, `move` only runs from the orientation handler, after both have been set.
