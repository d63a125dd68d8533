# Parameterised LED and crosshead screw, modelled in Dafny

Two VPython demo scripts draw a row of LEDs that flash on and off
(`Lesson12a.py`) and a set of crosshead screws (`Lesson12b.py`). Each script
builds its objects from a placement, a signed `scale` and an axis label. The
label goes through an axis-scale resolver, which turns it into a triple
`(xScale, yScale, zScale)`. Every position, axis vector, size and radius is
then a linear expression in that triple and the placement. This project
models:

- `Geometry`: exact 3D vectors over `real`, the ASCII `str.lower()`, and
  the resolver shared by both scripts.
- `Led`: the geometry of `simpleLED`, and the colour state that `simpleLED`
  and `smallLED` update in place. Each LED class is a Dafny `class` whose
  `update` is a method.
- `Flash`: the LED script's flashing loop. It is a two-state toggle over
  `(ledToggle, startTime)`. The `Flasher` class takes one step per loop
  iteration and switches the whole LED registry on every transition.
  `Step`, `Run` and `Flips` describe the same loop over any sequence of
  clock readings.
- `Screw`: the geometry of `drawScrewFPV`. This is the head, shaft and
  thread, plus the two slot bars with the angle and axis each is turned by.

The geometry is stated exactly: the parts stack end to end, each part lies
along the active axis (the two LED legs set 0.05·scale to either side of it),
a placement is a translation, and the builders are
linear. They also mirror: a negated scale negates every offset, axis, size
and radius.

## Model

| member | source | states |
|---|---|---|
| Geometry.Lower | Lesson12a.py:56 | `axis.lower()` keeps the length and lowers each character independently; A-Z map to a-z and every other character is unchanged |
| Geometry.LowerMatchesLetter | Lesson12a.py:56-59 | a string lowers to a one-letter string exactly when it is that letter in lower or upper case |
| Geometry.AxisOf | Lesson12a.py:56-64 | the label selects x exactly for "x"/"X" and y exactly for "y"/"Y"; every other label, the empty string included, falls back to z |
| Geometry.AxisScale | Lesson12a.py:56-64 | the triple carries the signed scale on the selected axis and zero on the other two; this resolver is repeated verbatim at Lesson12b.py:45-53 |
| Geometry.AxisScaleMirrors | Lesson12b.py:45-53 | negating the scale negates the resolved triple |
| Led.BuildLed | Lesson12a.py:68-89 | base, body and dome stack end to end from the placement; the bulb shares the dome centre; the body axis is three times the base axis; the radii are in the ratios bulb 0.8, body 1, base 1.25 and legs 0.1 of the dome; leg 2 is 0.05 of the triple longer than leg 1; and the two leg starts are symmetric about the point 0.025 of the triple up the axis |
| Led.SimpleLedParts | Lesson12a.py:56-89 | the whole of `simpleLED.__init__`'s geometry: `BuildLed` applied to the resolved triple `AxisScale(scale, axis)`, which is the signed scale along the axis `AxisOf(axis)` selects; the base starts at the placement and the dome radius is 0.1·scale |
| Led.LedAlongAxis | Lesson12a.py:68-89 | on principal axis k: the dome centre is 0.20·scale up k with radius 0.1·scale; the base and body axes are 0.05·scale and 0.15·scale; the leg axes are -0.25·scale and -0.30·scale along k; the leg starts are 0.025·scale up k and -0.05·scale or +0.05·scale along the single side axis |
| Led.LedTranslates | Lesson12a.py:68-89 | the LED at `pos` is the LED at the origin shifted by `pos`; axes and radii do not depend on the placement |
| Led.LedScalesLinearly | Lesson12a.py:68-89 | scaling both `scale` and the triple by k scales every position, axis and radius of the origin LED by k |
| Led.LedMirrors | Lesson12a.py:54-89 | the LED built with `-scale` is, about its placement, the component-wise negation of the one built with `scale`: every offset, axis vector and radius is negated |
| Led.SimpleLook | Lesson12a.py:92-98 | the resulting look depends only on the argument: it is self-lit exactly when the argument is not the sentinel "off", and its colour is then the argument, otherwise the LED's off colour |
| Led.DefaultLightsSimpleLed | Lesson12a.py:43-45 | smallLED's sentinel "default" restores a smallLED's off colour, but on a simpleLED it sets emissive and assigns the string as the colour, because simpleLED's sentinel is "off" (Lesson12a.py:92-93) |
| Led.SimpleLed.constructor | Lesson12a.py:54-91 | the parts are those of the resolved geometry; the off colour is kept; the compound starts showing the off colour unlit |
| Led.SimpleLed.Update | Lesson12a.py:92-98 | after `update(arg)` the LED shows `SimpleLook(offColor, arg)` whatever it showed before, so repeating a call changes nothing; only this LED is modified |
| Led.SmallShade | Lesson12a.py:43-47 | the colour is the off colour exactly for "default" and the argument otherwise |
| Led.SmallLed.constructor | Lesson12a.py:35-40 | dome, body and base start in the off colour, and no `color` attribute exists yet |
| Led.SmallLed.Update | Lesson12a.py:43-50 | `color`, dome, body and base all receive the same shade; the legs are not part of the object |
| Flash.Step | Lesson12a.py:129-133 | below the period nothing changes; at or past it the timer restarts at `timeNow` and a toggle in {0, 1} flips, so the first transition from 0 turns the LEDs on |
| Flash.Run | Lesson12a.py:124-133 | the loop over a finite run of clock readings, one `Step` per reading: a toggle in {0, 1} stays in {0, 1}, and the timer ends at the start time or at one of the readings |
| Flash.RunSummary | Lesson12a.py:124-133 | over any sequence of readings the toggle stays in {0, 1} and equals the start value plus the number of transitions, mod 2; the timer holds the reading of the last transition |
| Flash.FlipsSpaced | Lesson12a.py:129-132 | transitions are at least `ledFlashPeriod` apart, and the first is at least a period after the start time |
| Flash.UpdateAll | Lesson12a.py:134-157 | updating a registry of distinct LEDs in order leaves LED i showing the look for argument i |
| Flash.Flasher.constructor | Lesson12a.py:124-125 | the loop starts in state 0 with the timer at the given reading |
| Flash.Flasher.Tick | Lesson12a.py:129-157 | one iteration: the state becomes `Step` of the old state; it reports whether a transition happened; if none happened no LED changes; in state 0 every LED shows its off colour unlit; in state 1 LED i shows its on colour i |
| Screw.SlotAngle | Lesson12b.py:63 | a draw in [0, 1) gives a slot angle in [0, pi/2) |
| Screw.BuildScrew | Lesson12b.py:54-75 | the shaft ends where the head starts; the thread starts with the shaft and is five times its length, pointing the other way, ending 0.30 of the triple below the placement; head radius is twice the shaft radius and thread radius equals it; both slot bars share centre (0.0301 of the triple up) and size, turn about the triple, and the second is turned exactly pi/2 further |
| Screw.ScrewFpv | Lesson12b.py:43-75 | the whole of `drawScrewFPV`: `BuildScrew` applied to the resolved triple `AxisScale(scale, axis)` (the signed scale along `AxisOf(axis)`) and to the slot angle `SlotAngle(r)`; a draw in [0, 1) gives a first slot angle in [0, pi/2) |
| Screw.ScrewAlongAxis | Lesson12b.py:54-75 | on principal axis k: the head axis is 0.04·scale and its radius 0.06·scale; the shaft starts 0.05·scale below; the thread tip is 0.30·scale below; the bar size is 0.02·scale along k, 0.02·scale along the next axis and 0.1·scale along the last; the bar's outer face is 0.0001·scale beyond the head face; the turn axis is the scale along k |
| Screw.ScrewTranslates | Lesson12b.py:54-75 | the screw at `sPos` is the screw at the origin shifted by `sPos` |
| Screw.ScrewScalesLinearly | Lesson12b.py:54-75 | scaling both `scale` and the triple by k scales every position, axis, size, radius and turn axis by k and keeps the slot angles |
| Screw.ScrewMirrors | Lesson12b.py:43-75 | the screw built with `-scale` is, about `sPos`, the negation of the one built with `scale`: every offset, axis vector, size vector, radius and turn axis is negated, and the slot angles are the same |

## Left out

- Rendering: the canvas, the axis arrows, the colour blending of `compound`, the opacity and shininess values, and the `gray(0.90)` tint given to the LED base before compounding. These only affect what the library draws. The model records the compound's own colour and emissive flag.
- `rate()` and the unbounded `while True` loops: the model takes one loop iteration (`Flash.Flasher.Tick`) and finite runs of readings (`Flash.Run`).
- Screw.ScrewFpv: the defaults of `drawScrewFPV` (origin, scale 1, axis 'z') are not carried over, because the draw `r` that follows them has no default; every argument is passed explicitly. The LED constructors and `update` methods keep the source's defaults.
- `time.time()`: every clock reading is a parameter (`startTime`, `timeNow`).
- `np.random.rand()`: the draw is the parameter `r`. The bound `0 <= r < 1` is an assumption of `Screw.SlotAngle`'s ensures, not a precondition.
- `np.pi`: modelled as the constant 3.141592653589793. Only its use in the two slot angles is modelled.
- The effect of `box.rotate`: the rotation would need trigonometry. Only the angle and axis passed to it are recorded.
- Floating point: coordinates are exact reals, so rounding in the products is not modelled.
- A negative scale gives negative radii. The model keeps them as computed, and does not model how the renderer treats them.
- The Lesson 11 `drawScrew` and the geometry of the `smallLED` constructor: both build fixed-size parts along z, shifted by a placement argument (`smallLED` also takes an off colour, which the model keeps). Neither takes a scale or an axis, so nothing beyond a translation is worth stating. The `smallLED` legs are never referenced after construction.
- The configuration flags (`just1LED`, `useL11LED`, `showAxis`, `just1Screw`, `useL11Screw`) and the nine literal LED and screw instances. The nine unrolled `update` calls are a loop over a registry of distinct LEDs with one on colour each.
- The library colour constants (`color.red`, `color.magenta`, ...): a colour is any `Rgb` value or a string; only `color.gray(0.5)`, the default off colour, is named (`Led.HALF_GRAY`).
- Geometry.Lower: only the ASCII letters A-Z are lowered. Every other character is kept as it is, where Python's `str.lower()` applies the full Unicode case mapping.
