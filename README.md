# Sample indicator plugin: display controller model

This project models the core of the Stream Deck sample indicator plugin.
Each key or dial of the action gets a `SampleIndicatorAction` controller.
The controller cycles through five display modes (0 to 4) on key presses, dial releases and touch taps.
A dial rotation puts it in a manual mode (6).
It redraws its star icon, and on encoders a feedback panel, once a second.
The action cache `MACTIONS` maps each context id to its controller.

- `display.dfy` (module `Display`) holds the pure parts as functions and lemmas: `cycle`, the clock-derived indicator value, `createIcon` as a record of SVG attributes, what `update` sends to the host (`Render`), and the arithmetic of `toggle` and `manualRotate`.
- `controller.dfy` (module `Controller`) holds the class `SampleIndicatorAction`. Its fields are the source's fields. Its methods change them in place. Each method's contract ties the new state and the host calls it makes to the functions of `Display`.
- `plugin.dfy` (module `Plugin`) holds the class `ActionCache`. Its field `actions` is `MACTIONS`, and its methods are the event handlers registered on the action. Its invariant says every controller in the cache is filed under its own context, is valid (its opacity is the one its mode draws with), and has its interval running. The method `KeyLifecycle` is a client of the handlers. It checks one scenario: a key appears, is pressed once (mode 1, red fill, stroke width 0, stroke the default colour, no feedback), and disappears, and a later timer firing draws nothing, and ignored dial and touch events for the vanished context are accepted and change nothing.

How the outside world is represented:
- The host calls `$SD.setImage` and `$SD.setFeedback` are appended to a ghost log, `Sent`, of `Emission` values.
- The interval started by `init` is a flag, `timerActive`. Each firing of it is a call of `Tick`. `clearInterval` is `ClearTimer`.
- The wall-clock second is a parameter `second` in 0..59. `Math.floor(100 / 60 * second)` is the integer `(100 * second) / 60`, which agrees with it on those seconds.
- A payload field that may be absent (`pressed`, `hold`, `ticks`) is an `Option`.

Where the code behaves differently from what its comments or names suggest, the model follows the code:
- The manual mode is `numModes + 1`, i.e. 6, not 5.
- `toggle` does leave manual mode: `(6 + 1) % 5` is 2 (`ToggleLeavesManual`).
- The polygon's stroke is always the controller colour. The per-mode stroke (`white`, `yellow`) that `createIcon` computes is never drawn (`ModeStrokeOnlyDrawnInModeZero`).
- `cycle` snaps an overshoot to the opposite bound: it agrees with a modular wrap for an overshoot of one (`CycleWrapsOneStep`) but not in general, so a rotation of more than one step past a bound does not wrap around (`CycleIsNotModular`).
- `onWillAppear` for a context that already has a controller replaces it without clearing the old controller's interval. The model does the same: the replaced controller is left untouched, with its timer still active.

## Model

| member | source | states |
|---|---|---|
| Display.Cycle | src/com.elgato.sample-indicator-plugin.sdPlugin/index.js:7 | with min <= max the result is in [min, max]; a value inside the range is kept; a value above max becomes min; a value below min (and not above max) becomes max |
| Display.CycleWrapsOneStep | src/com.elgato.sample-indicator-plugin.sdPlugin/index.js:7 | for an overshoot of at most one past either bound, cycle equals wrapping modulo the range's length (so 101 -> 0 and -1 -> 100 on 0..100) |
| Display.CycleIsNotModular | src/com.elgato.sample-indicator-plugin.sdPlugin/index.js:7 | cycle(150, 0, 100) is 0 while wrapping modulo 101 gives 49; cycle(101, 0, 100) is 0 and cycle(-1, 0, 100) is 100 |
| Display.Seed | src/com.elgato.sample-indicator-plugin.sdPlugin/index.js:92 | for a second in 0..59 the value is in 0..100 and is the floor of 100/60 times the second (r*60 <= 100*s < (r+1)*60) |
| Display.ModeStyle | src/com.elgato.sample-indicator-plugin.sdPlugin/index.js:142-160 | the modeValues table: fill none, stroke the colour, width 2 exactly outside modes 1-4; red/white/0 in mode 1, blue/yellow/4 in mode 2, white/yellow/1 in modes 3 and 4 |
| Display.OpacityFor | src/com.elgato.sample-indicator-plugin.sdPlugin/index.js:104 | the opacity is 0.5 or 1, and 0.5 exactly in mode 4 |
| Display.PanelTitle | src/com.elgato.sample-indicator-plugin.sdPlugin/index.js:108-125 | the title table: empty exactly outside modes 1-4; "Gradient BG", "Blue gradient", "Default", "Dimmed" in modes 1 to 4 |
| Display.BarBackground | src/com.elgato.sample-indicator-plugin.sdPlugin/index.js:108-125 | the bar_bg_c table: a gradient exactly in modes 1 and 2, 0:#111111,1:#999999 and 0:#003399,1:#00AAFF respectively, null otherwise |
| Display.CreateIcon | src/com.elgato.sample-indicator-plugin.sdPlugin/index.js:138-168 | the icon's size is iconSize and its radius 24; the polygon stroke is the controller colour in every mode; the text is the mode; fill and stroke width are none/2, red/0, blue/4, white/1 for modes 0, 1, 2, 3-4; the font is black in modes 3 and 4 and the colour otherwise |
| Display.ModeStrokeOnlyDrawnInModeZero | src/com.elgato.sample-indicator-plugin.sdPlugin/index.js:142-164 | among the cyclic modes, the stroke computed in modeValues equals the drawn stroke only in mode 0 (for a colour other than white or yellow) |
| Display.PanelLook | src/com.elgato.sample-indicator-plugin.sdPlugin/index.js:108-125 | among the cyclic modes only modes 1 and 2 give the bar a gradient, and the two gradients differ; only mode 0 has an empty title; the five titles are distinct |
| Display.Render | src/com.elgato.sample-indicator-plugin.sdPlugin/index.js:101-136 | in manual mode nothing is sent; otherwise an encoder gets one panel feedback then one image and a key only the image; the feedback's value and indicator value are the clock value; its opacity is 0.5 in mode 4 and 1 otherwise; its title and bar follow the mode; its icon is the image sent |
| Display.NextMode | src/com.elgato.sample-indicator-plugin.sdPlugin/index.js:85 | from any non-negative mode the next mode is a cyclic mode 0..4, and modes 0..3 advance by one |
| Display.Toggled | src/com.elgato.sample-indicator-plugin.sdPlugin/index.js:84-87 | after at least one toggle the mode is a cyclic mode |
| Display.ToggledAdvances | src/com.elgato.sample-indicator-plugin.sdPlugin/index.js:84-87 | from a cyclic mode, n toggles give (mode + n) % 5 |
| Display.FiveTogglesReturn | src/com.elgato.sample-indicator-plugin.sdPlugin/index.js:84-87 | five toggles return every cyclic mode to itself, and fewer than five never do |
| Display.ToggleLeavesManual | src/com.elgato.sample-indicator-plugin.sdPlugin/index.js:85 | toggling from manual mode 6 lands on mode 2 |
| Display.RotatedValue | src/com.elgato.sample-indicator-plugin.sdPlugin/index.js:89-94 | the new manual value is in 0..100; unseeded (-1) it starts from the clock value, else from the stored value; with start the clock value when unseeded (-1) and the stored value otherwise, start + ticks is kept when in 0..100, becomes 0 above 100 and 100 below 0 |
| Display.RotatedMany | src/com.elgato.sample-indicator-plugin.sdPlugin/index.js:89-94 | after one or more rotations the manual value is in 0..100 |
| Display.SeededIgnoresClock | src/com.elgato.sample-indicator-plugin.sdPlugin/index.js:91-94 | once the manual value is seeded, any series of rotations gives the same value whatever the clock says |
| Display.SeededAtMostOnce | src/com.elgato.sample-indicator-plugin.sdPlugin/index.js:91-94 | starting unseeded, a series of rotations depends on the clock only at the first rotation |
| Controller.SampleIndicatorAction.constructor | src/com.elgato.sample-indicator-plugin.sdPlugin/index.js:55-76 | encoder iff the controller kind is "Encoder"; 100x50 for encoders and 144x144 for keys; mode 0, manual value -1, colour #EFEFEF; the timer is running; exactly one update's emissions have been sent |
| Controller.SampleIndicatorAction.Init | src/com.elgato.sample-indicator-plugin.sdPlugin/index.js:78-82 | the timer is running afterwards |
| Controller.SampleIndicatorAction.Tick | src/com.elgato.sample-indicator-plugin.sdPlugin/index.js:79-81 | while the timer runs a firing is one update; once it is cleared a firing changes nothing |
| Controller.SampleIndicatorAction.ClearTimer | src/com.elgato.sample-indicator-plugin.sdPlugin/index.js:19 | the timer is stopped |
| Controller.SampleIndicatorAction.Toggle | src/com.elgato.sample-indicator-plugin.sdPlugin/index.js:84-87 | the mode becomes NextMode of the old one (0..4, including from manual mode); the opacity matches the new mode; exactly the new mode's update emissions are appended |
| Controller.SampleIndicatorAction.ManualRotate | src/com.elgato.sample-indicator-plugin.sdPlugin/index.js:89-99 | the mode becomes 6 from any mode; the manual value becomes RotatedValue of the old one, so it is in 0..100; exactly one feedback is sent, with value and indicator both the new manual value, and no image |
| Controller.SampleIndicatorAction.Update | src/com.elgato.sample-indicator-plugin.sdPlugin/index.js:101-136 | appends exactly Render's emissions for the current mode, colour and second; in manual mode nothing changes, opacity included; otherwise the opacity becomes the mode's |
| Controller.ToggleFiveTimes | src/com.elgato.sample-indicator-plugin.sdPlugin/index.js:84-87 | five toggles of a controller in a cyclic mode leave it in that mode |
| Plugin.ActionCache.constructor | src/com.elgato.sample-indicator-plugin.sdPlugin/index.js:6 | the cache starts empty |
| Plugin.ActionCache.WillAppear | src/com.elgato.sample-indicator-plugin.sdPlugin/index.js:12-15 | a fresh controller (mode 0, manual value -1, colour #EFEFEF, timer running, one update sent) is filed under the context; every other entry is kept |
| Plugin.ActionCache.WillDisappear | src/com.elgato.sample-indicator-plugin.sdPlugin/index.js:17-21 | the controller's timer is stopped and only its entry is removed; nothing else about it changes; every remaining controller keeps a running timer |
| Plugin.ActionCache.TitleParametersDidChange | src/com.elgato.sample-indicator-plugin.sdPlugin/index.js:23-26 | the colour becomes the title colour; mode, manual value, opacity and sent log are unchanged, and the timer still runs |
| Plugin.ActionCache.KeyUp | src/com.elgato.sample-indicator-plugin.sdPlugin/index.js:28-31 | every key release toggles the context's controller; its manual value and colour are unchanged and its timer still runs |
| Plugin.ActionCache.DialPress | src/com.elgato.sample-indicator-plugin.sdPlugin/index.js:33-38 | the controller toggles iff the payload has pressed === false, keeping its manual value, colour and running timer; any other press changes nothing and needs no controller for the context |
| Plugin.ActionCache.DialRotate | src/com.elgato.sample-indicator-plugin.sdPlugin/index.js:40-45 | a payload with ticks is a manual rotation by them, keeping opacity, colour and running timer; a payload without ticks changes nothing and needs no controller for the context |
| Plugin.ActionCache.TouchTap | src/com.elgato.sample-indicator-plugin.sdPlugin/index.js:47-52 | the controller toggles iff the payload has hold === false, keeping its manual value, colour and running timer; any other tap changes nothing and needs no controller for the context |

## Left out

- The host bridge `$SD` and the `Action` registration (index.js:1-3, 10) are foreign code. Their calls are entries of the log `Sent`, and the handlers are methods of `ActionCache`.
- The scheduling of `setInterval` is left out. Each firing is a call of `Tick`, and nothing bounds how many happen or when.
- `new Date().getSeconds()` is the parameter `second`. Floating-point arithmetic is not modelled; the indicator value is integer division, which equals the source's floor on 0..59.
- The SVG text is left out: its markup, whitespace, the star's fixed points and the `data:image/svg+xml` encoding. The icon is the record `IconParams` of the attributes the code varies. The text's y position, `r + r / 3`, is derived from `radius` and not kept.
- Events that look up a context with no controller throw in the source (`MACTIONS[context]` is undefined): `onWillDisappear`, `onTitleParametersDidChange`, `onKeyUp`, and the acting branch of `onDialPress`, `onDialRotate` and `onTouchTap`. Those handlers require the context to be present. An event the last three ignore needs no controller, and the model accepts it for any context.
- `Controller.SampleIndicatorAction.constructor`: the source leaves `opacity` undefined until the constructor's first `update`. The model starts it at 1, which that update then confirms for mode 0.
- `context` is any string. The source passes it through to the host, and the model does not constrain it.
- The payload field `ticks` is taken to be an integer when present. The source does not check its type.
