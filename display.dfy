/** The pure parts of the sample indicator plugin: the `cycle` helper, the
    clock-derived indicator value, the icon `createIcon` draws, the payloads
    `update` and `manualRotate` hand to the host, and the arithmetic of the
    display modes. The controller class in controller.dfy is specified in
    terms of these functions. */
module Display {

  datatype Option<T> = None | Some(value: T)

  /** Number of cyclic display modes (`this.numModes`). */
  const NumModes: int := 5
  /** The manual mode that `manualRotate` enters: `numModes + 1`, i.e. 6. */
  const Manual: int := NumModes + 1
  /** The colour a fresh controller draws with, before the host reports a title colour. */
  const DefaultColor: string := "#EFEFEF"
  /** `this.scale`: icons are drawn at twice their nominal size. */
  const Scale: int := 2
  /** Nominal side of the icon; `this.iconSize` is this times the scale. */
  const BaseIconSize: int := 48

  /** The modes a controller can be in: the cyclic ones and the manual one. */
  predicate IsMode(mode: int) {
    0 <= mode < NumModes || mode == Manual
  }

  // ---------------------------------------------------------------------------
  // cycle

  /** `cycle(idx, min, max)`: a value above `max` snaps to `min`, one below
      `min` snaps to `max`, anything else is kept. */
  function Cycle(idx: int, min: int, max: int): (r: int)
    ensures min <= max ==> min <= r <= max
    ensures min <= idx <= max ==> r == idx
    ensures idx > max ==> r == min
    ensures idx < min && idx <= max ==> r == max
  {
    if idx > max then min else if idx < min then max else idx
  }

  /** For an overshoot of at most one step past either bound, `cycle` agrees
      with wrapping modulo the length of the range. */
  lemma CycleWrapsOneStep(idx: int, min: int, max: int)
    requires min <= max
    requires min - 1 <= idx <= max + 1
    ensures Cycle(idx, min, max) == min + (idx - min) % (max - min + 1)
  {
  }

  /** Past one step `cycle` is not a modular wrap: 150 becomes 0, where
      wrapping modulo 101 would give 49. */
  lemma CycleIsNotModular()
    ensures Cycle(150, 0, 100) == 0 && 150 % 101 == 49
    ensures Cycle(101, 0, 100) == 0 && Cycle(-1, 0, 100) == 100
  {
  }

  // ---------------------------------------------------------------------------
  // The clock-derived value

  /** `Math.floor(100 / 60 * second)`: the current second scaled to 0..100. */
  function Seed(second: int): (r: int)
    requires 0 <= second < 60
    ensures 0 <= r <= 100
    ensures r * 60 <= 100 * second < (r + 1) * 60
  {
    (100 * second) / 60
  }

  // ---------------------------------------------------------------------------
  // The icon

  /** The attributes of the SVG document `createIcon` returns. */
  datatype IconParams = IconParams(
    size: int,          // width, height and viewBox side
    scale: int,         // the group's scale transform
    opacity: real,      // the group's opacity
    fill: string,       // polygon fill
    strokeWidth: int,   // polygon stroke width
    stroke: string,     // polygon stroke
    fontColor: string,  // text fill
    radius: int,        // text x, and font size
    text: int)          // the text: the mode number

  /** The `modeValues` record of `createIcon`. */
  datatype ModeValues = ModeValues(fill: string, stroke: string, strokeWidth: int)

  function ModeStyle(mode: int, color: string): (style: ModeValues)
    ensures style.fill == "none" <==> !(1 <= mode <= 4)
    ensures style.fill == "none" ==> style.stroke == color && style.strokeWidth == 2
    ensures mode == 1 ==> style == ModeValues("red", "white", 0)
    ensures mode == 2 ==> style == ModeValues("blue", "yellow", 4)
    ensures mode == 3 || mode == 4 ==> style == ModeValues("white", "yellow", 1)
  {
    if mode == 1 then ModeValues("red", "white", 0)
    else if mode == 2 then ModeValues("blue", "yellow", 4)
    else if mode == 3 || mode == 4 then ModeValues("white", "yellow", 1)
    else ModeValues("none", color, 2)
  }

  /** `this.opacity` as `update` sets it: dimmed in mode 4. */
  function OpacityFor(mode: int): (o: real)
    ensures o == 0.5 || o == 1.0
    ensures o == 0.5 <==> mode == 4
  {
    if mode == 4 then 0.5 else 1.0
  }

  /** `createIcon`: the star glyph and the mode label. The polygon's stroke is
      the controller colour whatever the mode; the stroke in `modeValues` is
      never drawn. */
  function CreateIcon(mode: int, color: string, opacity: real, iconSize: int, scale: int): (icon: IconParams)
    requires scale > 0 && iconSize == BaseIconSize * scale
    ensures icon.size == iconSize && icon.scale == scale && icon.opacity == opacity
    ensures icon.radius == BaseIconSize / 2 == 24
    ensures icon.stroke == color
    ensures icon.text == mode
    ensures icon.fontColor == (if mode == 3 || mode == 4 then "black" else color)
    ensures mode == 1 ==> icon.fill == "red" && icon.strokeWidth == 0
    ensures mode == 2 ==> icon.fill == "blue" && icon.strokeWidth == 4
    ensures mode == 3 || mode == 4 ==> icon.fill == "white" && icon.strokeWidth == 1
    ensures !(1 <= mode <= 4) ==> icon.fill == "none" && icon.strokeWidth == 2
  {
    var modeValues := ModeStyle(mode, color);
    var fontColor := if mode == 3 || mode == 4 then "black" else color;
    IconParams(iconSize, scale, opacity, modeValues.fill, modeValues.strokeWidth,
               color, fontColor, iconSize / (2 * scale), mode)
  }

  /** Only in mode 0 does the stroke `modeValues` computes match what is drawn. */
  lemma ModeStrokeOnlyDrawnInModeZero(mode: int, color: string)
    requires 0 <= mode < NumModes
    requires color != "white" && color != "yellow"
    ensures ModeStyle(mode, color).stroke == CreateIcon(mode, color, OpacityFor(mode), BaseIconSize * Scale, Scale).stroke
            <==> mode == 0
  {
  }

  // ---------------------------------------------------------------------------
  // Host payloads

  /** The indicator bar of an encoder's feedback. */
  datatype Indicator = Indicator(value: int, opacity: real, barBackground: Option<string>)

  /** Feedback payloads: the one `manualRotate` sends and the one `update`
      sends to encoders. */
  datatype Feedback =
    | RotateFeedback(value: int, indicatorValue: int)  // keys `value` and `indicator`
    | PanelFeedback(title: string, value: int, indicator: Indicator, icon: IconParams)

  /** One call into the host: `$SD.setImage` or `$SD.setFeedback`. */
  datatype Emission =
    | SetImage(context: string, icon: IconParams)
    | SetFeedback(context: string, payload: Feedback)

  /** The encoder panel's title in each mode. */
  function PanelTitle(mode: int): (title: string)
    ensures title == "" <==> !(1 <= mode <= 4)
    ensures mode == 1 ==> title == "Gradient BG"
    ensures mode == 2 ==> title == "Blue gradient"
    ensures mode == 3 ==> title == "Default"
    ensures mode == 4 ==> title == "Dimmed"
  {
    if mode == 1 then "Gradient BG"
    else if mode == 2 then "Blue gradient"
    else if mode == 3 then "Default"
    else if mode == 4 then "Dimmed"
    else ""
  }

  /** The indicator bar's background gradient in each mode (`null` is `None`). */
  function BarBackground(mode: int): (bar: Option<string>)
    ensures bar.Some? <==> mode == 1 || mode == 2
    ensures mode == 1 ==> bar == Some("0:#111111,1:#999999")
    ensures mode == 2 ==> bar == Some("0:#003399,1:#00AAFF")
  {
    if mode == 1 then Some("0:#111111,1:#999999")
    else if mode == 2 then Some("0:#003399,1:#00AAFF")
    else None
  }

  /** Over the cyclic modes, only modes 1 and 2 colour the bar, each with its
      own gradient, and only mode 0 leaves the title empty. */
  lemma PanelLook(mode: int)
    requires 0 <= mode < NumModes
    ensures BarBackground(mode).Some? <==> mode == 1 || mode == 2
    ensures BarBackground(1) != BarBackground(2)
    ensures PanelTitle(mode) == "" <==> mode == 0
    ensures forall m | 0 <= m < NumModes && m != mode :: PanelTitle(m) != PanelTitle(mode)
  {
  }

  /** What one call of `update` sends to the host, in order. */
  function Render(context: string, isEncoder: bool, mode: int, color: string,
                  iconSize: int, scale: int, second: int): (sent: seq<Emission>)
    requires 0 <= second < 60
    requires scale > 0 && iconSize == BaseIconSize * scale
    ensures mode == Manual ==> sent == []
    ensures mode != Manual ==>
      |sent| == (if isEncoder then 2 else 1) &&
      sent[|sent| - 1] == SetImage(context, CreateIcon(mode, color, OpacityFor(mode), iconSize, scale))
    ensures mode != Manual && isEncoder ==>
      sent[0].SetFeedback? && sent[0].context == context &&
      sent[0].payload.PanelFeedback? &&
      sent[0].payload.value == sent[0].payload.indicator.value == Seed(second) &&
      sent[0].payload.indicator.opacity == sent[1].icon.opacity == OpacityFor(mode) &&
      sent[0].payload.indicator.barBackground == BarBackground(mode) &&
      sent[0].payload.title == PanelTitle(mode) &&
      sent[0].payload.icon == sent[1].icon
  {
    if mode == Manual then []
    else
      var indicatorValue := Seed(second);
      var opacity := OpacityFor(mode);
      var icon := CreateIcon(mode, color, opacity, iconSize, scale);
      var feedback := PanelFeedback(PanelTitle(mode), indicatorValue,
                                    Indicator(indicatorValue, opacity, BarBackground(mode)), icon);
      (if isEncoder then [SetFeedback(context, feedback)] else []) + [SetImage(context, icon)]
  }

  // ---------------------------------------------------------------------------
  // Mode arithmetic

  /** The mode `toggle` moves to: `(mode + 1) % numModes`. */
  function NextMode(mode: int): (next: int)
    requires mode >= 0
    ensures 0 <= next < NumModes
    ensures mode < NumModes - 1 ==> next == mode + 1
  {
    (mode + 1) % NumModes
  }

  /** The mode after `n` toggles. */
  function Toggled(mode: int, n: nat): (m: int)
    requires mode >= 0
    ensures m >= 0
    ensures n > 0 ==> m < NumModes
  {
    if n == 0 then mode else NextMode(Toggled(mode, n - 1))
  }

  /** From a cyclic mode, `n` toggles advance the mode by `n` modulo 5. */
  lemma {:induction false} ToggledAdvances(mode: int, n: nat)
    requires 0 <= mode < NumModes
    ensures Toggled(mode, n) == (mode + n) % NumModes
  {
    if n > 0 {
      ToggledAdvances(mode, n - 1);
    }
  }

  /** Five toggles bring every cyclic mode back to itself. */
  lemma FiveTogglesReturn(mode: int)
    requires 0 <= mode < NumModes
    ensures Toggled(mode, NumModes) == mode
    ensures forall n: nat | 0 < n < NumModes :: Toggled(mode, n) != mode
  {
    ToggledAdvances(mode, NumModes);
    forall n: nat | 0 < n < NumModes
      ensures Toggled(mode, n) != mode
    {
      ToggledAdvances(mode, n);
    }
  }

  /** `toggle` does leave manual mode: from 6 it lands on 2. */
  lemma ToggleLeavesManual()
    ensures NextMode(Manual) == 2
  {
  }

  // ---------------------------------------------------------------------------
  // Manual rotation

  /** `manualValue` after `manualRotate(ticks)`: seeded from the clock while it
      is still -1, then moved by `ticks` and kept in 0..100 by `cycle`. */
  function RotatedValue(manualValue: int, ticks: int, second: int): (v: int)
    requires manualValue == -1 || 0 <= manualValue <= 100
    requires 0 <= second < 60
    ensures 0 <= v <= 100
    ensures var start := if manualValue == -1 then Seed(second) else manualValue;
      (0 <= start + ticks <= 100 ==> v == start + ticks) &&
      (start + ticks > 100 ==> v == 0) &&
      (start + ticks < 0 ==> v == 100)
  {
    var start := if manualValue == -1 then Seed(second) else manualValue;
    Cycle(start + ticks, 0, 100)
  }

  /** `manualValue` after a series of rotations, the i-th of `ticks` happening
      at second `seconds[i]`. */
  function RotatedMany(manualValue: int, ticks: seq<int>, seconds: seq<int>): (v: int)
    requires manualValue == -1 || 0 <= manualValue <= 100
    requires |seconds| == |ticks|
    requires forall i | 0 <= i < |seconds| :: 0 <= seconds[i] < 60
    ensures v == -1 || 0 <= v <= 100
    ensures |ticks| > 0 ==> 0 <= v <= 100
    decreases |ticks|
  {
    if |ticks| == 0 then manualValue
    else RotatedMany(RotatedValue(manualValue, ticks[0], seconds[0]), ticks[1..], seconds[1..])
  }

  /** Once seeded, the value no longer depends on the clock. */
  lemma {:induction false} SeededIgnoresClock(manualValue: int, ticks: seq<int>, seconds1: seq<int>, seconds2: seq<int>)
    requires 0 <= manualValue <= 100
    requires |seconds1| == |seconds2| == |ticks|
    requires forall i | 0 <= i < |ticks| :: 0 <= seconds1[i] < 60 && 0 <= seconds2[i] < 60
    ensures RotatedMany(manualValue, ticks, seconds1) == RotatedMany(manualValue, ticks, seconds2)
    decreases |ticks|
  {
    if |ticks| > 0 {
      var next := RotatedValue(manualValue, ticks[0], seconds1[0]);
      assert next == RotatedValue(manualValue, ticks[0], seconds2[0]);
      SeededIgnoresClock(next, ticks[1..], seconds1[1..], seconds2[1..]);
    }
  }

  /** The clock is read at most once per controller: any series of rotations
      from the unseeded value depends only on the second of the first one. */
  lemma SeededAtMostOnce(ticks: seq<int>, seconds1: seq<int>, seconds2: seq<int>)
    requires |seconds1| == |seconds2| == |ticks| > 0
    requires forall i | 0 <= i < |ticks| :: 0 <= seconds1[i] < 60 && 0 <= seconds2[i] < 60
    requires seconds1[0] == seconds2[0]
    ensures RotatedMany(-1, ticks, seconds1) == RotatedMany(-1, ticks, seconds2)
  {
    var first := RotatedValue(-1, ticks[0], seconds1[0]);
    SeededIgnoresClock(first, ticks[1..], seconds1[1..], seconds2[1..]);
  }
}
