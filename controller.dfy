/** The per-button display controller, `SampleIndicatorAction`. The host
    calls it makes are appended to the ghost log `Sent`; the periodic timer is
    the flag `timerActive`, and each firing of it is a call of `Tick`; the
    wall-clock second is the parameter `second`. */
module Controller {
  import opened Display

  class SampleIndicatorAction {
    const context: string
    const isEncoder: bool
    const width: int
    const height: int
    const numModes: int
    const scale: int
    const iconSize: int
    var color: string
    var mode: int
    var manualValue: int
    var opacity: real
    /** Whether the interval started by `init` is still running. */
    var timerActive: bool
    /** Every `$SD.setImage` and `$SD.setFeedback` call made so far, in order. */
    ghost var Sent: seq<Emission>

    /** The object invariant: the fields are well formed and the opacity is
        the one the current mode draws with. */
    ghost predicate Valid()
      reads this
    {
      WellFormed() && Drawn()
    }

    /** The fixed geometry, a mode the source can be in, a manual value that is
        unseeded or in 0..100, and one of the two opacities. */
    ghost predicate WellFormed()
      reads this
    {
      numModes == NumModes && scale == Scale && iconSize == BaseIconSize * scale &&
      IsMode(mode) &&
      (manualValue == -1 || 0 <= manualValue <= 100) &&
      (opacity == 0.5 || opacity == 1.0)
    }

    /** The opacity is the one the current mode draws with; it is kept from
        the last cyclic mode while the controller is in manual mode. */
    ghost predicate Drawn()
      reads this
    {
      mode != Manual ==> opacity == OpacityFor(mode)
    }

    /** A controller for the key or dial `context`; `controller` is the kind
        the host reports. It starts its timer and draws itself once. */
    constructor (context: string, controller: string, second: int)
      requires 0 <= second < 60
      ensures Valid()
      ensures this.context == context && isEncoder == (controller == "Encoder")
      ensures (width, height) == (if isEncoder then (100, 50) else (144, 144))
      ensures mode == 0 && manualValue == -1 && color == DefaultColor
      ensures timerActive
      ensures Sent == Render(context, isEncoder, 0, DefaultColor, iconSize, scale, second)
    {
      isEncoder := controller == "Encoder";
      this.context := context;
      manualValue := -1;
      if controller == "Encoder" {
        width, height := 100, 50;
      } else {
        width, height := 144, 144;
      }
      numModes := NumModes;
      scale := Scale;
      iconSize := BaseIconSize * Scale;
      color := DefaultColor;
      mode := 0;
      // The source leaves the opacity unset until the first update below.
      opacity := 1.0;
      timerActive := false;
      Sent := [];
      new;
      Init();
      Update(second);
    }

    /** `init`: starts the one-second interval that calls `update`. */
    method Init()
      modifies this`timerActive
      ensures timerActive
    {
      timerActive := true;
    }

    /** One firing of the interval: `update`, while the interval runs. */
    method Tick(second: int)
      requires Valid() && 0 <= second < 60
      modifies this`opacity, this`Sent
      ensures Valid()
      ensures !timerActive ==> unchanged(this)
      ensures timerActive ==>
        Sent == old(Sent) + Render(context, isEncoder, mode, color, iconSize, scale, second) &&
        opacity == (if mode == Manual then old(opacity) else OpacityFor(mode))
    {
      if timerActive {
        Update(second);
      }
    }

    /** `clearInterval`: stops the timer. */
    method ClearTimer()
      modifies this`timerActive
      ensures !timerActive
    {
      timerActive := false;
    }

    /** `toggle`: the next cyclic mode, then `update`. From manual mode this
        lands on mode 2. */
    method Toggle(second: int)
      requires Valid() && 0 <= second < 60
      modifies this`mode, this`opacity, this`Sent
      ensures Valid()
      ensures mode == NextMode(old(mode)) && 0 <= mode < NumModes
      ensures opacity == OpacityFor(mode)
      ensures Sent == old(Sent) + Render(context, isEncoder, mode, color, iconSize, scale, second)
    {
      mode := (mode + 1) % numModes;
      Update(second);
    }

    /** `manualRotate(ticks)`: enters manual mode, seeds the value from the
        clock the first time, moves it by `ticks` within 0..100 and sends it
        as feedback only. */
    method ManualRotate(ticks: int, second: int)
      requires Valid() && 0 <= second < 60
      modifies this`mode, this`manualValue, this`Sent
      ensures Valid()
      ensures mode == Manual
      ensures manualValue == RotatedValue(old(manualValue), ticks, second)
      ensures 0 <= manualValue <= 100
      ensures Sent == old(Sent) + [SetFeedback(context, RotateFeedback(manualValue, manualValue))]
    {
      mode := numModes + 1;
      if manualValue == -1 {
        manualValue := Seed(second);
      }
      manualValue := Cycle(manualValue + ticks, 0, 100);
      Sent := Sent + [SetFeedback(context, RotateFeedback(manualValue, manualValue))];
    }

    /** `update`: nothing in manual mode; otherwise sets the opacity and sends
        the panel feedback (encoders only) and then the icon. It is called
        right after `toggle` changes the mode, so it needs only a well-formed
        state, and it leaves a valid one. */
    method Update(second: int)
      requires WellFormed() && 0 <= second < 60
      modifies this`opacity, this`Sent
      ensures Valid()
      ensures Sent == old(Sent) + Render(context, isEncoder, mode, color, iconSize, scale, second)
      ensures opacity == (if mode == Manual then old(opacity) else OpacityFor(mode))
    {
      if mode == numModes + 1 {
        return;
      }
      var indicatorValue := Seed(second);
      opacity := if mode == 4 then 0.5 else 1.0;
      var icon := CreateIcon(mode, color, opacity, iconSize, scale);
      if isEncoder {
        var indicator := Indicator(indicatorValue, opacity, None);
        var title := "";
        if mode == 1 {
          title := "Gradient BG";
          indicator := indicator.(barBackground := Some("0:#111111,1:#999999"));
        } else if mode == 2 {
          title := "Blue gradient";
          indicator := indicator.(barBackground := Some("0:#003399,1:#00AAFF"));
        } else if mode == 3 {
          title := "Default";
          indicator := indicator.(barBackground := None);
        } else if mode == 4 {
          title := "Dimmed";
        }
        Sent := Sent + [SetFeedback(context, PanelFeedback(title, indicatorValue, indicator, icon))];
      }
      Sent := Sent + [SetImage(context, icon)];
    }
  }

  /** A client of the class: five key presses bring a controller in a cyclic
      mode back to that mode. */
  method ToggleFiveTimes(c: SampleIndicatorAction, second: int)
    requires c.Valid() && 0 <= c.mode < NumModes && 0 <= second < 60
    modifies c
    ensures c.Valid() && c.mode == old(c.mode)
  {
    ghost var start := c.mode;
    c.Toggle(second);
    c.Toggle(second);
    c.Toggle(second);
    c.Toggle(second);
    c.Toggle(second);
    FiveTogglesReturn(start);
  }
}
