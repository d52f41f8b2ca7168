/** The action cache `MACTIONS` and the event handlers registered on the
    action: they create and drop controllers as keys and dials appear and
    disappear, and turn host events into `toggle`, `manualRotate` or a colour
    change. A payload field the host may leave out is an `Option`. */
module Plugin {
  import opened Display
  import opened Controller

  class ActionCache {
    /** `MACTIONS`: the controller of each visible context. */
    var actions: map<string, SampleIndicatorAction>

    /** Every controller is filed under its own context, is valid, and has
        its interval running: it is started on appearing and cleared only on
        disappearing. */
    ghost predicate Valid()
      reads this, actions.Values
    {
      forall k | k in actions :: actions[k].context == k && actions[k].Valid() && actions[k].timerActive
    }

    constructor ()
      ensures Valid() && actions == map[]
    {
      actions := map[];
    }

    /** `onWillAppear`: a fresh controller is filed under `context`, replacing
        any controller that was there; the replaced one is left as it was. */
    method WillAppear(context: string, controller: string, second: int)
      requires Valid() && 0 <= second < 60
      modifies this
      ensures Valid()
      ensures context in actions && fresh(actions[context])
      ensures actions == old(actions)[context := actions[context]]
      ensures var c := actions[context];
        c.isEncoder == (controller == "Encoder") &&
        c.mode == 0 && c.manualValue == -1 && c.color == DefaultColor && c.timerActive &&
        c.Sent == Render(context, c.isEncoder, 0, DefaultColor, c.iconSize, c.scale, second)
    {
      var c := new SampleIndicatorAction(context, controller, second);
      actions := actions[context := c];
    }

    /** `onWillDisappear`: stops the controller's timer and removes only its
        entry. */
    method WillDisappear(context: string)
      requires Valid() && context in actions
      modifies this, actions[context]
      ensures Valid()
      ensures actions == old(actions) - {context}
      ensures var c := old(actions[context]);
        !c.timerActive &&
        c.mode == old(c.mode) && c.manualValue == old(c.manualValue) &&
        c.color == old(c.color) && c.opacity == old(c.opacity) && c.Sent == old(c.Sent)
    {
      var c := actions[context];
      c.ClearTimer();
      actions := actions - {context};
    }

    /** `onTitleParametersDidChange`: takes the title colour as the drawing
        colour; nothing is drawn until the next update. */
    method TitleParametersDidChange(context: string, titleColor: string)
      requires Valid() && context in actions
      modifies actions[context]
      ensures Valid()
      ensures var c := actions[context];
        c.color == titleColor &&
        c.mode == old(c.mode) && c.manualValue == old(c.manualValue) &&
        c.opacity == old(c.opacity) && c.timerActive && c.Sent == old(c.Sent)
    {
      actions[context].color := titleColor;
    }

    /** `onKeyUp`: every key release toggles. */
    method KeyUp(context: string, second: int)
      requires Valid() && context in actions && 0 <= second < 60
      modifies actions[context]
      ensures Valid()
      ensures var c := actions[context];
        c.mode == NextMode(old(c.mode)) &&
        c.Sent == old(c.Sent) + Render(context, c.isEncoder, c.mode, c.color, c.iconSize, c.scale, second) &&
        c.manualValue == old(c.manualValue) && c.color == old(c.color) && c.timerActive
    {
      actions[context].Toggle(second);
    }

    /** `onDialPress`: toggles only when the payload says `pressed: false`
        (the dial was released). Any other press is ignored without looking
        the context up, so it needs no controller. */
    method DialPress(context: string, pressed: Option<bool>, second: int)
      requires Valid() && 0 <= second < 60
      requires pressed == Some(false) ==> context in actions
      modifies if context in actions then {actions[context]} else {}
      ensures Valid()
      ensures pressed != Some(false) && context in actions ==> unchanged(actions[context])
      ensures pressed == Some(false) ==>
        var c := actions[context];
          c.mode == NextMode(old(c.mode)) &&
          c.Sent == old(c.Sent) + Render(context, c.isEncoder, c.mode, c.color, c.iconSize, c.scale, second) &&
          c.manualValue == old(c.manualValue) && c.color == old(c.color) && c.timerActive
    {
      if pressed == Some(false) {
        actions[context].Toggle(second);
      }
    }

    /** `onDialRotate`: a payload carrying `ticks` is a manual rotation; any
        other is ignored without looking the context up. */
    method DialRotate(context: string, ticks: Option<int>, second: int)
      requires Valid() && 0 <= second < 60
      requires ticks.Some? ==> context in actions
      modifies if context in actions then {actions[context]} else {}
      ensures Valid()
      ensures ticks.None? && context in actions ==> unchanged(actions[context])
      ensures ticks.Some? ==>
        var c := actions[context];
          c.mode == Manual &&
          c.manualValue == RotatedValue(old(c.manualValue), ticks.value, second) &&
          c.Sent == old(c.Sent) + [SetFeedback(context, RotateFeedback(c.manualValue, c.manualValue))] &&
          c.opacity == old(c.opacity) && c.color == old(c.color) && c.timerActive
    {
      if ticks.Some? {
        actions[context].ManualRotate(ticks.value, second);
      }
    }

    /** `onTouchTap`: toggles only when the payload says `hold: false` (a tap,
        not a long press). Any other tap is ignored without looking the
        context up. */
    method TouchTap(context: string, hold: Option<bool>, second: int)
      requires Valid() && 0 <= second < 60
      requires hold == Some(false) ==> context in actions
      modifies if context in actions then {actions[context]} else {}
      ensures Valid()
      ensures hold != Some(false) && context in actions ==> unchanged(actions[context])
      ensures hold == Some(false) ==>
        var c := actions[context];
          c.mode == NextMode(old(c.mode)) &&
          c.Sent == old(c.Sent) + Render(context, c.isEncoder, c.mode, c.color, c.iconSize, c.scale, second) &&
          c.manualValue == old(c.manualValue) && c.color == old(c.color) && c.timerActive
    {
      if hold == Some(false) {
        actions[context].Toggle(second);
      }
    }
  }

  /** A client of the handlers: a key appears, is pressed once, and
      disappears; its timer can fire afterwards without drawing anything. */
  method KeyLifecycle(second: int)
    requires 0 <= second < 60
  {
    var cache := new ActionCache();
    cache.WillAppear("key", "Keypad", second);
    var c := cache.actions["key"];
    assert !c.isEncoder && |c.Sent| == 1;
    cache.KeyUp("key", second);
    assert c.mode == 1 && |c.Sent| == 2;
    assert c.Sent[1].icon.fill == "red" && c.Sent[1].icon.strokeWidth == 0;
    assert c.Sent[1].icon.stroke == DefaultColor;
    cache.WillDisappear("key");
    assert "key" !in cache.actions;
    c.Tick(second);
    assert |c.Sent| == 2;
    // Events the handlers ignore need no controller for their context.
    cache.DialPress("key", Some(true), second);
    cache.DialRotate("key", None, second);
    cache.TouchTap("key", None, second);
    assert "key" !in cache.actions && |c.Sent| == 2;
  }
}
