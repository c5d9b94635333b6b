/**
 * A taskbar button for one window: its title text, the click rule, the
 * drag-dwell timer that raises the window while something is dragged over
 * the button, the actions of its context menu and how the menu is built.
 *
 * Requests to the window manager that it may or may not honour (activation,
 * forced activation, minimisation) are appended to a request log. The window
 * state flags and the window's desktop are fields that the state-changing
 * actions update, the window manager being taken to apply every setState,
 * clearState and setOnDesktop exactly.
 */
module TaskButton {
  import opened Wrappers
  import opened NetWm
  import opened TaskMenu

  /** What the button asks of the window manager. */
  datatype WmRequest = Activate | ForceActivate | MinimizeWindow

  /** The sender of a slot call: no action (a direct call), or a menu action with its data. */
  datatype Sender = NoAction | Action(data: Option<int>)

  /** Interval of the drag-dwell timer, in milliseconds. */
  const DndDelayMs := 700

  // ---------------------------------------------------------------------
  // The drag-dwell timer as a machine over drag events.

  /** The events that reach the drag-dwell logic: the three drag events and the timer's timeout. */
  datatype DragEvent = DragEnter | DragLeave | Drop | TimerFired

  /**
   * One step: entering (re)starts the single-shot timer, leaving and dropping
   * stop it, and a timeout of a running timer stops it and raises then
   * force-activates the window; a stopped timer has no timeout.
   */
  function DragStep(armed: bool, e: DragEvent): (bool, seq<WmRequest>) {
    match e
    case DragEnter => (true, [])
    case DragLeave => (false, [])
    case Drop => (false, [])
    case TimerFired => if armed then (false, [Activate, ForceActivate]) else (false, [])
  }

  /** A run of events from a timer state: the final timer state and every request made on the way. */
  function DragRun(armed: bool, es: seq<DragEvent>): (bool, seq<WmRequest>)
    decreases |es|
  {
    if es == [] then (armed, [])
    else
      var step := DragStep(armed, es[0]);
      var rest := DragRun(step.0, es[1..]);
      (rest.0, step.1 + rest.1)
  }

  /** The number of drag-enter events in a run. */
  function Enters(es: seq<DragEvent>): nat
    decreases |es|
  {
    if es == [] then 0 else (if es[0] == DragEnter then 1 else 0) + Enters(es[1..])
  }

  /** A step makes requests only when the timer fires while running, and then raises and force-activates. */
  lemma DragStepRequests(armed: bool, e: DragEvent)
    ensures DragStep(armed, e).1 != [] <==> e == TimerFired && armed
    ensures DragStep(armed, e).1 != [] ==> DragStep(armed, e).1 == [Activate, ForceActivate]
    ensures DragStep(armed, e).0 <==> e == DragEnter
  {
  }

  /** Without a drag-enter, a stopped timer never fires: no run of other events raises the window. */
  lemma {:induction false} NoRaiseWithoutEnter(es: seq<DragEvent>)
    requires forall i :: 0 <= i < |es| ==> es[i] != DragEnter
    ensures DragRun(false, es) == (false, [])
    decreases |es|
  {
    if es != [] {
      NoRaiseWithoutEnter(es[1..]);
      assert DragStep(false, es[0]) == (false, []);
      assert DragRun(false, es).1 == [] + DragRun(false, es[1..]).1;
    }
  }

  /** Leaving or dropping cancels the dwell: the timeout that follows does nothing. */
  lemma CancelledDwell(armed: bool, e: DragEvent, es: seq<DragEvent>)
    requires e == DragLeave || e == Drop
    ensures DragRun(armed, [e, TimerFired] + es) == DragRun(false, es)
  {
    var fired := [TimerFired] + es;
    var all := [e] + fired;
    assert all == [e, TimerFired] + es;
    assert all[0] == e && all[1..] == fired;
    assert fired[0] == TimerFired && fired[1..] == es;
    var rest := DragRun(false, es);
    assert DragRun(false, fired) == (rest.0, [] + rest.1);
    assert [] + rest.1 == rest.1;
    assert DragRun(armed, all) == (rest.0, [] + rest.1);
  }

  /** Dwelling long enough raises and force-activates the window once, whatever the timer did before. */
  lemma CompletedDwell(armed: bool)
    ensures DragRun(armed, [DragEnter, TimerFired]) == (false, [Activate, ForceActivate])
  {
    var all := [DragEnter, TimerFired];
    assert all[0] == DragEnter && all[1..] == [TimerFired];
    assert [TimerFired][1..] == [];
    assert DragRun(true, [TimerFired]) == (false, [Activate, ForceActivate] + []);
    assert [Activate, ForceActivate] + [] == [Activate, ForceActivate];
    assert DragRun(armed, all) == (DragRun(true, all[1..]).0, [] + DragRun(true, all[1..]).1);
    assert [] + [Activate, ForceActivate] == [Activate, ForceActivate];
  }

  /**
   * Every raise is paid for by a drag-enter (or by the timer running at the
   * start): a run makes at most two requests per enter.
   */
  lemma {:induction false} RaisesBoundedByEnters(armed: bool, es: seq<DragEvent>)
    ensures |DragRun(armed, es).1| <= 2 * (Enters(es) + if armed then 1 else 0)
    ensures DragRun(armed, es).1 == [] || Enters(es) > 0 || armed
    decreases |es|
  {
    if es != [] {
      var step := DragStep(armed, es[0]);
      RaisesBoundedByEnters(step.0, es[1..]);
    }
  }

  // ---------------------------------------------------------------------
  // The title text.

  /**
   * QString::replace("&", "&&"): every ampersand doubled, so that the toolkit
   * shows it instead of taking it as a mnemonic marker: the escaped text is
   * shown exactly as the original.
   */
  function EscapeAmpersands(s: string): (r: string)
    ensures |r| >= |s|
    ensures ShownText(r) == s
    decreases |s|
  {
    if s == [] then []
    else
      var rest := EscapeAmpersands(s[1..]);
      var r := (if s[0] == '&' then "&&" else [s[0]]) + rest;
      assert s[0] == '&' ==> r[1] == '&' && r[2..] == rest;
      assert s[0] != '&' ==> r[0] != '&' && r[1..] == rest;
      assert [s[0]] + s[1..] == s;
      r
  }

  /**
   * The text a button shows for a label: an ampersand marks the next
   * character as the mnemonic and is not shown, a doubled ampersand shows one
   * ampersand. A trailing lone ampersand is kept as shown text; that case is
   * this model's own choice, and no escaped title ends that way.
   */
  function ShownText(s: string): string
    decreases |s|
  {
    if |s| >= 2 && s[0] == '&' then [s[1]] + ShownText(s[2..])
    else if s == [] then []
    else [s[0]] + ShownText(s[1..])
  }

  /** The number of occurrences of a character. */
  function Occurrences(s: string, ch: char): nat
    decreases |s|
  {
    if s == [] then 0 else (if s[0] == ch then 1 else 0) + Occurrences(s[1..], ch)
  }

  /** Escaping adds exactly one character per ampersand and doubles the ampersands. */
  lemma {:induction false} EscapeLength(s: string)
    ensures |EscapeAmpersands(s)| == |s| + Occurrences(s, '&')
    ensures Occurrences(EscapeAmpersands(s), '&') == 2 * Occurrences(s, '&')
    decreases |s|
  {
    if s != [] {
      EscapeLength(s[1..]);
      OccurrencesAppend(if s[0] == '&' then "&&" else [s[0]], EscapeAmpersands(s[1..]), '&');
    }
  }

  /** Occurrences add up over a concatenation. */
  lemma {:induction false} OccurrencesAppend(a: string, b: string, ch: char)
    ensures Occurrences(a + b, ch) == Occurrences(a, ch) + Occurrences(b, ch)
    decreases |a|
  {
    if a != [] {
      assert (a + b)[0] == a[0] && (a + b)[1..] == a[1..] + b;
      OccurrencesAppend(a[1..], b, ch);
    } else {
      assert a + b == b;
    }
  }

  /** A title with an ampersand is changed by escaping, so a tooltip given the escaped title differs from it. */
  lemma EscapeChangesAmpersandTitles(s: string)
    requires '&' in s
    ensures EscapeAmpersands(s) != s
  {
    OccurrencesPositive(s, '&');
    EscapeLength(s);
  }

  /** A character that occurs is counted. */
  lemma {:induction false} OccurrencesPositive(s: string, ch: char)
    requires ch in s
    ensures Occurrences(s, ch) > 0
    decreases |s|
  {
    if s[0] != ch {
      assert ch in s[1..];
      OccurrencesPositive(s[1..], ch);
    }
  }

  /**
   * The requests a slot sends to the window manager: maximising and
   * de-maximising raise an inactive window, minimising asks for the
   * minimisation.
   */
  function SlotRequests(slot: Slot, active: bool): seq<WmRequest> {
    match slot
    case MaximizeSlot => if active then [] else [Activate]
    case DeMaximizeSlot => if active then [] else [Activate]
    case MinimizeSlot => [MinimizeWindow]
    case _ => []
  }

  // ---------------------------------------------------------------------
  // The button.

  class LXQtTaskButton {
    // The checkable button's checked state.
    var checked: bool
    // The drag-dwell timer: whether it runs, its interval and single-shot mode.
    var dndTimerActive: bool
    var dndIntervalMs: int
    var dndSingleShot: bool
    // What the button shows.
    var text: string
    var toolTip: string
    // The window as the window manager reports it.
    var windowState: States
    var desktop: int
    var active: bool
    // Requests made to the window manager, oldest first.
    var requests: seq<WmRequest>

    /**
     * A button for a window: checked when the window is active, its title
     * set, a stopped 700 ms single-shot drag timer.
     */
    constructor(isActive: bool, visibleName: string, name: string, state: States, windowDesktop: int)
      ensures checked == isActive && active == isActive
      ensures !dndTimerActive && dndIntervalMs == DndDelayMs && dndSingleShot
      ensures windowState == state && desktop == windowDesktop && requests == []
      ensures text == toolTip == EscapeAmpersands(if |visibleName| == 0 then name else visibleName)
    {
      active := isActive;
      windowState := state;
      desktop := windowDesktop;
      requests := [];
      checked := isActive;
      text := "";
      toolTip := "";
      dndTimerActive := false;
      new;
      UpdateText(visibleName, name);
      dndSingleShot := true;
      dndIntervalMs := DndDelayMs;
    }

    /** isApplicationActive: the window is the active window. */
    predicate IsApplicationActive()
      reads this
    {
      active
    }

    /**
     * updateText: the title is the visible name, or the name when the visible
     * name is empty; the text gets it with every ampersand doubled, and since
     * the doubling changes the title itself, the tooltip gets the doubled form
     * too.
     */
    method UpdateText(visibleName: string, name: string)
      modifies this`text, this`toolTip
      ensures text == toolTip == EscapeAmpersands(if |visibleName| == 0 then name else visibleName)
      ensures ShownText(text) == if |visibleName| == 0 then name else visibleName
    {
      var title := if |visibleName| == 0 then name else visibleName;
      title := EscapeAmpersands(title);
      text := title;
      toolTip := title;
    }

    /** raiseApplication: asks for the window's activation. */
    method RaiseApplication()
      modifies this`requests
      ensures requests == old(requests) + [Activate]
    {
      requests := requests + [Activate];
    }

    /** minimizeApplication: asks for the window's minimisation. */
    method MinimizeApplication()
      modifies this`requests
      ensures requests == old(requests) + [MinimizeWindow]
    {
      requests := requests + [MinimizeWindow];
    }

    /** mouseReleaseEvent: a click on the checked button minimises the window, on an unchecked one raises it. */
    method MouseReleaseEvent()
      modifies this`requests
      ensures requests == old(requests) + (if checked then [MinimizeWindow] else [Activate])
    {
      if checked {
        MinimizeApplication();
      } else {
        RaiseApplication();
      }
    }

    /** dragEnterEvent: (re)starts the drag timer. */
    method DragEnterEvent()
      modifies this`dndTimerActive
      ensures (dndTimerActive, []) == DragStep(old(dndTimerActive), DragEnter)
    {
      dndTimerActive := true;
    }

    /** dragLeaveEvent: stops the drag timer. */
    method DragLeaveEvent()
      modifies this`dndTimerActive
      ensures (dndTimerActive, []) == DragStep(old(dndTimerActive), DragLeave)
    {
      dndTimerActive := false;
    }

    /** dropEvent: stops the drag timer. */
    method DropEvent()
      modifies this`dndTimerActive
      ensures (dndTimerActive, []) == DragStep(old(dndTimerActive), Drop)
    {
      dndTimerActive := false;
    }

    /** activateWithDraggable: raises the window, then forces its activation. */
    method ActivateWithDraggable()
      modifies this`requests
      ensures requests == old(requests) + [Activate, ForceActivate]
    {
      RaiseApplication();
      requests := requests + [ForceActivate];
    }

    /** The drag timer's timeout: a running single-shot timer stops and calls activateWithDraggable. */
    method DndTimerFired()
      modifies this`dndTimerActive, this`requests
      ensures (dndTimerActive, requests) ==
        (DragStep(old(dndTimerActive), TimerFired).0, old(requests) + DragStep(old(dndTimerActive), TimerFired).1)
    {
      if dndTimerActive {
        dndTimerActive := false;
        ActivateWithDraggable();
      } else {
        assert requests == old(requests) + [];
      }
    }

    /**
     * maximizeApplication: without a sending action nothing happens;
     * otherwise the flags the action's data asks for are set, and an inactive
     * window is raised.
     */
    method MaximizeApplication(sender: Sender)
      modifies this`windowState, this`requests
      ensures sender.NoAction? ==> windowState == old(windowState) && requests == old(requests)
      ensures sender.Action? ==>
        windowState == MaximizedState(old(windowState), DataToInt(sender.data)) &&
        requests == old(requests) + (if active then [] else [Activate])
    {
      if sender.NoAction? {
        return;
      }
      var state := DataToInt(sender.data);
      if state == Value(MaxHoriz) {
        windowState := SetState(windowState, {MaxHoriz});
      } else if state == Value(MaxVert) {
        windowState := SetState(windowState, {MaxVert});
      } else {
        windowState := SetState(windowState, Max);
      }
      if !IsApplicationActive() {
        RaiseApplication();
      }
    }

    /** deMaximizeApplication: clears both maximisation flags and raises an inactive window. */
    method DeMaximizeApplication()
      modifies this`windowState, this`requests
      ensures windowState == DemaximizedState(old(windowState))
      ensures requests == old(requests) + (if active then [] else [Activate])
    {
      windowState := ClearState(windowState, Max);
      if !IsApplicationActive() {
        RaiseApplication();
      }
    }

    /** shadeApplication: rolls the window up. */
    method ShadeApplication()
      modifies this`windowState
      ensures windowState == old(windowState) + {Shaded}
    {
      windowState := SetState(windowState, {Shaded});
    }

    /** unShadeApplication: rolls the window down. */
    method UnShadeApplication()
      modifies this`windowState
      ensures windowState == old(windowState) - {Shaded}
    {
      windowState := ClearState(windowState, {Shaded});
    }

    /**
     * setApplicationLayer: without a sending action nothing happens;
     * otherwise the layer flags are cleared and set in the order the action's
     * data calls for.
     */
    method SetApplicationLayer(sender: Sender)
      modifies this`windowState
      ensures sender.NoAction? ==> windowState == old(windowState)
      ensures sender.Action? ==> windowState == LayerAfter(old(windowState), DataToInt(sender.data))
    {
      if sender.NoAction? {
        return;
      }
      var layer := DataToInt(sender.data);
      if layer == Value(KeepAbove) {
        windowState := ClearState(windowState, {KeepBelow});
        windowState := SetState(windowState, {KeepAbove});
      } else if layer == Value(KeepBelow) {
        windowState := ClearState(windowState, {KeepAbove});
        windowState := SetState(windowState, {KeepBelow});
      } else {
        windowState := ClearState(windowState, {KeepBelow});
        windowState := ClearState(windowState, {KeepAbove});
      }
    }

    /**
     * moveApplicationToDesktop: only an action whose data is a number moves
     * the window, to that desktop.
     */
    method MoveApplicationToDesktop(sender: Sender)
      modifies this`desktop
      ensures desktop == if sender.Action? && sender.data.Some? then sender.data.value else old(desktop)
    {
      if sender.NoAction? {
        return;
      }
      if sender.data.None? {
        return;
      }
      desktop := sender.data.value;
    }

    /**
     * An action of the context menu is triggered: the slot its signal is
     * connected to runs with the action as sender. The move, resize and
     * close slots are not modelled and change nothing here.
     */
    method Trigger(e: Entry)
      modifies this`windowState, this`desktop, this`requests
      ensures (windowState, desktop) == AfterSlot(Handler(e.caption), e.data, old(windowState), old(desktop))
      ensures requests == old(requests) + SlotRequests(Handler(e.caption), active)
    {
      match Handler(e.caption) {
        case MoveToDesktopSlot => MoveApplicationToDesktop(Action(e.data));
        case MaximizeSlot => MaximizeApplication(Action(e.data));
        case DeMaximizeSlot => DeMaximizeApplication();
        case MinimizeSlot => MinimizeApplication();
        case ShadeSlot => ShadeApplication();
        case UnShadeSlot => UnShadeApplication();
        case LayerSlot => SetApplicationLayer(Action(e.data));
        case MoveSlot => assert requests == old(requests) + [];
        case ResizeSlot => assert requests == old(requests) + [];
        case CloseSlot => assert requests == old(requests) + [];
      }
    }

    /**
     * contextMenuEvent: with Ctrl held no menu is built; otherwise the
     * actions are added one by one, in order, each with its data and
     * enablement: the desktop part (one action per desktop) when there is
     * more than one desktop, move and resize, maximise (the directional ones
     * with Shift), restore, minimise, roll down or up, the three layers and
     * close.
     */
    method ContextMenuEvent(ctrl: bool, shift: bool, allowed: Actions, deskNum: int, curDesk: int)
      returns (menu: Option<seq<Entry>>)
      ensures ctrl <==> menu.None?
      ensures menu.Some? ==> menu.value == Menu(MenuContext(allowed, windowState, deskNum, desktop, curDesk, shift))
    {
      if ctrl {
        return None;
      }
      var c := MenuContext(allowed, windowState, deskNum, desktop, curDesk, shift);
      var desktops := DesktopEntries(c);
      var window := WindowEntries(c);
      var entries := desktops + window;
      EntriesConcat(DesktopLabels(deskNum), WindowLabels(shift, HasState(windowState, {Shaded})), c);
      return Some(entries);
    }
  }

  /** The desktop part of the context menu, built as the source's loop over the desktops adds it. */
  method DesktopEntries(c: MenuContext) returns (entries: seq<Entry>)
    ensures entries == Entries(DesktopLabels(c.deskNum), c)
  {
    entries := [];
    if c.deskNum > 1 {
      entries := Entries([AllDesktops], c);
      for i := 0 to c.deskNum
        invariant entries == Entries([AllDesktops] + DesktopRange(i), c)
      {
        EntriesConcat([AllDesktops] + DesktopRange(i), [Desktop(i + 1)], c);
        assert [AllDesktops] + DesktopRange(i + 1) == [AllDesktops] + DesktopRange(i) + [Desktop(i + 1)];
        entries := entries + Entries([Desktop(i + 1)], c);
      }
      EntriesConcat([AllDesktops] + DesktopRange(c.deskNum), [ToCurrentDesktop], c);
      entries := entries + Entries([ToCurrentDesktop], c);
    }
  }

  /** The window part of the context menu: move and resize, the state actions, the layers and close. */
  method WindowEntries(c: MenuContext) returns (entries: seq<Entry>)
    ensures entries == Entries(WindowLabels(c.shift, HasState(c.state, {Shaded})), c)
  {
    var states := StateEntries(c);
    entries := Entries([Move, Resize], c) + states + Entries(LayerLabels, c) + Entries([Close], c);
    ghost var mid := StateLabels(c.shift, HasState(c.state, {Shaded}));
    EntriesConcat([Move, Resize], mid, c);
    EntriesConcat([Move, Resize] + mid, LayerLabels, c);
    EntriesConcat([Move, Resize] + mid + LayerLabels, [Close], c);
  }

  /** The maximise, restore, minimise and shade actions, the directional maximises only with Shift held. */
  method StateEntries(c: MenuContext) returns (entries: seq<Entry>)
    ensures entries == Entries(StateLabels(c.shift, HasState(c.state, {Shaded})), c)
  {
    var maximize := Entries([Maximize], c);
    var directional: seq<Entry> := [];
    if c.shift {
      directional := Entries([MaximizeVertically, MaximizeHorizontally], c);
    }
    var roll := if HasState(c.state, {Shaded}) then RollDown else RollUp;
    entries := maximize + directional + Entries([Restore, Minimize, roll], c);
    ghost var dir := if c.shift then [MaximizeVertically, MaximizeHorizontally] else [];
    assert directional == Entries(dir, c);
    EntriesConcat([Maximize], dir, c);
    EntriesConcat([Maximize] + dir, [Restore, Minimize, roll], c);
  }
}
