/**
 * The window context menu of a taskbar button as a value: which entries it
 * has, in which order, what each one carries as its action data and when it
 * is enabled; and the effect on the window's state flags of the entries that
 * change state (layer, maximise, restore, shade), with the window manager
 * taken to apply every setState / clearState exactly.
 */
module TaskMenu {
  import opened Wrappers
  import opened NetWm

  /** The entries of the menu; Desktop(n) is "Desktop n" of the "To Desktop" submenu. */
  datatype Label =
    | AllDesktops
    | Desktop(n: int)
    | ToCurrentDesktop
    | Move
    | Resize
    | Maximize
    | MaximizeVertically
    | MaximizeHorizontally
    | Restore
    | Minimize
    | RollDown
    | RollUp
    | AlwaysOnTop
    | NormalLayer
    | AlwaysOnBottom
    | Close

  /** One action of the menu: its label, the data it was given (None: no data) and whether it is enabled. */
  datatype Entry = Entry(caption: Label, data: Option<int>, enabled: bool)

  /**
   * What the menu is built from: the allowed actions and the state of the
   * window, the number of desktops, the window's desktop, the current
   * desktop, and whether Shift was held when the menu was requested.
   */
  datatype MenuContext = MenuContext(allowed: Actions, state: States, deskNum: int, winDesk: int, curDesk: int, shift: bool)

  /** The "Desktop 1" ... "Desktop n" entries' labels. */
  function DesktopRange(n: nat): seq<Label> {
    seq(n, k requires 0 <= k < n => Desktop(k + 1))
  }

  /** The desktop part of the menu, which exists only with more than one desktop. */
  function DesktopLabels(deskNum: int): seq<Label> {
    if deskNum > 1 then [AllDesktops] + DesktopRange(deskNum) + [ToCurrentDesktop] else []
  }

  /** The state part of the menu: maximise (the directional ones only with Shift), restore, minimise, shade. */
  function StateLabels(shift: bool, shaded: bool): seq<Label> {
    [Maximize]
    + (if shift then [MaximizeVertically, MaximizeHorizontally] else [])
    + [Restore, Minimize, if shaded then RollDown else RollUp]
  }

  /** The layer submenu's entries. */
  const LayerLabels: seq<Label> := [AlwaysOnTop, NormalLayer, AlwaysOnBottom]

  /** The rest of the menu: move and resize, the state part, the layers, Close. */
  function WindowLabels(shift: bool, shaded: bool): seq<Label> {
    [Move, Resize] + StateLabels(shift, shaded) + LayerLabels + [Close]
  }

  /** The labels in the order the menu adds them. */
  function MenuLabels(c: MenuContext): seq<Label> {
    DesktopLabels(c.deskNum) + WindowLabels(c.shift, HasState(c.state, {Shaded}))
  }

  /**
   * The data each action carries: a desktop number, a state flag's value
   * (see NetWm.Value), 0 for the normal layer, or none.
   */
  function DataOf(l: Label, c: MenuContext): Option<int> {
    match l
    case AllDesktops => Some(OnAllDesktops)
    case Desktop(n) => Some(n)
    case ToCurrentDesktop => Some(c.curDesk)
    case Maximize => Some(MaxValue)
    case MaximizeVertically => Some(Value(MaxVert))
    case MaximizeHorizontally => Some(Value(MaxHoriz))
    case AlwaysOnTop => Some(Value(KeepAbove))
    case NormalLayer => Some(0)
    case AlwaysOnBottom => Some(Value(KeepBelow))
    case _ => None
  }

  /** The enablement rule of each entry, condition by condition as the menu states it. */
  predicate Enabled(l: Label, c: MenuContext) {
    match l
    case AllDesktops => c.winDesk != OnAllDesktops
    case Desktop(n) => n != c.winDesk
    case ToCurrentDesktop => c.curDesk != c.winDesk
    case Move =>
      Supports(c.allowed, {ActionMove}) && !HasState(c.state, Max) && !HasState(c.state, {FullScreen})
    case Resize =>
      Supports(c.allowed, {ActionResize}) && !HasState(c.state, Max) && !HasState(c.state, {FullScreen})
    case Maximize =>
      Supports(c.allowed, ActionMax) && (!HasState(c.state, Max) || HasState(c.state, {Hidden}))
    case MaximizeVertically =>
      Supports(c.allowed, {ActionMaxVert}) && !(HasState(c.state, {MaxVert}) || HasState(c.state, {Hidden}))
    case MaximizeHorizontally =>
      Supports(c.allowed, {ActionMaxHoriz}) && !(HasState(c.state, {MaxHoriz}) || HasState(c.state, {Hidden}))
    case Restore =>
      HasState(c.state, {Hidden}) || HasState(c.state, Max) || HasState(c.state, {MaxHoriz}) || HasState(c.state, {MaxVert})
    case Minimize => Supports(c.allowed, {ActionMinimize}) && !HasState(c.state, {Hidden})
    case RollDown => Supports(c.allowed, {ActionShade}) && !HasState(c.state, {Hidden})
    case RollUp => Supports(c.allowed, {ActionShade}) && !HasState(c.state, {Hidden})
    case AlwaysOnTop => !HasState(c.state, {KeepAbove})
    case NormalLayer => HasState(c.state, {KeepAbove}) || HasState(c.state, {KeepBelow})
    case AlwaysOnBottom => !HasState(c.state, {KeepBelow})
    case Close => true
  }

  /** The action added for a label. */
  function MakeEntry(l: Label, c: MenuContext): Entry {
    Entry(l, DataOf(l, c), Enabled(l, c))
  }

  /** The actions for a list of labels, in order: each label's action in its place. */
  function Entries(labels: seq<Label>, c: MenuContext): (es: seq<Entry>)
    ensures |es| == |labels|
    ensures forall i :: 0 <= i < |labels| ==> es[i] == MakeEntry(labels[i], c)
    decreases |labels|
  {
    if labels == [] then [] else [MakeEntry(labels[0], c)] + Entries(labels[1..], c)
  }

  /** The actions for two lists of labels together are the actions for each, one after the other. */
  lemma {:induction false} EntriesConcat(a: seq<Label>, b: seq<Label>, c: MenuContext)
    ensures Entries(a + b, c) == Entries(a, c) + Entries(b, c)
    decreases |a|
  {
    if a != [] {
      assert (a + b)[1..] == a[1..] + b;
      EntriesConcat(a[1..], b, c);
    } else {
      assert a + b == b;
    }
  }

  /** The whole menu. */
  function Menu(c: MenuContext): seq<Entry> {
    Entries(MenuLabels(c), c)
  }

  /** The first action with the given label, as a user scanning the menu finds it. */
  function Lookup(menu: seq<Entry>, l: Label): (r: Option<Entry>)
    ensures r.Some? ==> r.value in menu && r.value.caption == l
    ensures r.None? ==> forall i :: 0 <= i < |menu| ==> menu[i].caption != l
  {
    if menu == [] then None
    else if menu[0].caption == l then Some(menu[0])
    else Lookup(menu[1..], l)
  }

  /**
   * Every action for a label is built the same way, so the action a user
   * finds under a label is that label's entry exactly when the label is
   * among those the menu adds.
   */
  lemma {:induction false} LookupEntries(labels: seq<Label>, c: MenuContext, l: Label)
    ensures Lookup(Entries(labels, c), l) == if l in labels then Some(MakeEntry(l, c)) else None
    decreases |labels|
  {
    if labels != [] {
      var es := Entries(labels, c);
      assert es[0] == MakeEntry(labels[0], c);
      if labels[0] != l {
        assert es[1..] == Entries(labels[1..], c);
        LookupEntries(labels[1..], c, l);
        assert l in labels <==> l in labels[1..] by {
          assert labels == [labels[0]] + labels[1..];
        }
      }
    }
  }

  /** The menu offers a label's entry, with that label's data and enablement, exactly when it adds the label. */
  lemma MenuLookup(c: MenuContext, l: Label)
    ensures Lookup(Menu(c), l) == if l in MenuLabels(c) then Some(Entry(l, DataOf(l, c), Enabled(l, c))) else None
  {
    LookupEntries(MenuLabels(c), c, l);
  }

  /**
   * The desktop entries of the menu (all desktops, desktop 1 to the desktop
   * count, to the current desktop) exist only with more than one desktop.
   */
  lemma MenuDesktopPresence(c: MenuContext)
    ensures AllDesktops in MenuLabels(c) <==> c.deskNum > 1
    ensures ToCurrentDesktop in MenuLabels(c) <==> c.deskNum > 1
    ensures forall n :: Desktop(n) in MenuLabels(c) <==> c.deskNum > 1 && 1 <= n <= c.deskNum
  {
    var shaded := HasState(c.state, {Shaded});
    DesktopLabelsMembers(c.deskNum);
    WindowLabelsMembers(c.shift, shaded);
    forall l
      ensures l in MenuLabels(c) <==> l in DesktopLabels(c.deskNum) || l in WindowLabels(c.shift, shaded)
    {
    }
  }

  /**
   * The other entries: the two directional maximise entries exist only with
   * Shift; "Roll down" for a shaded window and "Roll up" for any other; every
   * remaining entry always.
   */
  lemma MenuWindowPresence(c: MenuContext)
    ensures MaximizeVertically in MenuLabels(c) <==> c.shift
    ensures MaximizeHorizontally in MenuLabels(c) <==> c.shift
    ensures RollDown in MenuLabels(c) <==> Shaded in c.state
    ensures RollUp in MenuLabels(c) <==> Shaded !in c.state
    ensures forall l :: l in {Move, Resize, Maximize, Restore, Minimize, AlwaysOnTop, NormalLayer, AlwaysOnBottom, Close} ==>
      l in MenuLabels(c)
  {
    var shaded := HasState(c.state, {Shaded});
    assert shaded <==> Shaded in c.state by {
      assert Shaded in c.state ==> Shaded in c.state * {Shaded};
    }
    DesktopLabelsMembers(c.deskNum);
    WindowLabelsMembers(c.shift, shaded);
    forall l
      ensures l in MenuLabels(c) <==> l in DesktopLabels(c.deskNum) || l in WindowLabels(c.shift, shaded)
    {
    }
  }

  /** The desktop part holds exactly "All Desktops", "Desktop 1" to "Desktop n" and "To Current Desktop", when n > 1. */
  lemma DesktopLabelsMembers(deskNum: int)
    ensures forall l :: l in DesktopLabels(deskNum) <==>
      deskNum > 1 && (l == AllDesktops || l == ToCurrentDesktop || (l.Desktop? && 1 <= l.n <= deskNum))
  {
    if deskNum > 1 {
      var d := DesktopLabels(deskNum);
      var r := DesktopRange(deskNum);
      forall l
        ensures l in d <==> l == AllDesktops || l == ToCurrentDesktop || (l.Desktop? && 1 <= l.n <= deskNum)
      {
        if l.Desktop? && 1 <= l.n <= deskNum {
          assert r[l.n - 1] == l;
        }
        assert l in d <==> l == AllDesktops || l in r || l == ToCurrentDesktop;
      }
    }
  }

  /** The rest of the menu holds no desktop entry, and its optional entries follow Shift and shading. */
  lemma WindowLabelsMembers(shift: bool, shaded: bool)
    ensures forall l :: l in WindowLabels(shift, shaded) ==> !(l.AllDesktops? || l.Desktop? || l.ToCurrentDesktop?)
    ensures MaximizeVertically in WindowLabels(shift, shaded) <==> shift
    ensures MaximizeHorizontally in WindowLabels(shift, shaded) <==> shift
    ensures RollDown in WindowLabels(shift, shaded) <==> shaded
    ensures RollUp in WindowLabels(shift, shaded) <==> !shaded
    ensures forall l :: l in {Move, Resize, Maximize, Restore, Minimize, AlwaysOnTop, NormalLayer, AlwaysOnBottom, Close} ==>
      l in WindowLabels(shift, shaded)
  {
  }

  /**
   * The desktop entries: "All Desktops" is disabled exactly when the window is
   * already on all desktops, "Desktop n" exactly when the window is on
   * desktop n, "To Current Desktop" exactly when the window is on the current
   * desktop; each carries the desktop number it moves the window to.
   */
  lemma DesktopEntriesRule(c: MenuContext, n: int)
    ensures !Enabled(AllDesktops, c) <==> c.winDesk == OnAllDesktops
    ensures !Enabled(Desktop(n), c) <==> c.winDesk == n
    ensures !Enabled(ToCurrentDesktop, c) <==> c.winDesk == c.curDesk
    ensures DataOf(AllDesktops, c) == Some(-1) && DataOf(Desktop(n), c) == Some(n) && DataOf(ToCurrentDesktop, c) == Some(c.curDesk)
  {
  }

  /**
   * Move and Resize need their action allowed and neither maximisation flag
   * nor the full-screen flag set; Minimize needs its action and a window that
   * is not hidden; Restore is enabled exactly when the window is hidden or
   * maximised in some direction.
   */
  lemma MoveResizeMinimizeRestoreRule(c: MenuContext)
    ensures Enabled(Move, c) <==>
      ActionMove in c.allowed && MaxVert !in c.state && MaxHoriz !in c.state && FullScreen !in c.state
    ensures Enabled(Resize, c) <==>
      ActionResize in c.allowed && MaxVert !in c.state && MaxHoriz !in c.state && FullScreen !in c.state
    ensures Enabled(Minimize, c) <==> ActionMinimize in c.allowed && Hidden !in c.state
    ensures Enabled(Restore, c) <==> Hidden in c.state || MaxVert in c.state || MaxHoriz in c.state
  {
    assert MaxVert in c.state ==> MaxVert in c.state * Max;
    assert MaxHoriz in c.state ==> MaxHoriz in c.state * Max;
    assert FullScreen in c.state ==> FullScreen in c.state * {FullScreen};
    assert Hidden in c.state ==> Hidden in c.state * {Hidden};
    assert ActionMove in c.allowed ==> ActionMove in c.allowed * {ActionMove};
    assert ActionResize in c.allowed ==> ActionResize in c.allowed * {ActionResize};
    assert ActionMinimize in c.allowed ==> ActionMinimize in c.allowed * {ActionMinimize};
  }

  /**
   * Maximize needs either maximise action allowed and a window that is not
   * maximised in any direction or is hidden; each directional entry needs its
   * own action and a window neither maximised in that direction nor hidden.
   * The shade entry (either label) needs the shade action and a window that
   * is not hidden. Each maximise entry carries the value of the flags it asks
   * for.
   */
  lemma MaximizeShadeRule(c: MenuContext)
    ensures Enabled(Maximize, c) <==>
      (ActionMaxVert in c.allowed || ActionMaxHoriz in c.allowed) &&
      ((MaxVert !in c.state && MaxHoriz !in c.state) || Hidden in c.state)
    ensures Enabled(MaximizeVertically, c) <==> ActionMaxVert in c.allowed && MaxVert !in c.state && Hidden !in c.state
    ensures Enabled(MaximizeHorizontally, c) <==> ActionMaxHoriz in c.allowed && MaxHoriz !in c.state && Hidden !in c.state
    ensures Enabled(RollDown, c) == Enabled(RollUp, c) == (ActionShade in c.allowed && Hidden !in c.state)
    ensures DataOf(Maximize, c) == Some(12) && DataOf(MaximizeVertically, c) == Some(4) && DataOf(MaximizeHorizontally, c) == Some(8)
  {
    assert MaxVert in c.state ==> MaxVert in c.state * Max && MaxVert in c.state * {MaxVert};
    assert MaxHoriz in c.state ==> MaxHoriz in c.state * Max && MaxHoriz in c.state * {MaxHoriz};
    assert Hidden in c.state ==> Hidden in c.state * {Hidden};
    assert ActionMaxVert in c.allowed ==> ActionMaxVert in c.allowed * ActionMax && ActionMaxVert in c.allowed * {ActionMaxVert};
    assert ActionMaxHoriz in c.allowed ==> ActionMaxHoriz in c.allowed * ActionMax && ActionMaxHoriz in c.allowed * {ActionMaxHoriz};
    assert ActionShade in c.allowed ==> ActionShade in c.allowed * {ActionShade};
  }

  /**
   * The layer entries: "Always on top" is enabled exactly when KeepAbove is
   * clear, "Normal" exactly when either layer flag is set, "Always on bottom"
   * exactly when KeepBelow is clear; so at least two of the three are always
   * enabled. Close is always enabled.
   */
  lemma LayerEntriesRule(c: MenuContext)
    ensures Enabled(AlwaysOnTop, c) <==> KeepAbove !in c.state
    ensures Enabled(NormalLayer, c) <==> KeepAbove in c.state || KeepBelow in c.state
    ensures Enabled(AlwaysOnBottom, c) <==> KeepBelow !in c.state
    ensures (Enabled(AlwaysOnTop, c) && Enabled(AlwaysOnBottom, c)) || Enabled(NormalLayer, c)
    ensures Enabled(Close, c)
    ensures DataOf(AlwaysOnTop, c) == Some(64) && DataOf(NormalLayer, c) == Some(0) && DataOf(AlwaysOnBottom, c) == Some(1024)
  {
    assert KeepAbove in c.state ==> KeepAbove in c.state * {KeepAbove};
    assert KeepBelow in c.state ==> KeepBelow in c.state * {KeepBelow};
  }

  // ---------------------------------------------------------------------
  // Effects of the state-changing entries.

  /** QVariant::toInt on an action's data: the number, or 0 when there is none. */
  function DataToInt(data: Option<int>): int {
    data.GetOr(0)
  }

  /**
   * The window state after choosing a layer: keep-above alone for the
   * KeepAbove value, keep-below alone for the KeepBelow value, neither for
   * anything else; no other flag changes.
   */
  function LayerAfter(s: States, layer: int): States {
    var chosen := if layer == Value(KeepAbove) then {KeepAbove} else if layer == Value(KeepBelow) then {KeepBelow} else {};
    (s - {KeepAbove, KeepBelow}) + chosen
  }

  /** The flags a maximise action asks for: horizontal, vertical, or both for any other value. */
  function MaximizeFlags(data: int): States {
    if data == Value(MaxHoriz) then {MaxHoriz}
    else if data == Value(MaxVert) then {MaxVert}
    else Max
  }

  /** The window state after a maximise action: its flags are added, no other flag changes. */
  function MaximizedState(s: States, data: int): States {
    s + MaximizeFlags(data)
  }

  /** The window state after de-maximising: both maximisation flags are cleared, no other flag changes. */
  function DemaximizedState(s: States): States {
    s - Max
  }

  /** The slots of the button that the menu's actions are connected to. */
  datatype Slot =
    | MoveToDesktopSlot | MoveSlot | ResizeSlot | MaximizeSlot | DeMaximizeSlot
    | MinimizeSlot | ShadeSlot | UnShadeSlot | LayerSlot | CloseSlot

  /** The slot each action's triggered signal is connected to. */
  function Handler(l: Label): Slot {
    match l
    case AllDesktops => MoveToDesktopSlot
    case Desktop(_) => MoveToDesktopSlot
    case ToCurrentDesktop => MoveToDesktopSlot
    case Move => MoveSlot
    case Resize => ResizeSlot
    case Maximize => MaximizeSlot
    case MaximizeVertically => MaximizeSlot
    case MaximizeHorizontally => MaximizeSlot
    case Restore => DeMaximizeSlot
    case Minimize => MinimizeSlot
    case RollDown => UnShadeSlot
    case RollUp => ShadeSlot
    case AlwaysOnTop => LayerSlot
    case NormalLayer => LayerSlot
    case AlwaysOnBottom => LayerSlot
    case Close => CloseSlot
  }

  /**
   * The window's state flags and desktop after a slot runs with an action's
   * data. A desktop move needs data that is a number; the slots that only
   * send requests (move, resize, minimise, close) change neither.
   */
  function AfterSlot(slot: Slot, data: Option<int>, s: States, desk: int): (States, int) {
    match slot
    case MoveToDesktopSlot => (s, if data.Some? then data.value else desk)
    case MaximizeSlot => (MaximizedState(s, DataToInt(data)), desk)
    case DeMaximizeSlot => (DemaximizedState(s), desk)
    case ShadeSlot => (SetState(s, {Shaded}), desk)
    case UnShadeSlot => (ClearState(s, {Shaded}), desk)
    case LayerSlot => (LayerAfter(s, DataToInt(data)), desk)
    case _ => (s, desk)
  }

  /** The menu context once the user has chosen the action for l: its slot has run with its data. */
  function Choose(l: Label, c: MenuContext): MenuContext {
    var r := AfterSlot(Handler(l), DataOf(l, c), c.state, c.winDesk);
    c.(state := r.0, winDesk := r.1)
  }

  /**
   * Choosing KeepAbove leaves KeepAbove set and KeepBelow clear, choosing
   * KeepBelow the reverse, and anything else clears both; so the two are
   * never both set afterwards, no other flag changes, and choosing the same
   * layer twice is the same as choosing it once.
   */
  lemma LayerChoice(s: States, layer: int)
    ensures layer == 64 ==> KeepAbove in LayerAfter(s, layer) && KeepBelow !in LayerAfter(s, layer)
    ensures layer == 1024 ==> KeepBelow in LayerAfter(s, layer) && KeepAbove !in LayerAfter(s, layer)
    ensures layer != 64 && layer != 1024 ==> KeepAbove !in LayerAfter(s, layer) && KeepBelow !in LayerAfter(s, layer)
    ensures !(KeepAbove in LayerAfter(s, layer) && KeepBelow in LayerAfter(s, layer))
    ensures forall f :: f != KeepAbove && f != KeepBelow ==> (f in LayerAfter(s, layer) <==> f in s)
    ensures LayerAfter(LayerAfter(s, layer), layer) == LayerAfter(s, layer)
  {
  }

  /**
   * After choosing a layer from the menu, the action just chosen is disabled
   * and the other two are enabled: "Always on top" after KeepAbove, "Always
   * on bottom" after KeepBelow, "Normal" after the normal layer.
   */
  lemma LayerMenuAfterChoice(c: MenuContext, l: Label)
    requires l == AlwaysOnTop || l == NormalLayer || l == AlwaysOnBottom
    ensures var after := Choose(l, c);
      (Enabled(AlwaysOnTop, after) <==> l != AlwaysOnTop) &&
      (Enabled(NormalLayer, after) <==> l != NormalLayer) &&
      (Enabled(AlwaysOnBottom, after) <==> l != AlwaysOnBottom)
  {
    var after := Choose(l, c);
    assert after.state == LayerAfter(c.state, DataToInt(DataOf(l, c)));
    LayerEntriesRule(after);
  }

  /**
   * A maximise action sets exactly the flags asked for: the horizontal one
   * for MaxHoriz, the vertical one for MaxVert, both for anything else (the
   * Maximize entry's data and no data included); no other flag changes.
   */
  lemma MaximizeEffect(s: States, data: int)
    ensures data == 8 ==> MaximizedState(s, data) == s + {MaxHoriz}
    ensures data == 4 ==> MaximizedState(s, data) == s + {MaxVert}
    ensures data != 8 && data != 4 ==> MaximizedState(s, data) == s + {MaxVert, MaxHoriz}
    ensures forall f :: f != MaxVert && f != MaxHoriz ==> (f in MaximizedState(s, data) <==> f in s)
  {
  }

  /**
   * After choosing any maximise action, Restore is enabled and Move and
   * Resize are disabled; the directional action just chosen is disabled;
   * after Maximize on a visible window, Maximize is disabled too.
   */
  lemma MenuAfterMaximize(c: MenuContext, l: Label)
    requires l == Maximize || l == MaximizeVertically || l == MaximizeHorizontally
    ensures var after := Choose(l, c);
      Enabled(Restore, after) && !Enabled(Move, after) && !Enabled(Resize, after) &&
      (l == Maximize && Hidden !in c.state ==> !Enabled(Maximize, after)) &&
      (l != Maximize ==> !Enabled(l, after))
  {
    var after := Choose(l, c);
    assert after.state == MaximizedState(c.state, DataToInt(DataOf(l, c)));
    MaximizeEffect(c.state, DataToInt(DataOf(l, c)));
    MoveResizeMinimizeRestoreRule(after);
    MaximizeShadeRule(after);
  }

  /**
   * De-maximising clears both maximisation flags and nothing else, and it
   * undoes a maximise of a window that was not maximised before. After
   * choosing Restore, Restore stays enabled only for a hidden window, and
   * Maximize is enabled whenever a maximise action is allowed.
   */
  lemma DemaximizeEffect(c: MenuContext, data: int)
    ensures MaxVert !in DemaximizedState(c.state) && MaxHoriz !in DemaximizedState(c.state)
    ensures forall f :: f != MaxVert && f != MaxHoriz ==> (f in DemaximizedState(c.state) <==> f in c.state)
    ensures MaxVert !in c.state && MaxHoriz !in c.state ==> DemaximizedState(MaximizedState(c.state, data)) == c.state
    ensures var after := Choose(Restore, c);
      (Enabled(Restore, after) <==> Hidden in c.state) &&
      (Enabled(Maximize, after) <==> ActionMaxVert in c.allowed || ActionMaxHoriz in c.allowed)
  {
    var after := Choose(Restore, c);
    assert after.state == DemaximizedState(c.state);
    MoveResizeMinimizeRestoreRule(after);
    MaximizeShadeRule(after);
  }

  /**
   * Choosing "Roll up" makes the menu offer "Roll down" instead, choosing
   * "Roll down" makes it offer "Roll up"; on a window that was not shaded,
   * rolling down after rolling up restores the context.
   */
  lemma ShadeToggle(c: MenuContext)
    ensures RollDown in MenuLabels(Choose(RollUp, c)) && RollUp !in MenuLabels(Choose(RollUp, c))
    ensures RollUp in MenuLabels(Choose(RollDown, c)) && RollDown !in MenuLabels(Choose(RollDown, c))
    ensures Shaded !in c.state ==> Choose(RollDown, Choose(RollUp, c)) == c
  {
    var up := Choose(RollUp, c);
    var down := Choose(RollDown, c);
    assert up.state == SetState(c.state, {Shaded});
    assert down.state == ClearState(c.state, {Shaded});
    MenuWindowPresence(up);
    MenuWindowPresence(down);
    if Shaded !in c.state {
      assert Choose(RollDown, up).state == c.state;
    }
  }

  /**
   * Choosing a desktop action moves the window to the desktop it carries,
   * d; afterwards the action for d is the only disabled "Desktop n" action,
   * the chosen action itself is disabled, "All Desktops" is enabled unless d
   * is the all-desktops value, and "To Current Desktop" is disabled exactly
   * when d is the current desktop.
   */
  lemma MenuAfterMoveToDesktop(c: MenuContext, l: Label)
    requires l.AllDesktops? || l.Desktop? || l.ToCurrentDesktop?
    ensures var after := Choose(l, c);
      var d := DataToInt(DataOf(l, c));
      after.winDesk == d && after.state == c.state && !Enabled(l, after) &&
      (forall n :: !Enabled(Desktop(n), after) <==> n == d) &&
      (Enabled(AllDesktops, after) <==> d != OnAllDesktops) &&
      (!Enabled(ToCurrentDesktop, after) <==> d == c.curDesk)
  {
  }
}
