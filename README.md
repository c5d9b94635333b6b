# qmpanel: panel placement and taskbar buttons, modelled in Dafny

This project models two parts of qmpanel, a desktop panel derived from
LXQt's panel.

**The panel window (`LXQtPanel`)**

- How the panel encodes its docking edge as text, and decodes it.
- How it computes its rectangle on a screen from its thickness, its length
  (in pixels or as a percentage), its alignment along the edge and its
  docking edge.
- The partial strut it publishes to the window manager.
- How it tests whether a screen can host an edge, and which screen it
  falls back to.
- How its setters realign it.
- Where it places popups, both next to a point and for a hosted plugin.

**A taskbar button (`LXQtTaskButton`)**

- The title text it shows.
- Its click rule.
- The 700 ms drag-dwell timer that raises a window while something is
  dragged over the button.
- The state-changing actions: maximise, restore, shade, layer and move to
  a desktop.
- How it builds its window context menu: which entries appear, in which
  order, with which data and enablement.

**Files**

- `rects.dfy`: the toolkit's integer QPoint, QSize and QRect as values.
  QRect keeps inclusive corners, so `right() == left() + width() - 1`.
- `panel_geometry.dfy`: the panel's pure decision logic as functions, with
  lemmas about them.
- `panel.dfy`: the `LXQtPanel` class. Its setters update its placement
  fields in place and append the requests sent to the window system
  (geometry changes and struts) to a log. SetPanelGeometry, UpdateWmStrut,
  Realign, CanPlacedOn, FindAvailableScreen, the setters, EnsureVisible and
  both popup methods are proved against the functions of
  `panel_geometry.dfy`; GetReserveDimension and FindPlugin state their
  results directly.
- `netwm.dfy`: the window-manager flags the button reads and sets.
  A NET state or action mask is modelled as a set of flags: a bit test is
  a non-empty intersection, `setState` a union and `clearState` a
  difference.
- `task_menu.dfy`: the context menu as a value, the effect of each
  state-changing entry, and how the enablement follows from the state.
- `task_button.dfy`: the `LXQtTaskButton` class, the drag-dwell timer as a
  machine over drag events, and the title escaping.
- `wrappers.dfy`: an `Option` type.

Requests the button sends to the window manager (activate, force-activate,
minimise) are appended to a log. The window's state flags and desktop are
fields of the button, and the window manager is taken to apply each
`setState`, `clearState` and `setOnDesktop` exactly.

Parameters stand in for what the code asks the toolkit or the window
system:

- the screen list, the whole virtual screen, the layout's minimum size,
  the window id and visibility;
- the allowed actions, the number of desktops, the current desktop, and
  the Ctrl and Shift modifiers;
- the popup's screen.

## Model

| member | source | states |
|---|---|---|
| Rects.QMax | panel/lxqtpanel.cpp:306-309 | qMax: the result is at least each argument and is one of them |
| Rects.Rect.Center | panel/lxqtpanel.cpp:340 | the centre of a non-empty rectangle lies inside it on each axis |
| Rects.Rect.SetWidth | panel/lxqtpanel.cpp:321-330 | setWidth gives the requested width and keeps the top-left corner and the vertical extent |
| Rects.Rect.SetHeight | panel/lxqtpanel.cpp:319 | setHeight gives the requested height and keeps the top-left corner and the horizontal extent |
| Rects.Rect.MoveLeft | panel/lxqtpanel.cpp:336 | moveLeft puts the left edge at the position and keeps the size and the vertical extent |
| Rects.Rect.MoveRight | panel/lxqtpanel.cpp:344 | moveRight puts the right edge at the position and keeps the size and the vertical extent |
| Rects.Rect.MoveTop | panel/lxqtpanel.cpp:351 | moveTop puts the top edge at the position and keeps the size and the horizontal extent |
| Rects.Rect.MoveBottom | panel/lxqtpanel.cpp:355 | moveBottom puts the bottom edge at the position and keeps the size and the horizontal extent |
| Rects.Rect.MoveCenter | panel/lxqtpanel.cpp:340 | moveCenter keeps the size and starts half the (truncated) corner distance before the point |
| Rects.MoveCenterBalances | panel/lxqtpanel.cpp:340 | centring on a screen at non-negative coordinates leaves margins on the two sides that differ by at most one pixel |
| Rects.RectAt | panel/lxqtpanel.cpp:755 | QRect(point, size) has that top-left corner and that size |
| PanelGeometry.ToUpperProperties | panel/lxqtpanel.cpp:92-95 | upper-casing leaves no lower-case ASCII letter, is the identity on strings without one, and is idempotent |
| PanelGeometry.UpperNames | panel/lxqtpanel.cpp:92-95 | the four position names upper-case to TOP, LEFT, RIGHT and BOTTOM |
| PanelGeometry.PositionToStr | panel/lxqtpanel.cpp:103-118 | the name of each position: Top, Left, Right, Bottom (its round trip is PositionRoundTrip) |
| PanelGeometry.StrToPosition | panel/lxqtpanel.cpp:90-97 | a result other than the default is a position whose name has the same ASCII upper case as the string |
| PanelGeometry.PositionRoundTrip | panel/lxqtpanel.cpp:90-118 | decoding the encoded name of a position gives that position back, whatever the default |
| PanelGeometry.StrToPositionMatchesNames | panel/lxqtpanel.cpp:90-97 | a string decodes to a non-default position exactly when it is that position's name in some ASCII letter case; a string naming no position gives the default |
| PanelGeometry.ReserveDimension | panel/lxqtpanel.cpp:306-309 | the reserved thickness is the panel size raised to the 16-pixel minimum |
| PanelGeometry.PanelLength | panel/lxqtpanel.cpp:320-330 | the panel length is the requested length raised to the layout's minimum |
| PanelGeometry.BaseLengthRules | panel/lxqtpanel.cpp:320-328 | a percentage gives the truncated share of the screen dimension, at most the dimension for 0..100 %; a non-positive absolute length shortens the dimension by that much; a positive one is taken as is |
| PanelGeometry.PanelRect | panel/lxqtpanel.cpp:311-399 | the rectangle setPanelGeometry builds from the configuration, the layout's minimum size and the screen (its properties are PanelRectShape and PanelRectInsideScreen) |
| PanelGeometry.PanelRectShape | panel/lxqtpanel.cpp:311-399 | the panel rectangle has the reserved thickness and the panel length, shares the screen edge it docks to, and is pinned to the screen's start or end for left or right alignment |
| PanelGeometry.AlignedSpanInside | panel/lxqtpanel.cpp:333-346 | a span that fits stays within the screen's range when aligned left or right, and when centred on a range whose corner sum is non-negative |
| PanelGeometry.CenteredSpanOvershootsLeftOfOrigin | panel/lxqtpanel.cpp:340 | because the centre truncates toward zero, a full-width centred span on x = -1920..-1 lands on -1919..0, one pixel past the screen |
| PanelGeometry.PanelRectInsideScreen | panel/lxqtpanel.cpp:311-399 | a panel whose thickness and length fit its screen lies entirely on that screen |
| PanelGeometry.PartialStrut | panel/lxqtpanel.cpp:444-500 | the twelve strut values per edge: the panel's distance from the whole screen's edge plus the reserve dimension, spanning the panel; all zero without reservation (its properties are StrutOnlyOnPanelEdge and StrutCoversPanel) |
| PanelGeometry.StrutOnlyOnPanelEdge | panel/lxqtpanel.cpp:438-501 | with reservation off the strut is all zeros; with it on only the panel's side is non-zero, and that side spans the panel's extent along its edge |
| PanelGeometry.StrutCoversPanel | panel/lxqtpanel.cpp:438-501 | for the computed panel rectangle, the reserved strip ends exactly at the panel's inner edge, measured from the whole virtual screen |
| PanelGeometry.CanHost | panel/lxqtpanel.cpp:509-541 | canPlacedOn's test: no screen lies strictly beyond the numbered screen's geometry on the panel's side, a number with no screen being measured as QRect() |
| PanelGeometry.FirstHostableIn | panel/lxqtpanel.cpp:547-560 | the first screen number in a range that can host the edge, or none when no number in the range can |
| PanelGeometry.AvailableScreen | panel/lxqtpanel.cpp:547-560 | findAvailableScreen's result: the first hostable number from the current one to the last, else from 0 up to the current one, else 0 (its properties are AvailableScreenScan and AvailableScreenHosts) |
| PanelGeometry.AvailableScreenScan | panel/lxqtpanel.cpp:547-560 | the fallback screen is the first hostable number from the configured one to the last, then from 0 up to the configured one, and 0 when none can host |
| PanelGeometry.OutermostScreen | panel/lxqtpanel.cpp:509-541 | the screen whose edge lies furthest out in the direction of the docking edge |
| PanelGeometry.OutermostScreenCanHost | panel/lxqtpanel.cpp:509-541 | with non-empty screens some screen always passes the boundary test, namely the outermost one |
| PanelGeometry.AvailableScreenHosts | panel/lxqtpanel.cpp:547-560 | with non-empty screens the fallback screen always passes canPlacedOn, and it is a real screen whenever the configured number is non-negative |
| PanelGeometry.DetachedScreenPassesTopTest | panel/lxqtpanel.cpp:509-518 | a screen number with no screen (geometry QRect()) still passes the Top test when no screen lies above y = 0 |
| PanelGeometry.UnpluggedScreenHostsTopAndLeft | panel/lxqtpanel.cpp:509-541 | with one 1920x1080 screen, the unplugged number 1 passes the test for a Top or a Left panel and fails it for a Bottom or a Right one |
| PanelGeometry.PopupRect | panel/lxqtpanel.cpp:732-775 | the popup rectangle: the requested size anchored next to the panel on its edge at the given position, then clamped into the screen on each axis (its properties are PopupPlacement) |
| PanelGeometry.PopupPlacement | panel/lxqtpanel.cpp:732-775 | the popup keeps the requested size; on each axis it lies on the screen when it fits and starts at the screen's left or top edge otherwise; an anchored rectangle already on the screen stays next to the panel |
| Panel.RealignEffect | panel/lxqtpanel.cpp:413-434 | realign does nothing while hidden; otherwise the geometry becomes the panel rectangle (requested only when it differs) and the strut is published when a window id exists |
| Panel.RealignTwice | panel/lxqtpanel.cpp:413-434 | a second realign keeps the geometry and only re-publishes the strut |
| Panel.LengthOnScreen | panel/lxqtpanel.cpp:320-330 | the length step of setPanelGeometry computes the panel length |
| Panel.AlignAlongWidth | panel/lxqtpanel.cpp:333-346 | the horizontal alignment step starts the rectangle where the alignment says and keeps its size |
| Panel.AlignAlongHeight | panel/lxqtpanel.cpp:375-388 | the vertical alignment step starts the rectangle where the alignment says and keeps its size |
| Panel.HorizontalPanelRect | panel/lxqtpanel.cpp:316-357 | the sequence of QRect calls for a Top or Bottom panel yields the placed rectangle |
| Panel.VerticalPanelRect | panel/lxqtpanel.cpp:358-399 | the sequence of QRect calls for a Left or Right panel yields the placed rectangle |
| Panel.ClampToScreen | panel/lxqtpanel.cpp:762-772 | the four sequential edge clamps give the per-axis clamped start and keep the size |
| Panel.LXQtPanel.constructor | panel/lxqtpanel.cpp:124-135 | the member initialisers: size 0, length 0, left alignment, bottom edge, screen 0, reservation on |
| Panel.LXQtPanel.GetReserveDimension | panel/lxqtpanel.cpp:306-309 | the reserve dimension is the panel size raised to the minimum |
| Panel.LXQtPanel.SetPanelGeometry | panel/lxqtpanel.cpp:311-406 | the geometry becomes the panel rectangle for the actual screen, and a geometry request is made exactly when it differs from the old one |
| Panel.LXQtPanel.UpdateWmStrut | panel/lxqtpanel.cpp:438-501 | with a window id and while visible, exactly one strut is published, the one for the current geometry; otherwise nothing |
| Panel.LXQtPanel.Realign | panel/lxqtpanel.cpp:413-434 | the new geometry and requests are those of the realign effect |
| Panel.LXQtPanel.CanPlacedOn | panel/lxqtpanel.cpp:509-541 | true exactly when no screen lies strictly beyond the target screen on the side of the edge |
| Panel.LXQtPanel.FindAvailableScreen | panel/lxqtpanel.cpp:547-560 | the result is the fallback screen of the wrap-around scan |
| Panel.LXQtPanel.SetPanelSize | panel/lxqtpanel.cpp:566-573 | a new size is stored and realigns the panel; the same size changes nothing |
| Panel.LXQtPanel.SetLength | panel/lxqtpanel.cpp:579-589 | a new length or unit is stored and realigns the panel; the same pair changes nothing |
| Panel.LXQtPanel.SetPosition | panel/lxqtpanel.cpp:595-632 | unless screen and edge are already the configured ones, the actual screen and the edge are set, the configured screen only when saving, and the panel realigns |
| Panel.LXQtPanel.SetAlignment | panel/lxqtpanel.cpp:637-645 | a new alignment is stored and realigns the panel; the same one changes nothing |
| Panel.LXQtPanel.SetReserveSpace | panel/lxqtpanel.cpp:651-659 | a new value is stored and only the strut is re-published; the same value changes nothing |
| Panel.LXQtPanel.EnsureVisible | panel/lxqtpanel.cpp:235-244 | keeps the configured screen when it can host the edge, otherwise moves (without saving) to the fallback screen, then realigns; with non-empty screens the panel ends up on a screen number that passes canPlacedOn's test, and a number with no screen (possible for a Top or Left edge, see UnpluggedScreenHostsTopAndLeft) only when it is the configured number, kept |
| Panel.LXQtPanel.FindPlugin | panel/lxqtpanel.cpp:721-727 | the first plugin with the given identity, or none exactly when no plugin has it |
| Panel.LXQtPanel.CalculatePopupWindowPos | panel/lxqtpanel.cpp:732-775 | the popup rectangle is the anchored rectangle next to the panel's edge, clamped onto the screen, with the requested size |
| Panel.LXQtPanel.CalculatePluginPopupPos | panel/lxqtpanel.cpp:780-794 | an unknown plugin gives QRect(); otherwise the popup is placed from the first matching plugin's top-left corner in screen coordinates |
| Panel.ReserveSpaceRoundTrip | panel/lxqtpanel.cpp:651-659 | turning reservation off and on publishes the zero strut, then the strut the panel had before |
| NetWm.SetState | plugin-taskbar/lxqttaskbutton.cpp:225-228 | setState sets the given flags and keeps every other flag |
| NetWm.ClearState | plugin-taskbar/lxqttaskbutton.cpp:233-236 | clearState clears the given flags and keeps every other flag |
| NetWm.ValuesAreBits | plugin-taskbar/lxqttaskbutton.cpp:190-206 | distinct state flags have distinct values, and NET::Max (12) is none of the single values, so the switch cases are disjoint |
| TaskMenu.Enabled | plugin-taskbar/lxqttaskbutton.cpp:382-471 | the enablement condition of each action, as its setEnabled call states it over the state and allowed-action masks (stated flag by flag in the *Rule lemmas) |
| TaskMenu.DataOf | plugin-taskbar/lxqttaskbutton.cpp:381-472 | the data each action's setData call gives it: the desktop number, NET::OnAllDesktops, the current desktop, a state flag's value or 0 for the normal layer, and none for the others |
| TaskMenu.Menu | plugin-taskbar/lxqttaskbutton.cpp:373-477 | the whole context menu: the actions for the menu's labels in order, each with its data and enablement (its properties are MenuLookup and the presence and rule lemmas) |
| TaskMenu.Entries | plugin-taskbar/lxqttaskbutton.cpp:373-477 | the actions built for a list of labels are, place by place, each label's action with its data and enablement |
| TaskMenu.EntriesConcat | plugin-taskbar/lxqttaskbutton.cpp:373-477 | building the actions for two label lists in turn gives the actions for the whole list |
| TaskMenu.LookupEntries | plugin-taskbar/lxqttaskbutton.cpp:373-477 | the first action under a label is that label's action exactly when the label was added |
| TaskMenu.MenuLookup | plugin-taskbar/lxqttaskbutton.cpp:373-477 | the menu offers a label's action, with its data and enablement, exactly when it adds the label |
| TaskMenu.MenuDesktopPresence | plugin-taskbar/lxqttaskbutton.cpp:373-399 | the desktop actions (all desktops, desktops 1 to n, to the current desktop) exist exactly when there is more than one desktop |
| TaskMenu.MenuWindowPresence | plugin-taskbar/lxqttaskbutton.cpp:401-477 | the directional maximise actions exist exactly with Shift held, "Roll down" exactly for a shaded window, "Roll up" exactly for any other, and every other action always |
| TaskMenu.DesktopLabelsMembers | plugin-taskbar/lxqttaskbutton.cpp:373-399 | the desktop part holds exactly all desktops, desktops 1 to n and to the current desktop, when n > 1, and nothing otherwise |
| TaskMenu.WindowLabelsMembers | plugin-taskbar/lxqttaskbutton.cpp:401-477 | the rest of the menu holds no desktop action, and its optional actions follow Shift and shading |
| TaskMenu.DesktopEntriesRule | plugin-taskbar/lxqttaskbutton.cpp:373-399 | each desktop action is disabled exactly when the window is already where it would move it, and carries that desktop number (-1 for all desktops) |
| TaskMenu.MoveResizeMinimizeRestoreRule | plugin-taskbar/lxqttaskbutton.cpp:401-437 | Move and Resize need their action allowed and no maximisation or full-screen flag; Minimize needs its action and a window that is not hidden; Restore is enabled exactly for a hidden or (partly) maximised window |
| TaskMenu.MaximizeShadeRule | plugin-taskbar/lxqttaskbutton.cpp:410-450 | the enablement of Maximize, of each directional maximise and of the shade action, condition by condition, and the flag values 12, 4 and 8 the maximise actions carry |
| TaskMenu.LayerEntriesRule | plugin-taskbar/lxqttaskbutton.cpp:452-477 | the layer actions' enablement (so at least two of the three are enabled) and data (64, 0, 1024); Close is always enabled |
| TaskMenu.LayerAfter | plugin-taskbar/lxqttaskbutton.cpp:250-274 | the state after the layer slot: both keep flags cleared, then the chosen one set (its properties are LayerChoice) |
| TaskMenu.Handler | plugin-taskbar/lxqttaskbutton.cpp:383-478 | the slot each action's triggered signal is connected to |
| TaskMenu.AfterSlot | plugin-taskbar/lxqttaskbutton.cpp:185-292 | the window's state flags and desktop after each slot runs with an action's data |
| TaskMenu.Choose | plugin-taskbar/lxqttaskbutton.cpp:383-478 | the context after choosing an action: its connected slot has run with its data |
| TaskMenu.LayerChoice | plugin-taskbar/lxqttaskbutton.cpp:250-274 | choosing a layer leaves exactly the chosen keep flag set (none for the normal layer), never both, changes no other flag, and is idempotent |
| TaskMenu.LayerMenuAfterChoice | plugin-taskbar/lxqttaskbutton.cpp:452-473 | after a layer action is chosen (its slot run with its data), that action is the one disabled and the other two are enabled |
| TaskMenu.MaximizedState | plugin-taskbar/lxqttaskbutton.cpp:185-206 | the window's flags after maximizeApplication: the flags its data selects are added (its properties are MaximizeEffect) |
| TaskMenu.DemaximizedState | plugin-taskbar/lxqttaskbutton.cpp:216 | the window's flags after deMaximizeApplication: both maximisation flags are cleared (its properties are DemaximizeEffect) |
| TaskMenu.MaximizeEffect | plugin-taskbar/lxqttaskbutton.cpp:185-209 | a maximise action sets the horizontal flag for MaxHoriz, the vertical one for MaxVert and both for any other data; no other flag changes |
| TaskMenu.MenuAfterMaximize | plugin-taskbar/lxqttaskbutton.cpp:413-428 | after choosing any maximise action Restore is enabled, Move and Resize are disabled and the chosen directional action is disabled; after Maximize on a visible window Maximize is disabled |
| TaskMenu.DemaximizeEffect | plugin-taskbar/lxqttaskbutton.cpp:214-220 | de-maximising clears both maximisation flags and nothing else and undoes a maximise of an unmaximised window; after choosing Restore, Maximize is enabled when allowed and Restore only for a hidden window |
| TaskMenu.ShadeToggle | plugin-taskbar/lxqttaskbutton.cpp:439-450 | choosing "Roll up" makes the menu offer "Roll down" and not "Roll up", choosing "Roll down" the reverse, and on an unshaded window rolling down after rolling up restores the context |
| TaskMenu.MenuAfterMoveToDesktop | plugin-taskbar/lxqttaskbutton.cpp:373-399 | choosing a desktop action moves the window to the desktop d it carries and changes no flag; then the chosen action and the action for d are disabled, no other "Desktop n" is, and "To Current Desktop" is disabled exactly when d is current |
| TaskButton.DragStep | plugin-taskbar/lxqttaskbutton.cpp:105-124 | one step of the drag timer: enter (re)starts it, leave and drop stop it, a timeout of a running timer stops it and raises then force-activates (its properties are DragStepRequests) |
| TaskButton.DragStepRequests | plugin-taskbar/lxqttaskbutton.cpp:105-124 | a drag event makes requests only when the timer fires while running (raise, then force-activate), and only an enter leaves the timer running |
| TaskButton.NoRaiseWithoutEnter | plugin-taskbar/lxqttaskbutton.cpp:105-124 | without a drag-enter, a stopped timer never raises the window |
| TaskButton.CancelledDwell | plugin-taskbar/lxqttaskbutton.cpp:114-124 | a leave or a drop cancels the dwell: the timeout that follows does nothing |
| TaskButton.CompletedDwell | plugin-taskbar/lxqttaskbutton.cpp:61-65 | an enter followed by the timeout raises and force-activates the window exactly once |
| TaskButton.RaisesBoundedByEnters | plugin-taskbar/lxqttaskbutton.cpp:105-124 | a run of drag events makes at most two requests per drag-enter (plus one timeout of a timer already running) |
| TaskButton.EscapeAmpersands | plugin-taskbar/lxqttaskbutton.cpp:81-82 | doubling the ampersands never shortens the title, and the escaped title is shown exactly as the title, with no mnemonic |
| TaskButton.EscapeLength | plugin-taskbar/lxqttaskbutton.cpp:78-84 | escaping adds one character per ampersand and doubles the ampersand count |
| TaskButton.EscapeChangesAmpersandTitles | plugin-taskbar/lxqttaskbutton.cpp:81-83 | a title with an ampersand changes under escaping, so the tooltip, which receives the title after the in-place replace, differs from the title |
| TaskButton.LXQtTaskButton.constructor | plugin-taskbar/lxqttaskbutton.cpp:47-66 | the button is checked exactly when its window is active, has its title set, and a stopped 700 ms single-shot drag timer |
| TaskButton.LXQtTaskButton.IsApplicationActive | plugin-taskbar/lxqttaskbutton.cpp:150-153 | the window is the active window (a field here; see Left out) |
| TaskButton.LXQtTaskButton.UpdateText | plugin-taskbar/lxqttaskbutton.cpp:78-84 | text and tooltip both get the visible name (or the name when it is empty) with ampersands doubled, and the text is shown as that title |
| TaskButton.LXQtTaskButton.RaiseApplication | plugin-taskbar/lxqttaskbutton.cpp:169-172 | one activation request is made |
| TaskButton.LXQtTaskButton.MinimizeApplication | plugin-taskbar/lxqttaskbutton.cpp:177-180 | one minimise request is made |
| TaskButton.LXQtTaskButton.MouseReleaseEvent | plugin-taskbar/lxqttaskbutton.cpp:129-136 | a release on the checked button minimises the window, on an unchecked one raises it |
| TaskButton.LXQtTaskButton.DragEnterEvent | plugin-taskbar/lxqttaskbutton.cpp:105-112 | the drag timer is (re)started, as the drag machine's enter step says |
| TaskButton.LXQtTaskButton.DragLeaveEvent | plugin-taskbar/lxqttaskbutton.cpp:114-118 | the drag timer is stopped, as the leave step says |
| TaskButton.LXQtTaskButton.DropEvent | plugin-taskbar/lxqttaskbutton.cpp:120-124 | the drag timer is stopped, as the drop step says |
| TaskButton.LXQtTaskButton.ActivateWithDraggable | plugin-taskbar/lxqttaskbutton.cpp:158-164 | the window is raised, then force-activated |
| TaskButton.LXQtTaskButton.DndTimerFired | plugin-taskbar/lxqttaskbutton.cpp:61-65 | the timeout's timer state and requests are those of the drag machine's timer step |
| TaskButton.LXQtTaskButton.MaximizeApplication | plugin-taskbar/lxqttaskbutton.cpp:185-209 | without a sending action nothing happens; otherwise the flags for the action's data are set and an inactive window is raised |
| TaskButton.LXQtTaskButton.DeMaximizeApplication | plugin-taskbar/lxqttaskbutton.cpp:214-220 | both maximisation flags are cleared and an inactive window is raised |
| TaskButton.LXQtTaskButton.ShadeApplication | plugin-taskbar/lxqttaskbutton.cpp:225-228 | the Shaded flag is added |
| TaskButton.LXQtTaskButton.UnShadeApplication | plugin-taskbar/lxqttaskbutton.cpp:233-236 | the Shaded flag is removed |
| TaskButton.LXQtTaskButton.SetApplicationLayer | plugin-taskbar/lxqttaskbutton.cpp:250-274 | without a sending action nothing happens; otherwise the state becomes the layer choice for the action's data |
| TaskButton.LXQtTaskButton.MoveApplicationToDesktop | plugin-taskbar/lxqttaskbutton.cpp:279-292 | only an action whose data is a number moves the window, to that desktop |
| TaskButton.SlotRequests | plugin-taskbar/lxqttaskbutton.cpp:177-220 | the requests each slot sends: maximise and restore raise an inactive window, minimise asks for minimisation |
| TaskButton.LXQtTaskButton.Trigger | plugin-taskbar/lxqttaskbutton.cpp:383-478 | triggering a menu action runs its connected slot with the action as sender: the state and desktop become AfterSlot's, the requests SlotRequests' |
| TaskButton.LXQtTaskButton.ContextMenuEvent | plugin-taskbar/lxqttaskbutton.cpp:333-481 | no menu exactly when Ctrl is held; otherwise the menu, action by action, as `TaskMenu.Menu` lays out |
| TaskButton.DesktopEntries | plugin-taskbar/lxqttaskbutton.cpp:373-399 | the loop over the desktops builds the desktop part of the menu |
| TaskButton.WindowEntries | plugin-taskbar/lxqttaskbutton.cpp:401-477 | the move, resize, state, layer and close actions, in order |
| TaskButton.StateEntries | plugin-taskbar/lxqttaskbutton.cpp:410-450 | the maximise actions (the directional ones only with Shift), restore, minimise and roll down or up, in order |

## Left out

- Settings: reading, saving and the `save` flags' persistence. The plugin
  loading and deletion, window flags, style sheets, icons, DPI scaling and
  the panel animation are not modelled either.
- Panel.LXQtPanel.CalculatePluginPopupPos: the `qWarning` messages logged
  for a plugin that is not found are not modelled; only the QRect() result is.
- `globalGeometry()` is taken to be the panel's geometry. This holds for
  the top-level panel window.
- The model gives QRect() as the geometry of every screen number outside
  0..n-1, including -1. The toolkit's use of the primary screen for -1 is
  not modelled.
- `setPosition` looks up the new screen with `qApp->screens().at(screen)`
  in order to move the native window.
  - The native window move is not modelled.
  - Neither is what that lookup does with an out-of-range screen number.
- On the C++ side a percentage length is computed in double precision and
  then truncated. The model truncates the exact quotient. The two agree
  except at magnitudes where doubles round.
- PanelGeometry.ToUpper: upper-cases only the ASCII letters a-z, where
  `QString::toUpper` applies the full Unicode mapping (a dotless ı becomes
  I, so "rıght" names Right there but gives the default here).
- PanelGeometry.StrToPosition: decodes names case-insensitively in ASCII
  only, for the same reason.
- All integers are unbounded; 32-bit overflow of C++ `int` is not modelled.
- `mLengthInPercents` is not in the constructor's initialiser list, so it
  has no defined value until the settings are read. The model starts it
  at false.
- The constructor's calls to `readSettings`, `ensureVisible`,
  `loadPlugins` and `show` are not modelled.
- The window system replies asynchronously: it may refuse or delay a
  request. The model applies every state change exactly and stores
  activation and minimisation as requests.
- `isApplicationActive` reads the active window from the window system.
  The model reads it from a field that no modelled operation changes.
- TaskButton.LXQtTaskButton.Trigger: the move, resize and close slots
  (`moveApplication`, `resizeApplication`, `closeApplication`) send
  move/resize and close requests and move the mouse pointer; the model runs
  them without effect. Their menu entries, data and enablement are modelled.
- Menu presentation is not modelled:
  - the separators;
  - the "To Desktop" and "Layer" submenus, which the model flattens in
    adding order;
  - translated captions and the Close icon;
  - the menu's geometry, computed by `calcPopupPos`, and its showing.
- `KWindowInfo::actionSupported` is modelled as a non-empty intersection
  with the allowed actions. The window system's fallback of allowing
  everything when it cannot report allowed actions is a caller-supplied
  full set.
- TaskButton.LXQtTaskButton.MouseReleaseEvent: the base button's own
  toggling of the checked state on release is not modelled. Only the
  minimise or raise decision is.
- `updateIcon` and `sizeHint` are not modelled. They are icon and DPI
  presentation only.
- The toolkit's mnemonic convention for button text is modelled by
  `ShownText`. That convention comes from the toolkit, not from this
  code.
- The NET flag values and `PANEL_MINIMUM_SIZE` (16) come from headers
  that are not part of this model. They are written out as constants.
- `panel/statusnotifier/statusnotifierbutton.h` declares an unrelated
  status-notifier button and contains no logic of the modelled core.
