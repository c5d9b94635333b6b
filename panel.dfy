/**
 * LXQtPanel (panel/lxqtpanel.cpp) as an object: the placement fields that
 * its setters update in place, the display facts it reads, and the requests
 * it sends to the window system (geometry changes and partial struts), kept
 * in the order they are sent.
 */
module Panel {
  import opened Wrappers
  import opened Rects
  import opened PanelGeometry

  /** What the panel reads but does not own: screens, whole virtual screen, layout minimum, window id, visibility. */
  datatype Environment = Environment(
    screens: seq<Rect>,
    wholeScreen: Rect,
    layoutMinimum: Size,
    winId: int,
    visible: bool)

  /** A request to the window system: apply a geometry, or publish _NET_WM_STRUT_PARTIAL. */
  datatype Request = SetGeometry(rect: Rect) | SetExtendedStrut(strut: Strut)

  /** A hosted plugin: the identity of its ILXQtPanelPlugin and its geometry inside the panel. */
  datatype PluginSlot = PluginSlot(iPlugin: int, geometry: Rect)

  /**
   * What realign() does when the panel has configuration c, sees environment e
   * and currently has geometry current: nothing while hidden; otherwise the
   * panel rectangle becomes the geometry (requested only when it differs), and
   * the strut for that rectangle is published when a window id exists.
   */
  function RealignEffect(c: PanelConfig, e: Environment, current: Rect): (r: (Rect, seq<Request>))
    ensures !e.visible ==> r == (current, [])
    ensures e.visible ==> r.0 == PanelRect(c, e.layoutMinimum, ScreenGeometry(e.screens, c.actualScreenNum))
    ensures (e.visible && r.0 != current) <==> SetGeometry(r.0) in r.1
    ensures (e.visible && e.winId != 0) <==>
      SetExtendedStrut(PartialStrut(c.reserveSpace, c.position, r.0, e.wholeScreen, c.panelSize)) in r.1
    ensures |r.1| <= 2
  {
    if !e.visible then (current, [])
    else
      var rect := PanelRect(c, e.layoutMinimum, ScreenGeometry(e.screens, c.actualScreenNum));
      var resize := if rect != current then [SetGeometry(rect)] else [];
      var strut := if e.winId == 0 then []
                   else [SetExtendedStrut(PartialStrut(c.reserveSpace, c.position, rect, e.wholeScreen, c.panelSize))];
      (rect, resize + strut)
  }

  /** Realigning twice in a row only re-publishes the strut: the geometry is already in place. */
  lemma RealignTwice(c: PanelConfig, e: Environment, current: Rect)
    ensures var first := RealignEffect(c, e, current);
      RealignEffect(c, e, first.0).0 == first.0 &&
      RealignEffect(c, e, first.0).1 ==
        (if e.visible && e.winId != 0
         then [SetExtendedStrut(PartialStrut(c.reserveSpace, c.position, first.0, e.wholeScreen, c.panelSize))]
         else [])
  {
  }

  /**
   * The length step of setPanelGeometry: a percentage of the screen dimension
   * (truncated), the dimension shortened by a non-positive length, or a
   * positive length as is; then raised to the layout's minimum.
   */
  method LengthOnScreen(c: PanelConfig, screenDim: int, layoutMin: int) returns (len: int)
    ensures len == PanelLength(c.length, c.lengthInPercents, screenDim, layoutMin)
  {
    if c.lengthInPercents {
      len := TDiv(screenDim * c.length, 100);
    } else if c.length <= 0 {
      len := screenDim + c.length;
    } else {
      len := c.length;
    }
    len := QMax(len, layoutMin);
  }

  /**
   * The alignment step of setPanelGeometry for a horizontal panel: moves the
   * rectangle along the x axis to the screen's left edge, centre or right
   * edge, keeping its size.
   */
  method AlignAlongWidth(rect: Rect, alignment: Alignment, currentScreen: Rect) returns (r: Rect)
    ensures r.x1 == AlignedStart(alignment, currentScreen.x1, currentScreen.x2, rect.Width())
    ensures r.Dimensions() == rect.Dimensions()
  {
    match alignment {
      case AlignLeft =>
        r := rect.MoveLeft(currentScreen.Left());
      case AlignCenter =>
        r := rect.MoveCenter(currentScreen.Center());
      case AlignRight =>
        r := rect.MoveRight(currentScreen.Right());
    }
  }

  /** The alignment step of setPanelGeometry for a vertical panel: the same along the y axis. */
  method AlignAlongHeight(rect: Rect, alignment: Alignment, currentScreen: Rect) returns (r: Rect)
    ensures r.y1 == AlignedStart(alignment, currentScreen.y1, currentScreen.y2, rect.Height())
    ensures r.Dimensions() == rect.Dimensions()
  {
    match alignment {
      case AlignLeft =>
        r := rect.MoveTop(currentScreen.Top());
      case AlignCenter =>
        r := rect.MoveCenter(currentScreen.Center());
      case AlignRight =>
        r := rect.MoveBottom(currentScreen.Bottom());
    }
  }

  /**
   * The horizontal half of setPanelGeometry: starting from QRect(), set the
   * thickness and the (already computed) length, move along the edge for the
   * alignment, then onto the docking edge.
   */
  method HorizontalPanelRect(c: PanelConfig, currentScreen: Rect, len: int) returns (rect: Rect)
    requires IsHorizontal(c.position)
    ensures rect == PlacedRect(c, currentScreen, len)
  {
    rect := NullRect;
    rect := rect.SetHeight(QMax(PanelMinimumSize, c.panelSize));
    rect := rect.SetWidth(len);
    rect := AlignAlongWidth(rect, c.alignment, currentScreen);
    if c.position == Top {
      rect := rect.MoveTop(currentScreen.Top());
    } else {
      rect := rect.MoveBottom(currentScreen.Bottom());
    }
  }

  /** The vertical half of setPanelGeometry, with the roles of the axes exchanged. */
  method VerticalPanelRect(c: PanelConfig, currentScreen: Rect, len: int) returns (rect: Rect)
    requires !IsHorizontal(c.position)
    ensures rect == PlacedRect(c, currentScreen, len)
  {
    rect := NullRect;
    rect := rect.SetWidth(QMax(PanelMinimumSize, c.panelSize));
    rect := rect.SetHeight(len);
    rect := AlignAlongHeight(rect, c.alignment, currentScreen);
    if c.position == Left {
      rect := rect.MoveLeft(currentScreen.Left());
    } else {
      rect := rect.MoveRight(currentScreen.Right());
    }
  }

  /**
   * The clamping tail of calculatePopupWindowPos: pull the right, then the
   * bottom edge back onto the screen, then push the left, then the top edge
   * onto it; the size never changes.
   */
  method ClampToScreen(rect: Rect, screen: Rect) returns (res: Rect)
    ensures res == RectAt(Point(ClampStart(rect.x1, rect.Width(), screen.x1, screen.x2),
                                ClampStart(rect.y1, rect.Height(), screen.y1, screen.y2)), rect.Dimensions())
  {
    res := rect;
    if res.Right() > screen.Right() {
      res := res.MoveRight(screen.Right());
    }
    if res.Bottom() > screen.Bottom() {
      res := res.MoveBottom(screen.Bottom());
    }
    if res.Left() < screen.Left() {
      res := res.MoveLeft(screen.Left());
    }
    if res.Top() < screen.Top() {
      res := res.MoveTop(screen.Top());
    }
  }

  class LXQtPanel {
    // Placement configuration (mPanelSize, mLength, ... in the source).
    var panelSize: int
    var length: int
    var lengthInPercents: bool
    var alignment: Alignment
    var position: Position
    var screenNum: int
    var actualScreenNum: int
    var reserveSpace: bool

    // The display and the window as the panel sees them.
    var screens: seq<Rect>
    var wholeScreen: Rect
    var layoutMinimum: Size
    var winId: int
    var visible: bool
    var plugins: seq<PluginSlot>

    // The window's geometry and every request sent to the window system.
    var geometry: Rect
    var requests: seq<Request>

    function Config(): PanelConfig
      reads this
    {
      PanelConfig(panelSize, length, lengthInPercents, alignment, position, screenNum, actualScreenNum, reserveSpace)
    }

    function Env(): Environment
      reads this
    {
      Environment(screens, wholeScreen, layoutMinimum, winId, visible)
    }

    /** The member initialisers of the constructor; reading settings and loading plugins are not modelled. */
    constructor (screens: seq<Rect>, wholeScreen: Rect, layoutMinimum: Size, winId: int, visible: bool,
                 plugins: seq<PluginSlot>, geometry: Rect)
      ensures Config() == PanelConfig(0, 0, false, AlignLeft, Bottom, 0, 0, true)
      ensures Env() == Environment(screens, wholeScreen, layoutMinimum, winId, visible)
      ensures this.plugins == plugins && this.geometry == geometry && requests == []
    {
      panelSize, length, lengthInPercents := 0, 0, false;
      alignment, position := AlignLeft, Bottom;
      screenNum, actualScreenNum, reserveSpace := 0, 0, true;
      this.screens, this.wholeScreen, this.layoutMinimum := screens, wholeScreen, layoutMinimum;
      this.winId, this.visible, this.plugins := winId, visible, plugins;
      this.geometry, requests := geometry, [];
    }

    /** getReserveDimension. */
    method GetReserveDimension() returns (d: int)
      ensures d >= PanelMinimumSize && d >= panelSize && (d == PanelMinimumSize || d == panelSize)
    {
      d := QMax(PanelMinimumSize, panelSize);
    }

    /** setPanelGeometry: build the rectangle for the current screen and apply it only when it differs. */
    method SetPanelGeometry()
      modifies this`geometry, this`requests
      ensures var rect := PanelRect(Config(), layoutMinimum, ScreenGeometry(screens, actualScreenNum));
        && geometry == rect
        && requests == old(requests) + (if rect != old(geometry) then [SetGeometry(rect)] else [])
    {
      var currentScreen := ScreenGeometry(screens, actualScreenNum);
      var rect;
      if position == Top || position == Bottom {
        var len := LengthOnScreen(Config(), currentScreen.Width(), layoutMinimum.width);
        rect := HorizontalPanelRect(Config(), currentScreen, len);
      } else {
        var len := LengthOnScreen(Config(), currentScreen.Height(), layoutMinimum.height);
        rect := VerticalPanelRect(Config(), currentScreen, len);
      }
      if rect != geometry {
        geometry := rect;
        requests := requests + [SetGeometry(rect)];
      }
    }

    /** updateWmStrut: publish the partial strut for the current geometry, if there is a visible window. */
    method UpdateWmStrut()
      modifies this`requests
      ensures requests == old(requests) +
        (if winId == 0 || !visible then []
         else [SetExtendedStrut(PartialStrut(reserveSpace, position, geometry, wholeScreen, panelSize))])
    {
      if winId == 0 || !visible {
        return;
      }
      var strut;
      if reserveSpace {
        var d := GetReserveDimension();
        match position
        case Top =>
          strut := Strut(NoSide, NoSide, StrutSide(geometry.Top() + d, geometry.Left(), geometry.Right()), NoSide);
        case Bottom =>
          strut := Strut(NoSide, NoSide, NoSide,
                         StrutSide(wholeScreen.Bottom() - geometry.Bottom() + d, geometry.Left(), geometry.Right()));
        case Left =>
          strut := Strut(StrutSide(geometry.Left() + d, geometry.Top(), geometry.Bottom()), NoSide, NoSide, NoSide);
        case Right =>
          strut := Strut(NoSide, StrutSide(wholeScreen.Right() - geometry.Right() + d, geometry.Top(), geometry.Bottom()),
                         NoSide, NoSide);
      } else {
        strut := NoStrut;
      }
      requests := requests + [SetExtendedStrut(strut)];
    }

    /** realign: recompute the geometry and re-publish the strut, while visible. */
    method Realign()
      modifies this`geometry, this`requests
      ensures geometry == RealignEffect(Config(), Env(), old(geometry)).0
      ensures requests == old(requests) + RealignEffect(Config(), Env(), old(geometry)).1
    {
      if !visible {
        return;
      }
      SetPanelGeometry();
      UpdateWmStrut();
    }

    /** canPlacedOn: no screen lies strictly beyond screen screenIndex on the side of edge pos. */
    method CanPlacedOn(screenIndex: int, pos: Position) returns (ok: bool)
      ensures ok == CanHost(screens, screenIndex, pos)
    {
      var target := ScreenGeometry(screens, screenIndex);
      var i := 0;
      while i < |screens|
        invariant 0 <= i <= |screens|
        invariant forall j :: 0 <= j < i ==> !Beyond(screens[j], target, pos)
      {
        if Beyond(screens[i], target, pos) {
          return false;
        }
        i := i + 1;
      }
      return true;
    }

    /** findAvailableScreen: the first hostable screen from the configured one on, wrapping around; 0 if none. */
    method FindAvailableScreen(pos: Position) returns (r: int)
      ensures r == AvailableScreen(screens, screenNum, pos)
    {
      var current := screenNum;
      var i := current;
      while i < |screens|
        invariant current <= i && (i <= |screens| || i == current)
        invariant FirstHostableIn(screens, current, |screens|, pos) == FirstHostableIn(screens, i, |screens|, pos)
        decreases |screens| - i
      {
        var ok := CanPlacedOn(i, pos);
        if ok {
          return i;
        }
        i := i + 1;
      }
      i := 0;
      while i < current
        invariant 0 <= i && (i <= current || i == 0)
        invariant FirstHostableIn(screens, 0, current, pos) == FirstHostableIn(screens, i, current, pos)
      {
        var ok := CanPlacedOn(i, pos);
        if ok {
          return i;
        }
        i := i + 1;
      }
      return 0;
    }

    /** setPanelSize: a new thickness realigns the panel; the same value changes nothing. */
    method SetPanelSize(value: int)
      modifies this`panelSize, this`geometry, this`requests
      ensures panelSize == value
      ensures old(panelSize) == value ==> geometry == old(geometry) && requests == old(requests)
      ensures old(panelSize) != value ==>
        geometry == RealignEffect(Config(), Env(), old(geometry)).0 &&
        requests == old(requests) + RealignEffect(Config(), Env(), old(geometry)).1
    {
      if panelSize != value {
        panelSize := value;
        Realign();
      }
    }

    /** setLength: a new length or unit realigns the panel; the same pair changes nothing. */
    method SetLength(newLength: int, inPercents: bool)
      modifies this`length, this`lengthInPercents, this`geometry, this`requests
      ensures length == newLength && lengthInPercents == inPercents
      ensures old(length) == newLength && old(lengthInPercents) == inPercents ==>
        geometry == old(geometry) && requests == old(requests)
      ensures !(old(length) == newLength && old(lengthInPercents) == inPercents) ==>
        geometry == RealignEffect(Config(), Env(), old(geometry)).0 &&
        requests == old(requests) + RealignEffect(Config(), Env(), old(geometry)).1
    {
      if length == newLength && lengthInPercents == inPercents {
        return;
      }
      length := newLength;
      lengthInPercents := inPercents;
      Realign();
    }

    /**
     * setPosition: unless the configured screen and the edge are already the
     * given ones, move to the given screen and edge and realign; the configured
     * screen is updated only when save is set.
     */
    method SetPosition(screen: int, pos: Position, save: bool)
      modifies this`actualScreenNum, this`position, this`screenNum, this`geometry, this`requests
      ensures old(screenNum) == screen && old(position) == pos ==>
        actualScreenNum == old(actualScreenNum) && position == pos && screenNum == screen &&
        geometry == old(geometry) && requests == old(requests)
      ensures !(old(screenNum) == screen && old(position) == pos) ==>
        actualScreenNum == screen && position == pos &&
        screenNum == (if save then screen else old(screenNum)) &&
        geometry == RealignEffect(Config(), Env(), old(geometry)).0 &&
        requests == old(requests) + RealignEffect(Config(), Env(), old(geometry)).1
    {
      if screenNum == screen && position == pos {
        return;
      }
      actualScreenNum := screen;
      position := pos;
      if save {
        screenNum := screen;
      }
      Realign();
    }

    /** setAlignment: a new alignment realigns the panel; the same value changes nothing. */
    method SetAlignment(value: Alignment)
      modifies this`alignment, this`geometry, this`requests
      ensures alignment == value
      ensures old(alignment) == value ==> geometry == old(geometry) && requests == old(requests)
      ensures old(alignment) != value ==>
        geometry == RealignEffect(Config(), Env(), old(geometry)).0 &&
        requests == old(requests) + RealignEffect(Config(), Env(), old(geometry)).1
    {
      if alignment == value {
        return;
      }
      alignment := value;
      Realign();
    }

    /** setReserveSpace: a new value re-publishes the strut only; the same value changes nothing. */
    method SetReserveSpace(reserve: bool)
      modifies this`reserveSpace, this`requests
      ensures reserveSpace == reserve
      ensures old(reserveSpace) == reserve ==> requests == old(requests)
      ensures old(reserveSpace) != reserve ==>
        requests == old(requests) +
          (if winId == 0 || !visible then []
           else [SetExtendedStrut(PartialStrut(reserve, position, geometry, wholeScreen, panelSize))])
    {
      if reserveSpace == reserve {
        return;
      }
      reserveSpace := reserve;
      UpdateWmStrut();
    }

    /**
     * ensureVisible: keep the configured screen when it can host the edge,
     * otherwise fall back (without saving) to the screen the scan finds; then
     * realign. The configured screen and the edge never change. With
     * non-empty screens the panel ends up on a screen number that passes
     * canPlacedOn's test; for a Top or Left edge that can be a number with no
     * screen (see PanelGeometry.DetachedScreenPassesTopTest and
     * PanelGeometry.UnpluggedScreenHostsTopAndLeft), and then it is the
     * configured number itself, kept.
     */
    method EnsureVisible()
      modifies this`actualScreenNum, this`position, this`screenNum, this`geometry, this`requests
      ensures screenNum == old(screenNum) && position == old(position)
      ensures CanHost(screens, screenNum, position) ==>
        actualScreenNum == screenNum &&
        geometry == RealignEffect(Config(), Env(), old(geometry)).0 &&
        requests == old(requests) + RealignEffect(Config(), Env(), old(geometry)).1
      ensures !CanHost(screens, screenNum, position) && AvailableScreen(screens, screenNum, position) == screenNum ==>
        actualScreenNum == old(actualScreenNum) &&
        geometry == RealignEffect(Config(), Env(), old(geometry)).0 &&
        requests == old(requests) + RealignEffect(Config(), Env(), old(geometry)).1
      ensures !CanHost(screens, screenNum, position) && AvailableScreen(screens, screenNum, position) != screenNum ==>
        actualScreenNum == AvailableScreen(screens, screenNum, position) &&
        var first := RealignEffect(Config(), Env(), old(geometry));
        geometry == first.0 &&
        requests == old(requests) + first.1 + RealignEffect(Config(), Env(), first.0).1
      ensures |screens| > 0 && (forall i :: 0 <= i < |screens| ==> NonEmpty(screens[i])) ==>
        CanHost(screens, actualScreenNum, position)
      ensures (|screens| > 0 && (forall i :: 0 <= i < |screens| ==> NonEmpty(screens[i])) &&
               screenNum >= 0 && !(0 <= actualScreenNum < |screens|)) ==>
        actualScreenNum == screenNum && CanHost(screens, screenNum, position)
    {
      var ok := CanPlacedOn(screenNum, position);
      if !ok {
        var s := FindAvailableScreen(position);
        if |screens| > 0 && (forall i :: 0 <= i < |screens| ==> NonEmpty(screens[i])) {
          AvailableScreenHosts(screens, screenNum, position);
        }
        SetPosition(s, position, false);
      } else {
        actualScreenNum := screenNum;
      }
      Realign();
    }

    /** findPlugin: the first hosted plugin with the given identity, if any. */
    method FindPlugin(iPlugin: int) returns (r: Option<nat>)
      ensures r.Some? ==>
        r.value < |plugins| && plugins[r.value].iPlugin == iPlugin &&
        forall j :: 0 <= j < r.value ==> plugins[j].iPlugin != iPlugin
      ensures r.None? <==> forall j :: 0 <= j < |plugins| ==> plugins[j].iPlugin != iPlugin
    {
      var i := 0;
      while i < |plugins|
        invariant 0 <= i <= |plugins|
        invariant forall j :: 0 <= j < i ==> plugins[j].iPlugin != iPlugin
      {
        if plugins[i].iPlugin == iPlugin {
          return Some(i);
        }
        i := i + 1;
      }
      return None;
    }

    /**
     * calculatePopupWindowPos(absolutePos, windowSize): start next to the
     * panel's edge, then clamp right, bottom, left and top to the screen.
     */
    method CalculatePopupWindowPos(absolutePos: Point, windowSize: Size, screen: Rect) returns (res: Rect)
      ensures res == PopupRect(geometry, position, absolutePos, windowSize, screen)
      ensures res.Dimensions() == windowSize
    {
      var x, y := absolutePos.x, absolutePos.y;
      match position {
        case Top => y := geometry.Bottom();
        case Bottom => y := geometry.Top() - windowSize.height;
        case Left => x := geometry.Right();
        case Right => x := geometry.Left() - windowSize.width;
      }
      res := ClampToScreen(RectAt(Point(x, y), windowSize), screen);
    }

    /**
     * calculatePopupWindowPos(plugin, windowSize): an unknown plugin gives the
     * null rectangle; otherwise the popup is placed from the plugin's top-left
     * corner in screen coordinates.
     */
    method CalculatePluginPopupPos(iPlugin: int, windowSize: Size, screen: Rect) returns (res: Rect)
      ensures (forall j :: 0 <= j < |plugins| ==> plugins[j].iPlugin != iPlugin) ==> res == NullRect
      ensures forall k ::
        (0 <= k < |plugins| && plugins[k].iPlugin == iPlugin &&
         forall j :: 0 <= j < k ==> plugins[j].iPlugin != iPlugin) ==>
        res == PopupRect(geometry, position, geometry.TopLeft().Plus(plugins[k].geometry.TopLeft()), windowSize, screen)
    {
      var found := FindPlugin(iPlugin);
      if found.None? {
        return NullRect;
      }
      res := CalculatePopupWindowPos(geometry.TopLeft().Plus(plugins[found.value].geometry.TopLeft()), windowSize, screen);
    }
  }

  /**
   * Turning reservation off and on again publishes the zero strut and then
   * the very strut the panel had before: the round trip restores it.
   */
  method ReserveSpaceRoundTrip(p: LXQtPanel)
    requires p.reserveSpace && p.winId != 0 && p.visible
    modifies p
    ensures p.reserveSpace && p.Config() == old(p.Config()) && p.geometry == old(p.geometry)
    ensures p.requests == old(p.requests) + [SetExtendedStrut(NoStrut),
      SetExtendedStrut(PartialStrut(true, p.position, p.geometry, p.wholeScreen, p.panelSize))]
  {
    p.SetReserveSpace(false);
    p.SetReserveSpace(true);
  }
}
