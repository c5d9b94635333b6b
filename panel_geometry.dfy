/**
 * The pure decision layer of LXQtPanel (panel/lxqtpanel.cpp): the position
 * codec, the rectangle a panel occupies on its screen, the partial strut it
 * asks the window manager to reserve (the _NET_WM_STRUT_PARTIAL property of
 * the freedesktop Extended Window Manager Hints), the test whether a screen
 * can host an edge, the fallback screen scan, and popup placement.
 */
module PanelGeometry {
  import opened Wrappers
  import opened Rects

  // ---------------------------------------------------------------------------
  // Configuration values
  // ---------------------------------------------------------------------------

  /** ILXQtPanel::Position: the screen edge the panel docks to. */
  datatype Position = Top | Left | Right | Bottom

  /** LXQtPanel::Alignment: where the panel sits along its edge. */
  datatype Alignment = AlignLeft | AlignCenter | AlignRight

  /** LXQtPanel::isHorizontal. */
  predicate IsHorizontal(p: Position) {
    p == Top || p == Bottom
  }

  /** The fields of LXQtPanel that decide its placement. */
  datatype PanelConfig = PanelConfig(
    panelSize: int,
    length: int,
    lengthInPercents: bool,
    alignment: Alignment,
    position: Position,
    screenNum: int,
    actualScreenNum: int,
    reserveSpace: bool)

  // ---------------------------------------------------------------------------
  // Position codec (strToPosition / positionToStr)
  // ---------------------------------------------------------------------------

  function PositionToStr(p: Position): string {
    match p
    case Top => "Top"
    case Left => "Left"
    case Right => "Right"
    case Bottom => "Bottom"
  }

  /** Upper-casing of one character; only the ASCII letters change. */
  function UpperChar(c: char): char {
    if 'a' <= c <= 'z' then (c as int - 32) as char else c
  }

  function ToUpper(s: string): (u: string)
    ensures |u| == |s| && forall i :: 0 <= i < |s| ==> u[i] == UpperChar(s[i])
  {
    seq(|s|, i requires 0 <= i < |s| => UpperChar(s[i]))
  }

  /**
   * Upper-casing changes only lower-case ASCII letters: it leaves no such
   * letter behind, a string without one is its own upper case, and
   * upper-casing twice is upper-casing once.
   */
  lemma ToUpperProperties(s: string)
    ensures forall i :: 0 <= i < |s| ==> !('a' <= ToUpper(s)[i] <= 'z')
    ensures (forall i :: 0 <= i < |s| ==> !('a' <= s[i] <= 'z')) ==> ToUpper(s) == s
    ensures ToUpper(ToUpper(s)) == ToUpper(s)
  {
  }

  /**
   * Decodes a position name regardless of (ASCII) letter case: a result other
   * than defaultValue is a position whose name has the same upper case as s.
   */
  function StrToPosition(s: string, defaultValue: Position): (p: Position)
    ensures p != defaultValue ==> ToUpper(s) == ToUpper(PositionToStr(p))
  {
    UpperNames();
    var u := ToUpper(s);
    if u == "TOP" then Top
    else if u == "LEFT" then Left
    else if u == "RIGHT" then Right
    else if u == "BOTTOM" then Bottom
    else defaultValue
  }

  /** The upper-cased names of the four positions. */
  lemma UpperNames()
    ensures ToUpper("Top") == "TOP" && ToUpper("Left") == "LEFT"
    ensures ToUpper("Right") == "RIGHT" && ToUpper("Bottom") == "BOTTOM"
  {
    assert ToUpper("Top") == "TOP" by {
      var u := ToUpper("Top");
      assert u[0] == 'T' && u[1] == 'O' && u[2] == 'P';
    }
    assert ToUpper("Left") == "LEFT" by {
      var u := ToUpper("Left");
      assert u[0] == 'L' && u[1] == 'E' && u[2] == 'F' && u[3] == 'T';
    }
    assert ToUpper("Right") == "RIGHT" by {
      var u := ToUpper("Right");
      assert u[0] == 'R' && u[1] == 'I' && u[2] == 'G' && u[3] == 'H' && u[4] == 'T';
    }
    assert ToUpper("Bottom") == "BOTTOM" by {
      var u := ToUpper("Bottom");
      assert u[0] == 'B' && u[1] == 'O' && u[2] == 'T' && u[3] == 'T' && u[4] == 'O' && u[5] == 'M';
    }
  }

  /** Encoding a position and decoding it gives the position back, whatever the default. */
  lemma PositionRoundTrip(p: Position, d: Position)
    ensures StrToPosition(PositionToStr(p), d) == p
  {
    UpperNames();
  }

  /**
   * Decoding is case-insensitive and exact: a string decodes to a position p
   * other than the default exactly when it is p's name in some letter case,
   * and a string that names no position decodes to the default.
   */
  lemma StrToPositionMatchesNames(s: string, d: Position)
    ensures forall p :: p != d ==> (StrToPosition(s, d) == p <==> ToUpper(s) == ToUpper(PositionToStr(p)))
    ensures (forall p :: ToUpper(s) != ToUpper(PositionToStr(p))) ==> StrToPosition(s, d) == d
  {
    UpperNames();
    assert PositionToStr(Top) == "Top" && PositionToStr(Left) == "Left";
    assert PositionToStr(Right) == "Right" && PositionToStr(Bottom) == "Bottom";
  }

  // ---------------------------------------------------------------------------
  // Panel rectangle (getReserveDimension / setPanelGeometry)
  // ---------------------------------------------------------------------------

  /** PANEL_MINIMUM_SIZE of LXQt's panel limits. */
  const PanelMinimumSize: int := 16

  /** getReserveDimension: the panel thickness, never below the minimum. */
  function ReserveDimension(panelSize: int): (d: int)
    ensures d >= PanelMinimumSize && d >= panelSize
    ensures d == PanelMinimumSize || d == panelSize
  {
    QMax(PanelMinimumSize, panelSize)
  }

  /**
   * The length asked for along the edge before the layout minimum applies:
   * a percentage of the screen dimension (the double quotient truncated to
   * int), a screen dimension reduced by |length| for a non-positive absolute
   * length, or the absolute length itself.
   */
  function BaseLength(length: int, inPercents: bool, screenDim: int): int {
    if inPercents then TDiv(screenDim * length, 100)
    else if length <= 0 then screenDim + length
    else length
  }

  /** The panel length along its edge: the base length raised to the layout minimum. */
  function PanelLength(length: int, inPercents: bool, screenDim: int, layoutMin: int): (n: int)
    ensures n >= layoutMin && n >= BaseLength(length, inPercents, screenDim)
    ensures n == layoutMin || n == BaseLength(length, inPercents, screenDim)
  {
    QMax(BaseLength(length, inPercents, screenDim), layoutMin)
  }

  /**
   * The three length rules: a non-negative percentage of a non-negative
   * dimension is the floor of dimension * percent / 100 and is at most the
   * dimension when the percentage is at most 100; a non-positive absolute
   * length is the dimension plus that length; a positive one is taken as is.
   */
  lemma BaseLengthRules(length: int, inPercents: bool, screenDim: int)
    ensures inPercents && screenDim >= 0 && length >= 0 ==>
      BaseLength(length, inPercents, screenDim) == screenDim * length / 100 &&
      (length <= 100 ==> 0 <= BaseLength(length, inPercents, screenDim) <= screenDim)
    ensures !inPercents && length <= 0 ==> BaseLength(length, inPercents, screenDim) == screenDim + length
    ensures !inPercents && length > 0 ==> BaseLength(length, inPercents, screenDim) == length
  {
    if inPercents && screenDim >= 0 && length >= 0 {
      TDivNonNegative(screenDim * length, 100);
      if length <= 100 {
        assert screenDim * length <= screenDim * 100 by {
          assert screenDim * (100 - length) >= 0;
        }
        assert TDiv(screenDim * length, 100) * 100 <= screenDim * 100;
      }
    }
  }

  /** Where a span of the given size starts inside [lo, hi] for an alignment. */
  function AlignedStart(align: Alignment, lo: int, hi: int, size: int): int {
    match align
    case AlignLeft => lo
    case AlignRight => hi - size + 1
    case AlignCenter => TDiv(lo + hi, 2) - TDiv(size - 1, 2)
  }

  /**
   * The panel rectangle on the given screen for a given length along the
   * docking edge, written edge by edge: the thickness across the edge, the
   * start along the edge from the alignment, the cross position from the
   * docking edge.
   */
  function PlacedRect(c: PanelConfig, screen: Rect, len: int): Rect {
    var thick := ReserveDimension(c.panelSize);
    if IsHorizontal(c.position) then
      var x := AlignedStart(c.alignment, screen.x1, screen.x2, len);
      var y := if c.position == Top then screen.y1 else screen.y2 - thick + 1;
      Rect(x, y, x + len - 1, y + thick - 1)
    else
      var y := AlignedStart(c.alignment, screen.y1, screen.y2, len);
      var x := if c.position == Left then screen.x1 else screen.x2 - thick + 1;
      Rect(x, y, x + thick - 1, y + len - 1)
  }

  /** The panel length on the given screen: measured along the width for a horizontal panel, the height otherwise. */
  function LengthOn(c: PanelConfig, layoutMin: Size, screen: Rect): int {
    if IsHorizontal(c.position) then PanelLength(c.length, c.lengthInPercents, screen.Width(), layoutMin.width)
    else PanelLength(c.length, c.lengthInPercents, screen.Height(), layoutMin.height)
  }

  /** The panel rectangle on the given screen. */
  function PanelRect(c: PanelConfig, layoutMin: Size, screen: Rect): Rect {
    PlacedRect(c, screen, LengthOn(c, layoutMin, screen))
  }

  /**
   * Shape of the panel rectangle: the thickness is the reserve dimension, the
   * length is the panel length; a Top panel shares the screen's top, any other
   * horizontal panel its bottom, a Left panel the screen's left, any other
   * vertical panel its right; Left/Right alignment pins the start/end of the
   * length axis.
   */
  lemma PanelRectShape(c: PanelConfig, layoutMin: Size, screen: Rect)
    ensures var r := PanelRect(c, layoutMin, screen);
      && (IsHorizontal(c.position) ==>
            r.Height() == ReserveDimension(c.panelSize) &&
            r.Width() == PanelLength(c.length, c.lengthInPercents, screen.Width(), layoutMin.width) &&
            (c.position == Top ==> r.Top() == screen.Top()) &&
            (c.position == Bottom ==> r.Bottom() == screen.Bottom()) &&
            (c.alignment == AlignLeft ==> r.Left() == screen.Left()) &&
            (c.alignment == AlignRight ==> r.Right() == screen.Right()))
      && (!IsHorizontal(c.position) ==>
            r.Width() == ReserveDimension(c.panelSize) &&
            r.Height() == PanelLength(c.length, c.lengthInPercents, screen.Height(), layoutMin.height) &&
            (c.position == Left ==> r.Left() == screen.Left()) &&
            (c.position == Right ==> r.Right() == screen.Right()) &&
            (c.alignment == AlignLeft ==> r.Top() == screen.Top()) &&
            (c.alignment == AlignRight ==> r.Bottom() == screen.Bottom()))
  {
  }

  /**
   * A span of size 1..(hi - lo + 1) aligned in [lo, hi] stays inside it;
   * centring needs lo + hi >= 0, where truncation and floor agree.
   */
  lemma AlignedSpanInside(align: Alignment, lo: int, hi: int, size: int)
    requires 1 <= size <= hi - lo + 1
    requires align == AlignCenter ==> lo + hi >= 0
    ensures lo <= AlignedStart(align, lo, hi, size) && AlignedStart(align, lo, hi, size) + size - 1 <= hi
  {
    if align == AlignCenter {
      TDivNonNegative(lo + hi, 2);
      TDivNonNegative(size - 1, 2);
    }
  }

  /**
   * Centring truncates toward zero, so on a screen left of the origin a
   * centred span can overshoot: a full-width span on x = -1920..-1 starts at
   * -1919 and ends at 0, one pixel past the screen's right edge.
   */
  lemma CenteredSpanOvershootsLeftOfOrigin()
    ensures AlignedStart(AlignCenter, -1920, -1, 1920) == -1919
    ensures AlignedStart(AlignCenter, -1920, -1, 1920) + 1920 - 1 > -1
  {
  }

  /**
   * A panel whose thickness and length fit its screen lies entirely on that
   * screen (for centring, the screen's corner sums must be non-negative, as
   * they are for all screens placed at non-negative coordinates; see
   * CenteredSpanOvershootsLeftOfOrigin for what happens otherwise).
   */
  lemma PanelRectInsideScreen(c: PanelConfig, layoutMin: Size, screen: Rect)
    requires c.alignment == AlignCenter ==> screen.x1 + screen.x2 >= 0 && screen.y1 + screen.y2 >= 0
    requires IsHorizontal(c.position) ==>
      ReserveDimension(c.panelSize) <= screen.Height() &&
      1 <= PanelLength(c.length, c.lengthInPercents, screen.Width(), layoutMin.width) <= screen.Width()
    requires !IsHorizontal(c.position) ==>
      ReserveDimension(c.panelSize) <= screen.Width() &&
      1 <= PanelLength(c.length, c.lengthInPercents, screen.Height(), layoutMin.height) <= screen.Height()
    ensures Inside(PanelRect(c, layoutMin, screen), screen)
  {
    if IsHorizontal(c.position) {
      AlignedSpanInside(c.alignment, screen.x1, screen.x2,
        PanelLength(c.length, c.lengthInPercents, screen.Width(), layoutMin.width));
    } else {
      AlignedSpanInside(c.alignment, screen.y1, screen.y2,
        PanelLength(c.length, c.lengthInPercents, screen.Height(), layoutMin.height));
    }
  }

  // ---------------------------------------------------------------------------
  // Partial strut (updateWmStrut)
  // ---------------------------------------------------------------------------

  /** One side of _NET_WM_STRUT_PARTIAL: reserved width and the start/end of the span. */
  datatype StrutSide = StrutSide(width: int, start: int, end: int)

  /** The twelve values of _NET_WM_STRUT_PARTIAL, grouped by side. */
  datatype Strut = Strut(left: StrutSide, right: StrutSide, top: StrutSide, bottom: StrutSide)

  const NoSide := StrutSide(0, 0, 0)
  const NoStrut := Strut(NoSide, NoSide, NoSide, NoSide)

  function SideOf(s: Strut, p: Position): StrutSide {
    match p
    case Top => s.top
    case Bottom => s.bottom
    case Left => s.left
    case Right => s.right
  }

  /**
   * The strut published for a panel with geometry rect. Distances are
   * measured from the edges of the whole virtual screen, not of the monitor.
   */
  function PartialStrut(reserve: bool, pos: Position, rect: Rect, wholeScreen: Rect, panelSize: int): Strut {
    if !reserve then NoStrut
    else
      var d := ReserveDimension(panelSize);
      match pos
      case Top => NoStrut.(top := StrutSide(rect.Top() + d, rect.Left(), rect.Right()))
      case Bottom => NoStrut.(bottom := StrutSide(wholeScreen.Bottom() - rect.Bottom() + d, rect.Left(), rect.Right()))
      case Left => NoStrut.(left := StrutSide(rect.Left() + d, rect.Top(), rect.Bottom()))
      case Right => NoStrut.(right := StrutSide(wholeScreen.Right() - rect.Right() + d, rect.Top(), rect.Bottom()))
  }

  /**
   * With reservation off all twelve values are zero; with it on every side
   * other than the panel's edge is zero and the panel's side spans the
   * panel's extent along that edge.
   */
  lemma StrutOnlyOnPanelEdge(reserve: bool, pos: Position, rect: Rect, wholeScreen: Rect, panelSize: int)
    ensures var s := PartialStrut(reserve, pos, rect, wholeScreen, panelSize);
      && (!reserve ==> s == NoStrut)
      && (forall q :: q != pos ==> SideOf(s, q) == NoSide)
      && (reserve && IsHorizontal(pos) ==> SideOf(s, pos).start == rect.Left() && SideOf(s, pos).end == rect.Right())
      && (reserve && !IsHorizontal(pos) ==> SideOf(s, pos).start == rect.Top() && SideOf(s, pos).end == rect.Bottom())
  {
  }

  /**
   * For the rectangle the panel computes, the reserved strip ends exactly at
   * the panel's inner edge: a Top strut reserves rows 0..bottom, a Left strut
   * columns 0..right, a Bottom strut the rows from the panel's top to the
   * bottom of the whole screen, a Right strut the columns from the panel's
   * left to the right of the whole screen.
   */
  lemma StrutCoversPanel(c: PanelConfig, layoutMin: Size, screen: Rect, wholeScreen: Rect)
    ensures var r := PanelRect(c, layoutMin, screen);
      var s := PartialStrut(true, c.position, r, wholeScreen, c.panelSize);
      && (c.position == Top ==> s.top.width == r.Bottom() + 1)
      && (c.position == Left ==> s.left.width == r.Right() + 1)
      && (c.position == Bottom ==> wholeScreen.Bottom() - s.bottom.width + 1 == r.Top())
      && (c.position == Right ==> wholeScreen.Right() - s.right.width + 1 == r.Left())
  {
    PanelRectShape(c, layoutMin, screen);
  }

  // ---------------------------------------------------------------------------
  // Screen validity and fallback (canPlacedOn / findAvailableScreen)
  // ---------------------------------------------------------------------------

  /** QDesktopWidget::screenGeometry: the screen's rectangle, or QRect() for a number with no screen. */
  function ScreenGeometry(screens: seq<Rect>, i: int): Rect {
    if 0 <= i < |screens| then screens[i] else NullRect
  }

  /** Some screen lies strictly beyond target's edge pos (a Top panel would then be on a boundary). */
  predicate Beyond(other: Rect, target: Rect, pos: Position) {
    match pos
    case Top => other.Bottom() < target.Top()
    case Bottom => other.Top() > target.Bottom()
    case Left => other.Right() < target.Left()
    case Right => other.Left() > target.Right()
  }

  /** canPlacedOn: no screen lies strictly beyond screen s on the side of edge pos. */
  predicate CanHost(screens: seq<Rect>, s: int, pos: Position) {
    forall i :: 0 <= i < |screens| ==> !Beyond(screens[i], ScreenGeometry(screens, s), pos)
  }

  /** The first screen number in lo..hi-1 that can host pos, if any. */
  function FirstHostableIn(screens: seq<Rect>, lo: int, hi: int, pos: Position): (r: Option<int>)
    decreases hi - lo
    ensures r.Some? ==> (lo <= r.value < hi && CanHost(screens, r.value, pos) &&
                         forall j :: lo <= j < r.value ==> !CanHost(screens, j, pos))
    ensures r.None? ==> forall j :: lo <= j < hi ==> !CanHost(screens, j, pos)
  {
    if lo >= hi then None
    else if CanHost(screens, lo, pos) then Some(lo)
    else FirstHostableIn(screens, lo + 1, hi, pos)
  }

  /** findAvailableScreen: scan current..n-1, then 0..current-1; 0 when nothing is found. */
  function AvailableScreen(screens: seq<Rect>, current: int, pos: Position): int {
    match FirstHostableIn(screens, current, |screens|, pos)
    case Some(i) => i
    case None => FirstHostableIn(screens, 0, current, pos).GetOr(0)
  }

  /**
   * The fallback screen is the first hostable number in the scan order
   * current..n-1, 0..current-1, and 0 when no number in the scan can host.
   */
  lemma AvailableScreenScan(screens: seq<Rect>, current: int, pos: Position)
    ensures var r := AvailableScreen(screens, current, pos);
      && ((exists i :: current <= i < |screens| && CanHost(screens, i, pos)) ==>
            current <= r < |screens| && CanHost(screens, r, pos) &&
            forall j :: current <= j < r ==> !CanHost(screens, j, pos))
      && ((forall i :: current <= i < |screens| ==> !CanHost(screens, i, pos)) &&
          (exists i :: 0 <= i < current && CanHost(screens, i, pos)) ==>
            0 <= r < current && CanHost(screens, r, pos) &&
            forall j :: 0 <= j < r ==> !CanHost(screens, j, pos))
      && ((forall i :: (current <= i < |screens| || 0 <= i < current) ==> !CanHost(screens, i, pos)) ==> r == 0)
  {
  }

  /** A screen rectangle with at least one pixel. */
  predicate NonEmpty(r: Rect) {
    r.x1 <= r.x2 && r.y1 <= r.y2
  }

  /** The coordinate of a screen's pos edge, negated where larger is further out. */
  function EdgeKey(r: Rect, pos: Position): int {
    match pos
    case Top => r.y1
    case Bottom => -r.y2
    case Left => r.x1
    case Right => -r.x2
  }

  /** The screen whose pos edge lies furthest out (the first such). */
  function OutermostScreen(screens: seq<Rect>, pos: Position): (k: nat)
    requires |screens| > 0
    ensures k < |screens|
    ensures forall i :: 0 <= i < |screens| ==> EdgeKey(screens[k], pos) <= EdgeKey(screens[i], pos)
  {
    if |screens| == 1 then 0
    else
      var k := OutermostScreen(screens[..|screens| - 1], pos);
      if EdgeKey(screens[|screens| - 1], pos) < EdgeKey(screens[k], pos) then |screens| - 1 else k
  }

  /** With non-empty screens, the outermost screen for an edge can host that edge. */
  lemma OutermostScreenCanHost(screens: seq<Rect>, pos: Position)
    requires |screens| > 0 && forall i :: 0 <= i < |screens| ==> NonEmpty(screens[i])
    ensures CanHost(screens, OutermostScreen(screens, pos), pos)
  {
    var k := OutermostScreen(screens, pos);
    forall i | 0 <= i < |screens|
      ensures !Beyond(screens[i], ScreenGeometry(screens, k), pos)
    {
      assert EdgeKey(screens[k], pos) <= EdgeKey(screens[i], pos);
      assert NonEmpty(screens[i]);
    }
  }

  /**
   * With at least one screen and every screen non-empty, the fallback never
   * lands on an unusable number: it can host the edge, and it is a real
   * screen whenever the scan starts at a non-negative number.
   */
  lemma AvailableScreenHosts(screens: seq<Rect>, current: int, pos: Position)
    requires |screens| > 0 && forall i :: 0 <= i < |screens| ==> NonEmpty(screens[i])
    ensures CanHost(screens, AvailableScreen(screens, current, pos), pos)
    ensures current >= 0 ==> 0 <= AvailableScreen(screens, current, pos) < |screens|
  {
    var k := OutermostScreen(screens, pos);
    OutermostScreenCanHost(screens, pos);
    AvailableScreenScan(screens, current, pos);
    if current > k {
      assert 0 <= k < current;
    }
  }

  /**
   * The screen-number lookup gives QRect() for a number with no screen, so
   * a disconnected screen still passes the Top test whenever no screen lies
   * above y = 0: a Top panel configured on a detached monitor keeps it.
   */
  lemma DetachedScreenPassesTopTest(screens: seq<Rect>, s: int)
    requires !(0 <= s < |screens|)
    requires forall i :: 0 <= i < |screens| ==> screens[i].Bottom() >= 0
    ensures CanHost(screens, s, Top)
  {
  }

  /**
   * With one 1920x1080 screen, the unplugged screen number 1 still passes the
   * test for a Top or Left panel, so ensureVisible keeps such a panel there;
   * a Bottom or Right panel on it fails the test and falls back.
   */
  lemma UnpluggedScreenHostsTopAndLeft()
    ensures !(0 <= 1 < |[Rect(0, 0, 1919, 1079)]|)
    ensures CanHost([Rect(0, 0, 1919, 1079)], 1, Top) && CanHost([Rect(0, 0, 1919, 1079)], 1, Left)
    ensures !CanHost([Rect(0, 0, 1919, 1079)], 1, Bottom) && !CanHost([Rect(0, 0, 1919, 1079)], 1, Right)
  {
    var screens := [Rect(0, 0, 1919, 1079)];
    assert Beyond(screens[0], ScreenGeometry(screens, 1), Bottom);
    assert Beyond(screens[0], ScreenGeometry(screens, 1), Right);
  }

  // ---------------------------------------------------------------------------
  // Popup placement (calculatePopupWindowPos)
  // ---------------------------------------------------------------------------

  /** The top-left corner a popup starts from, next to the panel's edge. */
  function PopupAnchor(panel: Rect, pos: Position, absolutePos: Point, windowSize: Size): Point {
    match pos
    case Top => Point(absolutePos.x, panel.Bottom())
    case Bottom => Point(absolutePos.x, panel.Top() - windowSize.height)
    case Left => Point(panel.Right(), absolutePos.y)
    case Right => Point(panel.Left() - windowSize.width, absolutePos.y)
  }

  /** The sequential clamp of one axis: first pull the far edge back to hi, then push the start up to lo. */
  function ClampStart(start: int, extent: int, lo: int, hi: int): int {
    var s := if start + extent - 1 > hi then hi - extent + 1 else start;
    if s < lo then lo else s
  }

  /** Where the popup of a panel with geometry panel ends up on the given screen. */
  function PopupRect(panel: Rect, pos: Position, absolutePos: Point, windowSize: Size, screen: Rect): Rect {
    var a := PopupAnchor(panel, pos, absolutePos, windowSize);
    RectAt(Point(ClampStart(a.x, windowSize.width, screen.x1, screen.x2),
                 ClampStart(a.y, windowSize.height, screen.y1, screen.y2)), windowSize)
  }

  /**
   * The popup always has exactly the requested size; along each axis it lies
   * on the screen when it fits, and otherwise starts at the screen's left/top
   * edge (the later clamps win); when its anchored rectangle is already on
   * the screen it stays there, next to the panel: below a Top panel's last
   * row, above a Bottom panel, right of a Left panel's last column, left of a
   * Right panel.
   */
  lemma PopupPlacement(panel: Rect, pos: Position, absolutePos: Point, windowSize: Size, screen: Rect)
    requires windowSize.width >= 0 && windowSize.height >= 0
    ensures var r := PopupRect(panel, pos, absolutePos, windowSize, screen);
      && r.Dimensions() == windowSize
      && (windowSize.width <= screen.Width() ==> screen.Left() <= r.Left() && r.Right() <= screen.Right())
      && (windowSize.width > screen.Width() ==> r.Left() == screen.Left())
      && (windowSize.height <= screen.Height() ==> screen.Top() <= r.Top() && r.Bottom() <= screen.Bottom())
      && (windowSize.height > screen.Height() ==> r.Top() == screen.Top())
      && (Inside(RectAt(PopupAnchor(panel, pos, absolutePos, windowSize), windowSize), screen) ==>
            r == RectAt(PopupAnchor(panel, pos, absolutePos, windowSize), windowSize) &&
            (pos == Top ==> r.Top() == panel.Bottom()) &&
            (pos == Bottom ==> r.Bottom() == panel.Top() - 1) &&
            (pos == Left ==> r.Left() == panel.Right()) &&
            (pos == Right ==> r.Right() == panel.Left() - 1))
  {
  }
}
