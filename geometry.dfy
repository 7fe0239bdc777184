// Screen geometry used by the behaviour engine: Qt rectangles, the virtual
// desktop that encloses every screen, and the edge of that desktop nearest
// to the pointer.

module Geometry {

  datatype Point = Point(x: int, y: int)
  {
    function Plus(d: Point): Point { Point(x + d.x, y + d.y) }
  }

  /** A Qt rectangle: top-left corner and size. Screen geometries never have
      a negative size. As in Qt, right() and bottom() are the last column and
      row inside the rectangle, one less than x + width and y + height. */
  datatype Rect = Rect(x: int, y: int, width: nat, height: nat)
  {
    function Left(): int { x }
    function Top(): int { y }
    function Right(): int { x + width - 1 }
    function Bottom(): int { y + height - 1 }

    /** QRect::contains for a point: inclusive of right() and bottom(). */
    predicate Contains(p: Point) {
      Left() <= p.x <= Right() && Top() <= p.y <= Bottom()
    }

    /** Every column and row of inner is a column and row of this rectangle. */
    predicate Encloses(inner: Rect) {
      x <= inner.x && inner.x + inner.width <= x + width &&
      y <= inner.y && inner.y + inner.height <= y + height
    }
  }

  function Abs(n: int): nat { if n < 0 then -n else n }

  /** Python's min() over a nonempty generator. Its bounds are stated by
      MinimumIsLeast. */
  function Minimum(s: seq<int>): (m: int)
    requires |s| > 0
    ensures m <= s[0]
  {
    if |s| == 1 then s[0]
    else
      var rest := Minimum(s[1..]);
      if s[0] <= rest then s[0] else rest
  }

  /** Python's max() over a nonempty generator. Its bounds are stated by
      MaximumIsGreatest. */
  function Maximum(s: seq<int>): (m: int)
    requires |s| > 0
    ensures s[0] <= m
  {
    if |s| == 1 then s[0]
    else
      var rest := Maximum(s[1..]);
      if rest <= s[0] then s[0] else rest
  }

  /** min() is a lower bound of the sequence and one of its elements. */
  lemma {:induction false} MinimumIsLeast(s: seq<int>)
    requires |s| > 0
    ensures forall i :: 0 <= i < |s| ==> Minimum(s) <= s[i]
    ensures exists i :: 0 <= i < |s| && Minimum(s) == s[i]
  {
    if |s| == 1 {
      assert Minimum(s) == s[0];
    } else {
      MinimumIsLeast(s[1..]);
      assert forall i :: 1 <= i < |s| ==> s[i] == s[1..][i - 1];
      var k :| 0 <= k < |s[1..]| && Minimum(s[1..]) == s[1..][k];
      if Minimum(s) == s[0] {
        assert Minimum(s) == s[0];
      } else {
        assert Minimum(s) == s[k + 1];
      }
    }
  }

  /** max() is an upper bound of the sequence and one of its elements. */
  lemma {:induction false} MaximumIsGreatest(s: seq<int>)
    requires |s| > 0
    ensures forall i :: 0 <= i < |s| ==> s[i] <= Maximum(s)
    ensures exists i :: 0 <= i < |s| && Maximum(s) == s[i]
  {
    if |s| == 1 {
      assert Maximum(s) == s[0];
    } else {
      MaximumIsGreatest(s[1..]);
      assert forall i :: 1 <= i < |s| ==> s[i] == s[1..][i - 1];
      var k :| 0 <= k < |s[1..]| && Maximum(s[1..]) == s[1..][k];
      if Maximum(s) == s[0] {
        assert Maximum(s) == s[0];
      } else {
        assert Maximum(s) == s[k + 1];
      }
    }
  }

  function Lefts(screens: seq<Rect>): seq<int>
  {
    seq(|screens|, i requires 0 <= i < |screens| => screens[i].x)
  }

  function Tops(screens: seq<Rect>): seq<int>
  {
    seq(|screens|, i requires 0 <= i < |screens| => screens[i].y)
  }

  function Ends(screens: seq<Rect>): seq<int>
  {
    seq(|screens|, i requires 0 <= i < |screens| => screens[i].x + screens[i].width)
  }

  function Floors(screens: seq<Rect>): seq<int>
  {
    seq(|screens|, i requires 0 <= i < |screens| => screens[i].y + screens[i].height)
  }

  /** The bounding box of all screens (get_virtual_desktop_geometry). Its
      properties are stated by VirtualDesktopIsBoundingBox rather than as
      postconditions, so that the many callers that only need the value do
      not pay for the quantifiers. */
  function VirtualDesktop(screens: seq<Rect>): Rect
    requires |screens| > 0
  {
    var minX := Minimum(Lefts(screens));
    var minY := Minimum(Tops(screens));
    var maxX := Maximum(Ends(screens));
    var maxY := Maximum(Floors(screens));
    assert minX <= screens[0].x <= screens[0].x + screens[0].width <= maxX;
    assert minY <= screens[0].y <= screens[0].y + screens[0].height <= maxY;
    Rect(minX, minY, maxX - minX, maxY - minY)
  }

  /** The virtual desktop encloses every screen, and each of its four sides
      is the side of some screen, so no smaller rectangle encloses them all. */
  lemma VirtualDesktopIsBoundingBox(screens: seq<Rect>)
    requires |screens| > 0
    ensures var r := VirtualDesktop(screens);
      (forall i :: 0 <= i < |screens| ==> r.Encloses(screens[i])) &&
      (exists i :: 0 <= i < |screens| && r.x == screens[i].x) &&
      (exists i :: 0 <= i < |screens| && r.y == screens[i].y) &&
      (exists i :: 0 <= i < |screens| && r.x + r.width == screens[i].x + screens[i].width) &&
      (exists i :: 0 <= i < |screens| && r.y + r.height == screens[i].y + screens[i].height)
  {
    var l, t, e, f := Lefts(screens), Tops(screens), Ends(screens), Floors(screens);
    MinimumIsLeast(l);
    MinimumIsLeast(t);
    MaximumIsGreatest(e);
    MaximumIsGreatest(f);
    var r := VirtualDesktop(screens);
    assert forall i :: 0 <= i < |screens| ==>
      l[i] == screens[i].x && t[i] == screens[i].y &&
      e[i] == screens[i].x + screens[i].width && f[i] == screens[i].y + screens[i].height;
    assert r.x == Minimum(l) && r.y == Minimum(t);
    assert r.x + r.width == Maximum(e) && r.y + r.height == Maximum(f);
  }

  /** A point on any screen is a point of the virtual desktop. */
  lemma OnScreenInsideDesktop(screens: seq<Rect>, i: nat, p: Point)
    requires i < |screens| && screens[i].Contains(p)
    ensures VirtualDesktop(screens).Contains(p)
  {
    VirtualDesktopIsBoundingBox(screens);
    assert VirtualDesktop(screens).Encloses(screens[i]);
  }

  /** is_cursor_on_screen: whether some screen contains the point, tried in
      the order the screens are listed. */
  function OnAnyScreen(screens: seq<Rect>, p: Point): bool
  {
    if |screens| == 0 then false
    else screens[0].Contains(p) || OnAnyScreen(screens[1..], p)
  }

  /** The pointer is on a screen exactly when some screen contains it. */
  lemma {:induction false} OnAnyScreenIff(screens: seq<Rect>, p: Point)
    ensures OnAnyScreen(screens, p) <==> exists i :: 0 <= i < |screens| && screens[i].Contains(p)
  {
    if |screens| > 0 {
      OnAnyScreenIff(screens[1..], p);
      assert forall i :: 1 <= i < |screens| ==> screens[i] == screens[1..][i - 1];
      if OnAnyScreen(screens[1..], p) {
        var k :| 0 <= k < |screens[1..]| && screens[1..][k].Contains(p);
        assert screens[k + 1].Contains(p);
      }
    }
  }

  /** A pointer off every screen but inside the desktop's bounding box is
      possible: two screens side by side at different heights leave a gap. */
  lemma OffScreenInsideBoundingBox()
    ensures var screens := [Rect(0, 0, 100, 100), Rect(100, 50, 100, 100)];
            var p := Point(150, 10);
            !OnAnyScreen(screens, p) && VirtualDesktop(screens).Contains(p)
  {
    var screens := [Rect(0, 0, 100, 100), Rect(100, 50, 100, 100)];
    var p := Point(150, 10);
    assert !screens[0].Contains(p) && !screens[1].Contains(p);
    assert OnAnyScreen(screens[1..], p) == OnAnyScreen(screens[2..], p);
    var d := VirtualDesktop(screens);
    assert d.x == 0 && d.y == 0;
    assert d.x + d.width == 200 && d.y + d.height == 150;
  }

  datatype Edge = Up | Down | Left | Right

  /** The two digging sprites for each edge; note right comes between up and
      down in the sprite table. */
  function DigFrames(e: Edge): (pair: (int, int))
    ensures 16 <= pair.0 <= 22 && pair.1 == pair.0 + 1 && pair.0 % 2 == 0
  {
    match e
    case Up => (16, 17)
    case Down => (20, 21)
    case Left => (22, 23)
    case Right => (18, 19)
  }

  /** How far the pointer is from the line of one edge of the desktop. */
  function EdgeDistance(e: Edge, p: Point, desk: Rect): nat
  {
    match e
    case Up => Abs(p.y - desk.Top())
    case Down => Abs(p.y - desk.Bottom())
    case Left => Abs(p.x - desk.Left())
    case Right => Abs(p.x - desk.Right())
  }

  /** Tie-break order: top, then bottom, then left, then right. */
  function Rank(e: Edge): nat
  {
    match e
    case Up => 0
    case Down => 1
    case Left => 2
    case Right => 3
  }

  function Min4(a: int, b: int, c: int, d: int): int
  {
    var ab := if a <= b then a else b;
    var cd := if c <= d then c else d;
    if ab <= cd then ab else cd
  }

  /** The edge of desk nearest to p; on a tie, the first in Rank order. */
  function NearestEdge(p: Point, desk: Rect): Edge
  {
    var top := Abs(p.y - desk.Top());
    var bottom := Abs(p.y - desk.Bottom());
    var left := Abs(p.x - desk.Left());
    var right := Abs(p.x - desk.Right());
    var m := Min4(top, bottom, left, right);
    if m == top then Up
    else if m == bottom then Down
    else if m == left then Left
    else Right
  }

  /** NearestEdge is no farther than any edge, and strictly nearer than every
      edge ranked before it. */
  lemma NearestEdgeIsNearest(p: Point, desk: Rect)
    ensures var e := NearestEdge(p, desk);
      (forall f: Edge :: EdgeDistance(e, p, desk) <= EdgeDistance(f, p, desk)) &&
      (forall f: Edge :: Rank(f) < Rank(e) ==> EdgeDistance(f, p, desk) > EdgeDistance(e, p, desk))
  {
  }

  /** An edge is the nearest one exactly when no edge is nearer and every
      edge ranked before it is strictly farther. */
  lemma NearestEdgeCharacterized(p: Point, desk: Rect, e: Edge)
    ensures NearestEdge(p, desk) == e <==>
      (forall f: Edge :: EdgeDistance(e, p, desk) <= EdgeDistance(f, p, desk)) &&
      (forall f: Edge :: Rank(f) < Rank(e) ==> EdgeDistance(f, p, desk) > EdgeDistance(e, p, desk))
  {
    NearestEdgeIsNearest(p, desk);
  }

  /** get_screen_edge: the nearest edge of the virtual desktop and its pair
      of digging sprites. */
  function ScreenEdge(p: Point, screens: seq<Rect>): (r: (Edge, (int, int)))
    requires |screens| > 0
    ensures r.1 == DigFrames(r.0)
  {
    var e := NearestEdge(p, VirtualDesktop(screens));
    (e, DigFrames(e))
  }

  /** A pointer as far above the desktop as to its left digs upward; one just
      past the right side digs right. */
  lemma ScreenEdgeExamples()
    ensures ScreenEdge(Point(-5, -5), [Rect(0, 0, 1920, 1080)]) == (Up, (16, 17))
    ensures ScreenEdge(Point(1925, 500), [Rect(0, 0, 1920, 1080)]) == (Right, (18, 19))
    ensures ScreenEdge(Point(960, 1085), [Rect(0, 0, 1920, 1080)]) == (Down, (20, 21))
  {
    var d := VirtualDesktop([Rect(0, 0, 1920, 1080)]);
    assert d == Rect(0, 0, 1920, 1080);
  }
}
