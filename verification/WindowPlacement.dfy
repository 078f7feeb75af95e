/** Where a restored window goes (emain/emain-util.ts): onto a display, if its corners are not all on one. */
module WindowPlacement {
  import opened Wrappers

  datatype Rectangle = Rectangle(x: int, y: int, width: int, height: int)

  datatype Display = Display(bounds: Rectangle, workArea: Rectangle)

  function Min(a: int, b: int): int {
    if a < b then a else b
  }

  function Max(a: int, b: int): int {
    if a > b then a else b
  }

  /** The right and bottom edges are outside. */
  predicate Contains(r: Rectangle, x: int, y: int) {
    r.x <= x < r.x + r.width && r.y <= y < r.y + r.height
  }

  predicate Within(inner: Rectangle, outer: Rectangle) {
    && outer.x <= inner.x && inner.x + inner.width <= outer.x + outer.width
    && outer.y <= inner.y && inner.y + inner.height <= outer.y + outer.height
  }

  predicate OnSome(displays: seq<Display>, x: int, y: int) {
    exists d :: d in displays && Contains(d.bounds, x, y)
  }

  predicate FullyVisible(displays: seq<Display>, b: Rectangle) {
    && OnSome(displays, b.x, b.y) && OnSome(displays, b.x + b.width, b.y)
    && OnSome(displays, b.x, b.y + b.height) && OnSome(displays, b.x + b.width, b.y + b.height)
  }

  function OverlapArea(b: Rectangle, r: Rectangle): nat {
    var overlapX := Max(0, Min(b.x + b.width, r.x + r.width) - Max(b.x, r.x));
    var overlapY := Max(0, Min(b.y + b.height, r.y + r.height) - Max(b.y, r.y));
    Product(overlapX, overlapY)
  }

  function Product(a: nat, b: nat): (p: nat)
    ensures p > 0 <==> a > 0 && b > 0
  {
    if a == 0 || b == 0 then 0 else
      assert a * b > 0;
      a * b
  }

  /** The first display, if any, that no other one overlaps with more. */
  ghost predicate HasMostArea(displays: seq<Display>, b: Rectangle, best: Option<Display>) {
    match best
    case None => forall d | d in displays :: OverlapArea(b, d.bounds) == 0
    case Some(d) =>
      && OverlapArea(b, d.bounds) > 0
      && exists i | 0 <= i < |displays| ::
           && displays[i] == d
           && (forall j | 0 <= j < |displays| :: OverlapArea(b, displays[j].bounds) <= OverlapArea(b, d.bounds))
           && (forall j | 0 <= j < i :: OverlapArea(b, displays[j].bounds) < OverlapArea(b, d.bounds))
  }

  lemma MostAreaIsUnique(displays: seq<Display>, b: Rectangle, first: Option<Display>, second: Option<Display>)
    requires HasMostArea(displays, b, first) && HasMostArea(displays, b, second)
    ensures first == second
  {
  }

  method IsPointInDisplay(displays: seq<Display>, x: int, y: int) returns (found: bool)
    ensures found == OnSome(displays, x, y)
  {
    for i := 0 to |displays|
      invariant forall j | 0 <= j < i :: !Contains(displays[j].bounds, x, y)
    {
      if Contains(displays[i].bounds, x, y) {
        return true;
      }
    }
    return false;
  }

  method IsWindowFullyVisible(displays: seq<Display>, b: Rectangle) returns (visible: bool)
    ensures visible == FullyVisible(displays, b)
  {
    var topLeft := IsPointInDisplay(displays, b.x, b.y);
    var topRight := IsPointInDisplay(displays, b.x + b.width, b.y);
    var bottomLeft := IsPointInDisplay(displays, b.x, b.y + b.height);
    var bottomRight := IsPointInDisplay(displays, b.x + b.width, b.y + b.height);
    visible := topLeft && topRight && bottomLeft && bottomRight;
  }

  method FindDisplayWithMostArea(displays: seq<Display>, b: Rectangle) returns (best: Option<Display>)
    ensures HasMostArea(displays, b, best)
  {
    var maxArea := 0;
    best := None;
    ghost var at := 0;
    for i := 0 to |displays|
      invariant best.None? ==> maxArea == 0
      invariant best.Some? ==> 0 <= at < i && displays[at] == best.value
                               && maxArea == OverlapArea(b, best.value.bounds) > 0
                               && forall j | 0 <= j < at :: OverlapArea(b, displays[j].bounds) < maxArea
      invariant forall j | 0 <= j < i :: OverlapArea(b, displays[j].bounds) <= maxArea
    {
      var overlapArea := OverlapArea(b, displays[i].bounds);
      if overlapArea > maxArea {
        maxArea := overlapArea;
        best := Some(displays[i]);
        at := i;
      }
    }
  }

  // ---- Fitting ----

  function Distance(a: int, b: int): nat {
    if a < b then b - a else a - b
  }

  /** One axis of the adjusted window: its size is cut to the area's, and it moves no further than it must. */
  ghost predicate FitsAxis(at: int, size: int, areaAt: int, areaSize: int, newAt: int, newSize: int) {
    && newSize == Min(size, areaSize)
    && (areaAt <= at && at + newSize <= areaAt + areaSize ==> newAt == at)
    && areaAt <= newAt && newAt + newSize <= areaAt + areaSize
    && (forall other: int | areaAt <= other && other + newSize <= areaAt + areaSize ::
          Distance(newAt, at) <= Distance(other, at))
  }

  ghost predicate Fits(b: Rectangle, area: Rectangle, fitted: Rectangle) {
    && FitsAxis(b.x, b.width, area.x, area.width, fitted.x, fitted.width)
    && FitsAxis(b.y, b.height, area.y, area.height, fitted.y, fitted.height)
  }

  /** Inside the work area, at the nearest such place, and no smaller than it must be. */
  method AdjustBoundsToFitDisplay(b: Rectangle, display: Display) returns (fitted: Rectangle)
    ensures Fits(b, display.workArea, fitted)
    ensures Within(fitted, display.workArea)
  {
    var area := display.workArea;
    var x, y := b.x, b.y;
    var width := Min(b.width, area.width);
    var height := Min(b.height, area.height);
    if x < area.x {
      x := area.x;
    } else if x + width > area.x + area.width {
      x := area.x + area.width - width;
    }
    if y < area.y {
      y := area.y;
    } else if y + height > area.y + area.height {
      y := area.y + area.height - height;
    }
    fitted := Rectangle(x, y, width, height);
  }

  lemma FitIsUnique(b: Rectangle, area: Rectangle, first: Rectangle, second: Rectangle)
    requires Fits(b, area, first) && Fits(b, area, second)
    ensures first == second
  {
    AxisIsUnique(b.x, b.width, area.x, area.width, first.x, second.x, first.width);
    AxisIsUnique(b.y, b.height, area.y, area.height, first.y, second.y, first.height);
  }

  lemma AxisIsUnique(at: int, size: int, areaAt: int, areaSize: int, first: int, second: int, newSize: int)
    requires FitsAxis(at, size, areaAt, areaSize, first, newSize)
             && FitsAxis(at, size, areaAt, areaSize, second, newSize)
    ensures first == second
  {
    assert Distance(first, at) == Distance(second, at);
  }

  // ---- The whole placement ----

  ghost predicate IsPlaced(displays: seq<Display>, primary: Display, b: Rectangle, placed: Rectangle) {
    if FullyVisible(displays, b) then placed == b
    else exists best ::
      HasMostArea(displays, b, best) && Fits(b, (if best.Some? then best.value else primary).workArea, placed)
  }

  /**
   A window whose four corners are on displays stays; any other goes into the work area of the display
   it overlaps most, or of the primary one if it overlaps none.
   */
  method EnsureBoundsAreVisible(displays: seq<Display>, primary: Display, b: Rectangle) returns (placed: Rectangle)
    ensures IsPlaced(displays, primary, b, placed)
    ensures FullyVisible(displays, b) ==> placed == b
    ensures !FullyVisible(displays, b) ==>
              exists d | d == primary || d in displays ::
                && Within(placed, d.workArea)
                && (forall other | other in displays :: OverlapArea(b, other.bounds) <= OverlapArea(b, d.bounds)
                                                        || (d == primary && OverlapArea(b, other.bounds) == 0))
  {
    var visible := IsWindowFullyVisible(displays, b);
    if visible {
      return b;
    }
    var best := FindDisplayWithMostArea(displays, b);
    var target := primary;
    if best.Some? {
      target := best.value;
    }
    placed := AdjustBoundsToFitDisplay(b, target);
    assert target == primary || target in displays;
  }

  lemma PlacementIsUnique(displays: seq<Display>, primary: Display, b: Rectangle, first: Rectangle, second: Rectangle)
    requires IsPlaced(displays, primary, b, first) && IsPlaced(displays, primary, b, second)
    ensures first == second
  {
    if !FullyVisible(displays, b) {
      var one :| HasMostArea(displays, b, one) && Fits(b, (if one.Some? then one.value else primary).workArea, first);
      var two :| HasMostArea(displays, b, two) && Fits(b, (if two.Some? then two.value else primary).workArea, second);
      MostAreaIsUnique(displays, b, one, two);
      FitIsUnique(b, (if one.Some? then one.value else primary).workArea, first, second);
    }
  }

  predicate Apart(a: Rectangle, b: Rectangle) {
    || a.x + a.width <= b.x || b.x + b.width <= a.x
    || a.y + a.height <= b.y || b.y + b.height <= a.y
  }

  /** Displays do not overlap, and each has a work area of some size inside its bounds. */
  ghost predicate Sane(displays: seq<Display>) {
    && (forall i, j | 0 <= i < j < |displays| :: Apart(displays[i].bounds, displays[j].bounds))
    && (forall d | d in displays :: d.workArea.width > 0 && d.workArea.height > 0 && Within(d.workArea, d.bounds))
  }

  /**
   Placing a placed window again leaves it where it is, whatever its size: a window that was moved into
   a display's work area overlaps that display most, or is empty and goes to the primary one both times.
   */
  lemma PlacementIsIdempotent(displays: seq<Display>, primary: Display, b: Rectangle, placed: Rectangle)
    requires Sane(displays) && primary in displays
    requires IsPlaced(displays, primary, b, placed)
    ensures IsPlaced(displays, primary, placed, placed)
    ensures forall again | IsPlaced(displays, primary, placed, again) :: again == placed
  {
    if !FullyVisible(displays, b) && !FullyVisible(displays, placed) {
      var best :| HasMostArea(displays, b, best)
                  && Fits(b, (if best.Some? then best.value else primary).workArea, placed);
      var target := if best.Some? then best.value else primary;
      FittedStays(b, target.workArea, placed);
      if placed.width > 0 && placed.height > 0 {
        OwnDisplayHasMostArea(displays, target, placed);
        assert HasMostArea(displays, placed, Some(target));
      } else {
        EmptyOverlapsNothing(displays, placed);
        assert HasMostArea(displays, placed, None);
        if best.Some? {
          PositiveOverlapStaysPositive(b, best.value, placed);
        }
      }
    }
    forall again | IsPlaced(displays, primary, placed, again)
      ensures again == placed
    {
      PlacementIsUnique(displays, primary, placed, placed, again);
    }
  }

  lemma FittedStays(b: Rectangle, area: Rectangle, fitted: Rectangle)
    requires Fits(b, area, fitted)
    ensures Fits(fitted, area, fitted) && Within(fitted, area)
  {
  }

  lemma OwnDisplayHasMostArea(displays: seq<Display>, d: Display, b: Rectangle)
    requires Sane(displays) && d in displays && Within(b, d.workArea) && b.width > 0 && b.height > 0
    ensures HasMostArea(displays, b, Some(d))
  {
    assert OverlapArea(b, d.bounds) > 0;
    var i :| 0 <= i < |displays| && displays[i] == d;
    forall j | 0 <= j < |displays| && j != i
      ensures OverlapArea(b, displays[j].bounds) == 0
    {
      assert Apart(d.bounds, displays[j].bounds);
      ApartOverlapsNothing(b, d.bounds, displays[j].bounds);
    }
  }

  lemma ApartOverlapsNothing(b: Rectangle, own: Rectangle, other: Rectangle)
    requires Within(b, own) && Apart(own, other)
    ensures OverlapArea(b, other) == 0
  {
  }

  lemma EmptyOverlapsNothing(displays: seq<Display>, b: Rectangle)
    requires b.width <= 0 || b.height <= 0
    ensures forall d | d in displays :: OverlapArea(b, d.bounds) == 0
  {
  }

  lemma PositiveOverlapStaysPositive(b: Rectangle, d: Display, fitted: Rectangle)
    requires OverlapArea(b, d.bounds) > 0 && d.workArea.width > 0 && d.workArea.height > 0
    requires Fits(b, d.workArea, fitted)
    ensures fitted.width > 0 && fitted.height > 0
  {
  }
}
