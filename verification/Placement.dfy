/**
 * Where the buddy's orb and its card stand (desktop/buddyPlacement.js): the window for an orb, the
 * display a drop lands on, and the spot that is saved and found again.
 *
 * Coordinates are whole points, y downward. What the source halves and rounds is kept exact by rounding
 * twice the value; distances are compared by their squares. The stored text's JSON form is not modelled.
 */
module Placement {
  import opened Options

  const ORB_BOX: int := 56
  const CARD_GAP: int := 8
  const DEFAULT_TOP_GAP: int := 8
  const DOCK_ZONE: int := 96

  datatype Point = Point(x: int, y: int)
  datatype Rect = Rect(x: int, y: int, width: int, height: int) {
    function Right(): int { x + width }
    function Bottom(): int { y + height }
  }
  datatype Budget = Budget(width: int, maxHeight: int)
  datatype Display = Display(id: int, bounds: Rect, workArea: Rect)

  function Min(a: int, b: int): int { if a <= b then a else b }
  function Max(a: int, b: int): int { if a >= b then a else b }
  function Clamp(v: int, lo: int, hi: int): int { Min(Max(v, lo), Max(lo, hi)) }

  /** Half of *twice*, halves rounded up. */
  function RoundHalf(twice: int): int {
    (twice + 1) / 2
  }

  // ── The window for an orb ──

  datatype Side = OnRight | OnLeft | Below | Above
  datatype Opens = Down | Up
  datatype Layout = Layout(side: Side, opens: Opens, window: Rect, orb: Rect, card: Rect)

  function OrbBox(orb: Point): Rect {
    Rect(orb.x, orb.y, ORB_BOX, ORB_BOX)
  }

  function CardWidth(wa: Rect, budget: Budget): int {
    Min(budget.width, wa.width)
  }

  predicate FitsRight(wa: Rect, orb: Point, budget: Budget) {
    orb.x + ORB_BOX + CARD_GAP + CardWidth(wa, budget) <= wa.Right()
  }

  predicate FitsLeft(wa: Rect, orb: Point, budget: Budget) {
    orb.x - CARD_GAP - CardWidth(wa, budget) >= wa.x
  }

  function RoomBelow(wa: Rect, orb: Point): int {
    wa.Bottom() - (orb.y + ORB_BOX + CARD_GAP)
  }

  function RoomAbove(wa: Rect, orb: Point): int {
    orb.y - CARD_GAP - wa.y
  }

  /** The side, which way the card opens, and the card on the screen. */
  function CardAt(wa: Rect, orb: Point, budget: Budget): (Side, Opens, Rect) {
    var width := CardWidth(wa, budget);
    if FitsRight(wa, orb, budget) || FitsLeft(wa, orb, budget) then
      var side := if FitsRight(wa, orb, budget) then OnRight else OnLeft;
      var height := Min(budget.maxHeight, wa.height);
      var x := if side == OnRight then orb.x + ORB_BOX + CARD_GAP else orb.x - CARD_GAP - width;
      if orb.y + height <= wa.Bottom() then (side, Down, Rect(x, orb.y, width, height))
      else if orb.y + ORB_BOX - height >= wa.y then (side, Up, Rect(x, orb.y + ORB_BOX - height, width, height))
      else (side, Down, Rect(x, Max(wa.y, wa.Bottom() - height), width, height))
    else
      var side := if RoomBelow(wa, orb) >= RoomAbove(wa, orb) then Below else Above;
      var height := Max(0, Min(budget.maxHeight, if side == Below then RoomBelow(wa, orb) else RoomAbove(wa, orb)));
      var x := Clamp(RoundHalf(2 * orb.x + ORB_BOX - width), wa.x, wa.Right() - width);
      if side == Below then (side, Down, Rect(x, orb.y + ORB_BOX + CARD_GAP, width, height))
      else (side, Up, Rect(x, orb.y - CARD_GAP - height, width, height))
  }

  function Hull(a: Rect, b: Rect): Rect {
    var x, y := Min(a.x, b.x), Min(a.y, b.y);
    Rect(x, y, Max(a.Right(), b.Right()) - x, Max(a.Bottom(), b.Bottom()) - y)
  }

  function Within(window: Rect, r: Rect): Rect {
    Rect(r.x - window.x, r.y - window.y, r.width, r.height)
  }

  function LayoutAt(wa: Rect, orb: Point, budget: Budget): Layout {
    var (side, opens, card) := CardAt(wa, orb, budget);
    var window := Hull(OrbBox(orb), card);
    Layout(side, opens, window, Within(window, OrbBox(orb)), Within(window, card))
  }

  predicate Inside(r: Rect, area: Rect) {
    area.x <= r.x && r.Right() <= area.Right() && area.y <= r.y && r.Bottom() <= area.Bottom()
  }

  function OnScreen(window: Rect, r: Rect): Rect {
    Rect(window.x + r.x, window.y + r.y, r.width, r.height)
  }

  /** Rectangles that share no point, an empty one sharing none. */
  ghost predicate Apart(a: Rect, b: Rect) {
    forall x, y :: !(Holds(a, Point(x, y)) && Holds(b, Point(x, y)))
  }

  predicate Holds(r: Rect, p: Point) {
    r.x <= p.x < r.Right() && r.y <= p.y < r.Bottom()
  }

  /** How far the card stands from the orb on its side. */
  function GapOn(side: Side, orb: Rect, card: Rect): int {
    match side
    case OnRight => card.x - orb.Right()
    case OnLeft => orb.x - card.Right()
    case Below => card.y - orb.Bottom()
    case Above => orb.y - card.Bottom()
  }

  predicate GoodSetting(wa: Rect, orb: Point, budget: Budget) {
    wa.width >= ORB_BOX && wa.height >= ORB_BOX && Inside(OrbBox(orb), wa) && budget.width > 0 && budget.maxHeight > 0
  }

  /** For any orb in any work area it fits in: the inner rectangles are the orb and a card on the screen,
      their window the smallest that holds both; the card keeps its gap on its side and never covers the
      orb; and a card that is not empty lies in the work area. */
  lemma CardClearsTheOrb(wa: Rect, orb: Point, budget: Budget)
    requires GoodSetting(wa, orb, budget)
    ensures var l := LayoutAt(wa, orb, budget);
            var card := OnScreen(l.window, l.card);
            && OnScreen(l.window, l.orb) == OrbBox(orb)
            && card == CardAt(wa, orb, budget).2
            && Inside(OrbBox(orb), l.window) && Inside(card, l.window)
            && (forall r: Rect :: Inside(OrbBox(orb), r) && Inside(card, r) ==> Inside(l.window, r))
            && GapOn(l.side, OrbBox(orb), card) == 8
            && Apart(OrbBox(orb), card)
            && 0 < card.width && 0 <= card.height
            && (card.height > 0 ==> Inside(card, wa))
  {
  }

  /** The window lies in the work area exactly when a card fits beside the orb or there is room for the
      gap under it or over it. */
  lemma WindowInsideExactlyWhen(wa: Rect, orb: Point, budget: Budget)
    requires GoodSetting(wa, orb, budget)
    ensures Inside(LayoutAt(wa, orb, budget).window, wa) <==>
              || FitsRight(wa, orb, budget) || FitsLeft(wa, orb, budget)
              || RoomBelow(wa, orb) >= 0 || RoomAbove(wa, orb) >= 0
  {
  }

  /** As here: a work area the orb fills has no room for the gap, and the window reaches out under it. */
  lemma WindowLeavesALowArea()
    ensures var wa := Rect(0, 0, ORB_BOX, ORB_BOX);
            GoodSetting(wa, Point(0, 0), Budget(420, 560)) && !Inside(LayoutAt(wa, Point(0, 0), Budget(420, 560)).window, wa)
  {
    var wa := Rect(0, 0, ORB_BOX, ORB_BOX);
    assert RoomBelow(wa, Point(0, 0)) == RoomAbove(wa, Point(0, 0)) == -CARD_GAP;
    WindowInsideExactlyWhen(wa, Point(0, 0), Budget(420, 560));
    hide LayoutAt;
  }

  /** A work area at most a point shorter than an orb and two gaps always has that room. */
  lemma WindowFitsTallAreas(wa: Rect, orb: Point, budget: Budget)
    requires GoodSetting(wa, orb, budget) && wa.height >= 71
    ensures Inside(LayoutAt(wa, orb, budget).window, wa)
  {
    WindowInsideExactlyWhen(wa, orb, budget);
  }

  /** Beside the orb the card has its whole height and stands level with the orb, which it spans whenever
      it is as tall, opening down from the orb's top, else up from its foot, else at the foot of the area;
      under or over it, it takes the larger room, in the middle of the orb as far as the area's sides let it. */
  lemma CardStandsByTheOrb(wa: Rect, orb: Point, budget: Budget)
    requires GoodSetting(wa, orb, budget)
    ensures var (side, opens, card) := CardAt(wa, orb, budget);
            if FitsRight(wa, orb, budget) || FitsLeft(wa, orb, budget) then
              && side in {OnRight, OnLeft} && (side == OnRight <==> FitsRight(wa, orb, budget))
              && card.height == Min(budget.maxHeight, wa.height)
              && (card.height >= ORB_BOX ==> card.y <= orb.y && orb.y + ORB_BOX <= card.Bottom())
              && (opens == Up ==> card.Bottom() == orb.y + ORB_BOX)
              && (opens == Up <==> orb.y + card.height > wa.Bottom() && orb.y + ORB_BOX - card.height >= wa.y)
              && (opens == Down && orb.y + card.height <= wa.Bottom() ==> card.y == orb.y)
              && (opens == Down && orb.y + card.height > wa.Bottom() ==> card.Bottom() == wa.Bottom())
            else
              && side in {Below, Above} && (opens == Down <==> side == Below)
              && card.height == Max(0, Min(budget.maxHeight, Max(RoomBelow(wa, orb), RoomAbove(wa, orb))))
              && (card.x > wa.x ==> 2 * card.x + card.width <= 2 * orb.x + ORB_BOX + 1)
              && (card.Right() < wa.Right() ==> 2 * card.x + card.width >= 2 * orb.x + ORB_BOX)
  {
  }

  // ── The display a point is on ──

  function Sq(n: int): int {
    n * n
  }

  /** The square of the distance from *p* to the nearest point of the display. */
  function Distance2(d: Display, p: Point): int {
    var b := d.bounds;
    Sq(p.x - Clamp(p.x, b.x, b.Right())) + Sq(p.y - Clamp(p.y, b.y, b.Bottom()))
  }

  predicate Usable(d: Display) {
    d.bounds.width > 0 && d.bounds.height > 0 && d.workArea.width > 0 && d.workArea.height > 0
  }

  /** *d* is the display for *p*: it holds it, or none does and no other is nearer. */
  predicate IsFor(displays: seq<Display>, p: Point, d: Display) {
    d in displays &&
    (Holds(d.bounds, p) || forall e <- displays :: !Holds(e.bounds, p) && Distance2(d, p) <= Distance2(e, p))
  }

  function FirstHolding(displays: seq<Display>, p: Point): (d: Option<Display>)
    ensures d.Some? ==> d.value in displays && Holds(d.value.bounds, p)
    ensures d.None? ==> forall e <- displays :: !Holds(e.bounds, p)
  {
    if displays == [] then None
    else if Holds(displays[0].bounds, p) then Some(displays[0])
    else FirstHolding(displays[1..], p)
  }

  /** The nearest of them, the first of several as near. */
  function Nearest(displays: seq<Display>, p: Point): (d: Option<Display>)
    ensures d.None? <==> displays == []
    ensures d.Some? ==> d.value in displays && forall e <- displays :: Distance2(d.value, p) <= Distance2(e, p)
  {
    if displays == [] then None
    else
      var before, last := Nearest(displays[..|displays| - 1], p), displays[|displays| - 1];
      assert displays == displays[..|displays| - 1] + [last];
      if before.None? || Distance2(last, p) < Distance2(before.value, p) then Some(last) else before
  }

  function DisplayFor(displays: seq<Display>, p: Point): (d: Option<Display>)
    ensures d.None? <==> displays == []
    ensures d.Some? ==> IsFor(displays, p, d.value)
  {
    var hit := FirstHolding(displays, p);
    if hit.Some? then hit else Nearest(displays, p)
  }

  method DisplayAt(displays: seq<Display>, p: Point) returns (best: Option<Display>)
    ensures best == DisplayFor(displays, p)
  {
    hide Distance2;
    best := FirstHolding(displays, p);
    if best.Some? {
      return;
    }
    var bestDistance := 0;
    var i := 0;
    while i < |displays|
      invariant 0 <= i <= |displays|
      invariant best == Nearest(displays[..i], p)
      invariant best.Some? ==> bestDistance == Distance2(best.value, p)
    {
      assert displays[..i + 1][..i] == displays[..i];
      var distance := Distance2(displays[i], p);
      if best.None? || distance < bestDistance {
        best, bestDistance := Some(displays[i]), distance;
      }
      i := i + 1;
    }
    assert displays[..i] == displays;
  }

  ghost predicate Disjoint(displays: seq<Display>) {
    forall i, j, p | 0 <= i < j < |displays| :: !(Holds(displays[i].bounds, p) && Holds(displays[j].bounds, p))
  }

  /** On displays that do not overlap, a point on one of them is on that one. */
  lemma OnItsOwnDisplay(displays: seq<Display>, p: Point, i: nat)
    requires i < |displays| && Disjoint(displays) && Holds(displays[i].bounds, p)
    ensures DisplayFor(displays, p) == Some(displays[i])
  {
    var d := DisplayFor(displays, p).value;
    var j :| 0 <= j < |displays| && displays[j] == d;
    assert Holds(d.bounds, p);
    if i != j {
      assert false;
    }
  }

  // ── A drop, saved and found again ──

  datatype Placed = Placed(on: Option<int>, spots: map<int, Point>)

  const AT_DEFAULT := Placed(None, map[])

  function DefaultSpot(d: Display): Point {
    Point(RoundHalf(2 * d.bounds.x + d.bounds.width - ORB_BOX), d.workArea.y + DEFAULT_TOP_GAP)
  }

  function KeptInside(d: Display, orb: Point): Point {
    var wa := d.workArea;
    Point(Clamp(orb.x, wa.x, wa.Right() - ORB_BOX), Clamp(orb.y, wa.y, wa.Bottom() - ORB_BOX))
  }

  function Shown(displays: seq<Display>): (shown: seq<Display>)
    ensures forall d :: d in shown <==> d in displays && Usable(d)
  {
    if displays == [] then []
    else (if Usable(displays[0]) then [displays[0]] else []) + Shown(displays[1..])
  }

  function MenuBar(displays: seq<Display>, primary: Option<Display>): Option<Display> {
    if primary.Some? && Usable(primary.value) then primary
    else if Shown(displays) != [] then Some(Shown(displays)[0])
    else None
  }

  function Centre(orb: Point): Point {
    Point(orb.x + ORB_BOX / 2, orb.y + ORB_BOX / 2)
  }

  predicate Snaps(menuBar: Display, orb: Point) {
    var centre, home := Centre(orb), Centre(DefaultSpot(menuBar));
    Sq(centre.x - home.x) + Sq(centre.y - home.y) <= Sq(DOCK_ZONE)
  }

  function DropDisplay(displays: seq<Display>, menuBar: Display, orb: Point): Display {
    var found := DisplayFor(Shown(displays), Centre(orb));
    if found.Some? then found.value else menuBar
  }

  function SettleDrop(orb: Point, placed: Placed, displays: seq<Display>, primary: Option<Display>): Placed {
    var menuBar := MenuBar(displays, primary);
    if menuBar.None? || Snaps(menuBar.value, orb) then Placed(None, placed.spots)
    else
      var d := DropDisplay(displays, menuBar.value, orb);
      var kept := KeptInside(d, orb);
      Placed(Some(d.id), placed.spots[d.id := FromCorner(d, kept)])
  }

  /** What the store may hold: nothing readable, the present form, or the window's earlier one. */
  datatype Stored =
    | Unreadable
    | Docked
    | Floating(displayId: int, x: int, y: int)
    | Spots(on: Option<int>, spots: map<int, Point>)

  function WritePlacement(placed: Placed): Stored {
    Spots(placed.on, placed.spots)
  }

  function Find(displays: seq<Display>, id: int): (d: Option<Display>)
    ensures d.Some? ==> d.value in displays && d.value.id == id
    ensures d.None? ==> forall e <- displays :: e.id != id
  {
    if displays == [] then None else if displays[0].id == id then Some(displays[0]) else Find(displays[1..], id)
  }

  lemma {:induction false} FindIsFirst(displays: seq<Display>, id: int) returns (i: nat)
    requires Find(displays, id).Some?
    ensures i < |displays| && displays[i] == Find(displays, id).value && forall j | 0 <= j < i :: displays[j].id != id
  {
    if displays[0].id == id {
      i := 0;
    } else {
      i := FindIsFirst(displays[1..], id);
      assert displays[1..][i] == displays[i + 1];
      assert forall j | 1 <= j < i + 1 :: displays[j] == displays[1..][j - 1];
      i := i + 1;
    }
  }

  function ReadPlacement(stored: Stored, displays: seq<Display>): Placed {
    match stored
    case Spots(on, spots) => Placed(if on.Some? && on.value in spots then on else None, spots)
    case Floating(id, x, y) =>
      var d := Find(Shown(displays), id);
      if d.None? then AT_DEFAULT
      else Placed(Some(id), map[id := Point(x - d.value.workArea.x, y - d.value.workArea.y)])
    case Unreadable => AT_DEFAULT
    case Docked => AT_DEFAULT
  }

  datatype Resolved = Resolved(atDefault: bool, displayId: int, orb: Point, layout: Layout)

  function ResolvePlacement(placed: Placed, displays: seq<Display>, primary: Option<Display>, budget: Budget): Option<Resolved> {
    var menuBar := MenuBar(displays, primary);
    if menuBar.None? then None
    else
      var home := if placed.on.Some? then Find(Shown(displays), placed.on.value) else None;
      if home.Some? && placed.on.value in placed.spots then
        var d, spot := home.value, placed.spots[placed.on.value];
        var orb := KeptInside(d, Point(d.workArea.x + spot.x, d.workArea.y + spot.y));
        Some(Resolved(false, d.id, orb, LayoutAt(d.workArea, orb, budget)))
      else
        var d := menuBar.value;
        Some(Resolved(true, d.id, DefaultSpot(d), LayoutAt(d.workArea, DefaultSpot(d), budget)))
  }

  lemma KeptTwice(d: Display, orb: Point)
    ensures KeptInside(d, KeptInside(d, orb)) == KeptInside(d, orb)
    ensures d.workArea.width >= ORB_BOX && d.workArea.height >= ORB_BOX ==> Inside(OrbBox(KeptInside(d, orb)), d.workArea)
    ensures Inside(OrbBox(orb), d.workArea) ==> KeptInside(d, orb) == orb
  {
  }

  /** Where *orb* is from the corner of the display's work area. */
  function FromCorner(d: Display, orb: Point): Point {
    Point(orb.x - d.workArea.x, orb.y - d.workArea.y)
  }

  /** And back: the point *spot* names from that corner. */
  function OnCorner(d: Display, spot: Point): Point {
    Point(d.workArea.x + spot.x, d.workArea.y + spot.y)
  }

  predicate SameSize(d: Display, e: Display) {
    d.workArea.width == e.workArea.width && d.workArea.height == e.workArea.height
  }

  lemma KeptElsewhere(d: Display, there: Display, orb: Point)
    ensures var spot := FromCorner(d, KeptInside(d, orb));
            SameSize(there, d) ==>
              FromCorner(there, KeptInside(there, OnCorner(there, spot))) == spot
  {
  }

  /** A drop that does not snap, settled, written and read back, whatever else was saved: it names the
      display the orb's centre is on or nearest, at the orb's place kept inside it, and every other
      display's spot is as it was. */
  lemma DropIsSaved(orb: Point, placed: Placed, displays: seq<Display>, primary: Option<Display>, later: seq<Display>)
    requires MenuBar(displays, primary).Some? && !Snaps(MenuBar(displays, primary).value, orb)
    ensures var d := DropDisplay(displays, MenuBar(displays, primary).value, orb);
            var saved := ReadPlacement(WritePlacement(SettleDrop(orb, placed, displays, primary)), later);
            && (Shown(displays) != [] ==> IsFor(Shown(displays), Centre(orb), d))
            && saved == SettleDrop(orb, placed, displays, primary)
            && saved.on == Some(d.id) && saved.spots.Keys == placed.spots.Keys + {d.id}
            && saved.spots[d.id] == FromCorner(d, KeptInside(d, orb))
            && (forall id <- placed.spots :: id != d.id ==> saved.spots[id] == placed.spots[id])
  {
    hide KeptInside, Snaps, DefaultSpot, MenuBar, Shown, IsFor;
  }

  /** And on any displays there are later, the orb is where it was dropped while that display is there, at
      the same place in its work area should the display have moved; while it is not, at the default. */
  lemma DropIsFoundAgain(d: Display, orb: Point, saved: Placed, later: seq<Display>, primary: Option<Display>, budget: Budget)
    requires saved.on == Some(d.id) && d.id in saved.spots && saved.spots[d.id] == FromCorner(d, KeptInside(d, orb))
    requires MenuBar(later, primary).Some?
    ensures var again := ResolvePlacement(saved, later, primary, budget).value;
            match Find(Shown(later), d.id)
            case Some(there) =>
              && !again.atDefault && again.displayId == d.id
              && again.orb == KeptInside(there, OnCorner(there, FromCorner(d, KeptInside(d, orb))))
              && (there.workArea.width >= ORB_BOX && there.workArea.height >= ORB_BOX ==> Inside(OrbBox(again.orb), there.workArea))
              && (SameSize(there, d) ==> FromCorner(there, again.orb) == FromCorner(d, KeptInside(d, orb)))
              && (there == d ==> again.orb == KeptInside(d, orb))
              && again.layout == LayoutAt(there.workArea, again.orb, budget)
            case None =>
              var bar := MenuBar(later, primary).value;
              && again.atDefault && again.displayId == bar.id && again.orb == DefaultSpot(bar)
              && again.layout == LayoutAt(bar.workArea, again.orb, budget)
  {
    var there := Find(Shown(later), d.id);
    KeptTwice(d, orb);
    if there.Some? {
      KeptElsewhere(d, there.value, orb);
      KeptTwice(there.value, OnCorner(there.value, FromCorner(d, KeptInside(d, orb))));
    }
    hide KeptInside, DefaultSpot, LayoutAt, MenuBar, Shown, Find, Inside;
  }

  /** A drop near the default's place is the default, and forgets no display's spot. */
  lemma SnapIsTheDefault(orb: Point, placed: Placed, displays: seq<Display>, primary: Option<Display>, budget: Budget)
    requires MenuBar(displays, primary).Some? && Snaps(MenuBar(displays, primary).value, orb)
    ensures var bar := MenuBar(displays, primary).value;
            var saved := ReadPlacement(WritePlacement(SettleDrop(orb, placed, displays, primary)), displays);
            var again := ResolvePlacement(saved, displays, primary, budget).value;
            saved.spots == placed.spots && again.atDefault && again.displayId == bar.id && again.orb == DefaultSpot(bar)
  {
  }

  /** What the earlier window saved on a display still there is where the orb stands. */
  lemma EarlierSpotIsKept(id: int, x: int, y: int, displays: seq<Display>, primary: Option<Display>, budget: Budget)
    requires MenuBar(displays, primary).Some?
    ensures var d := Find(Shown(displays), id);
            var again := ResolvePlacement(ReadPlacement(Floating(id, x, y), displays), displays, primary, budget).value;
            if d.Some? then !again.atDefault && again.displayId == id && again.orb == KeptInside(d.value, Point(x, y))
            else again.atDefault
  {
    hide KeptInside, DefaultSpot, LayoutAt, MenuBar, Shown, Find;
  }

  /** What is read says where the orb is only with a spot for it there: the display named, if it has one. */
  lemma ReadHasItsSpot(stored: Stored, displays: seq<Display>)
    ensures var read := ReadPlacement(stored, displays);
            && (read.on.Some? ==> read.on.value in read.spots)
            && (stored.Spots? ==> read.spots == stored.spots && (read.on.None? <==> stored.on.None? || stored.on.value !in stored.spots))
            && (stored.Spots? && read.on.Some? ==> read.on == stored.on)
            && (stored.Unreadable? || stored.Docked? ==> read == Placed(None, map[]))
  {
    hide Shown;
  }

  // ── The default, the snap and the edges ──

  /** The menu-bar display is the primary one while it can be used, else the first that can, else none. */
  lemma MenuBarIs(displays: seq<Display>, primary: Option<Display>)
    ensures match MenuBar(displays, primary)
            case Some(d) =>
              && d.bounds.width > 0 && d.bounds.height > 0 && d.workArea.width > 0 && d.workArea.height > 0
              && (primary == Some(d) ||
                  ((primary.None? || !Usable(primary.value)) &&
                   exists i :: 0 <= i < |displays| && displays[i] == d && forall j | 0 <= j < i :: !Usable(displays[j])))
            case None => (primary.Some? ==> !Usable(primary.value)) && forall d <- displays :: !Usable(d)
  {
    if Shown(displays) != [] {
      var i := FirstShown(displays);
      assert displays[i] == Shown(displays)[0];
    }
  }

  lemma {:induction false} FirstShown(displays: seq<Display>) returns (i: nat)
    requires Shown(displays) != []
    ensures i < |displays| && displays[i] == Shown(displays)[0] && Usable(displays[i]) && forall j | 0 <= j < i :: !Usable(displays[j])
  {
    hide Usable;
    if Usable(displays[0]) {
      i := 0;
    } else {
      assert Shown(displays) == Shown(displays[1..]);
      i := FirstShown(displays[1..]);
      assert displays[1..][i] == displays[i + 1];
      assert forall j | 1 <= j < i + 1 :: displays[j] == displays[1..][j - 1];
      i := i + 1;
    }
  }

  /** With nothing dropped, the orb is 8 points under the top of the menu-bar display's work area, in the middle
      of the display to half a point. */
  lemma DefaultIsUnderTheMenuBar(displays: seq<Display>, primary: Option<Display>, budget: Budget)
    requires MenuBar(displays, primary).Some?
    ensures var bar, again := MenuBar(displays, primary).value, ResolvePlacement(AT_DEFAULT, displays, primary, budget).value;
            && again.atDefault && again.displayId == bar.id && again.orb.y == bar.workArea.y + 8
            && 0 <= (2 * again.orb.x + ORB_BOX) - (2 * bar.bounds.x + bar.bounds.width) <= 1
            && again.layout == LayoutAt(bar.workArea, again.orb, budget)
  {
    hide LayoutAt, MenuBar;
  }

  /** A drop is put back to the default exactly when it is within 96 points of where the default is. */
  lemma SnapsExactlyWhen(orb: Point, placed: Placed, displays: seq<Display>, primary: Option<Display>)
    requires MenuBar(displays, primary).Some?
    ensures var home := ResolvePlacement(AT_DEFAULT, displays, primary, Budget(1, 1)).value.orb;
            SettleDrop(orb, placed, displays, primary).on.None? <==>
              (orb.x - home.x) * (orb.x - home.x) + (orb.y - home.y) * (orb.y - home.y) <= 96 * 96
  {
    hide LayoutAt, MenuBar, DropDisplay, KeptInside, DefaultSpot;
  }

  function Far(a: int, b: int): nat {
    if a >= b then a - b else b - a
  }

  /** Kept inside a work area it fits in, an orb is moved no further than any place inside it is, sideways or up
      and down; in a smaller area it is at the corner of it. */
  lemma KeptIsNearest(d: Display, orb: Point, p: Point)
    ensures var wa, kept := d.workArea, KeptInside(d, orb);
            && (wa.width >= ORB_BOX && wa.x <= p.x <= wa.Right() - ORB_BOX ==>
                  wa.x <= kept.x <= wa.Right() - ORB_BOX && Far(kept.x, orb.x) <= Far(p.x, orb.x))
            && (wa.height >= ORB_BOX && wa.y <= p.y <= wa.Bottom() - ORB_BOX ==>
                  wa.y <= kept.y <= wa.Bottom() - ORB_BOX && Far(kept.y, orb.y) <= Far(p.y, orb.y))
            && (wa.width < ORB_BOX ==> kept.x == wa.x) && (wa.height < ORB_BOX ==> kept.y == wa.y)
  {
  }

  // ── A run of drops ──

  /** One drop, on the displays there are then. */
  datatype Drop = Drop(orb: Point, displays: seq<Display>, primary: Option<Display>)

  /** The display a drop settles on; None when it snaps, or no display shows. */
  function LandsOn(drop: Drop): Option<Display> {
    var menuBar := MenuBar(drop.displays, drop.primary);
    if menuBar.None? || Snaps(menuBar.value, drop.orb) then None
    else Some(DropDisplay(drop.displays, menuBar.value, drop.orb))
  }

  /** What is saved after the first *n* drops, each written and read before the next. */
  function AfterDrops(drops: seq<Drop>, n: nat): Placed
    requires n <= |drops|
  {
    if n == 0 then AT_DEFAULT
    else
      var drop := drops[n - 1];
      ReadPlacement(WritePlacement(SettleDrop(drop.orb, AfterDrops(drops, n - 1), drop.displays, drop.primary)), drop.displays)
  }

  /** The last of the first *n* drops to settle on display *id*. */
  function LastOn(drops: seq<Drop>, n: nat, id: int): (k: Option<nat>)
    requires n <= |drops|
    ensures k.Some? ==> k.value < n && LandsOn(drops[k.value]).Some? && LandsOn(drops[k.value]).value.id == id
  {
    if n == 0 then None
    else if LandsOn(drops[n - 1]).Some? && LandsOn(drops[n - 1]).value.id == id then Some(n - 1)
    else LastOn(drops, n - 1, id)
  }

  /** Over every run of drops, on displays that come and go: every display keeps the spot of the last drop
      that settled on it, whatever was dropped elsewhere since, and no other display has one; and the orb
      is at the display of the last drop, or at the default if that one snapped. */
  lemma {:induction false} EveryDisplayKeepsItsSpot(drops: seq<Drop>, n: nat, id: int)
    requires n <= |drops|
    ensures var saved, k := AfterDrops(drops, n), LastOn(drops, n, id);
            && (id in saved.spots <==> k.Some?)
            && (k.Some? ==>
                  var d := LandsOn(drops[k.value]).value;
                  saved.spots[id] == FromCorner(d, KeptInside(d, drops[k.value].orb)))
            && saved.on == (if n > 0 && LandsOn(drops[n - 1]).Some? then Some(LandsOn(drops[n - 1]).value.id) else None)
  {
    hide KeptInside, DropDisplay, Snaps, MenuBar, Shown;
    if n > 0 {
      EveryDisplayKeepsItsSpot(drops, n - 1, id);
    }
  }
}
