/** The quadrant map both components draw: an 800 by 800 board split into four
    quadrants, one per category, each holding the notes of its category as a grid
    of 100 by 60 stickies with a 10 unit margin, and a label above each quadrant.
    How many stickies fit in a row differs between the two components and is a
    parameter here. */
module Quadrant {
  import opened Notes

  const Width := 800
  const Height := 800
  const Padding := 40
  const StickyWidth := 100
  const StickyHeight := 60
  const Margin := 10
  /** How far a label's baseline sits above its quadrant's top padding line. */
  const LabelRaise := 10

  datatype Point = Point(x: int, y: int)

  /** A note with the coordinates of its sticky's top-left corner. */
  datatype Placed = Placed(note: Note, x: int, y: int)

  /** The offset of a quadrant: the padding inside the top-left, top-right,
      bottom-left and bottom-right quarter for quadrants 0 to 3, and none for any
      other index. */
  function Offset(quadrant: int): (p: Point)
    ensures 0 <= quadrant < 4 ==>
      p == Point(if quadrant % 2 == 0 then 40 else 440, if quadrant < 2 then 40 else 440)
    ensures !(0 <= quadrant < 4) ==> p == Point(0, 0)
  {
    match quadrant
    case 0 => Point(Padding, Padding)
    case 1 => Point(Width / 2 + Padding, Padding)
    case 2 => Point(Padding, Height / 2 + Padding)
    case 3 => Point(Width / 2 + Padding, Height / 2 + Padding)
    case _ => Point(0, 0)
  }

  /** `layoutNotesInQuadrant`: note `i` goes to column `i % perRow` and row
      `i / perRow` of the quadrant's grid. */
  function Layout(notes: seq<Note>, quadrant: int, perRow: nat): (r: seq<Placed>)
    requires perRow > 0
    ensures |r| == |notes|
    ensures forall i :: 0 <= i < |r| ==>
      && r[i].note == notes[i]
      && r[i].x == Offset(quadrant).x + (i % perRow) * (StickyWidth + Margin)
      && r[i].y == Offset(quadrant).y + (i / perRow) * (StickyHeight + Margin)
  {
    seq(|notes|, i requires 0 <= i < |notes| =>
      Placed(notes[i],
             Offset(quadrant).x + (i % perRow) * (StickyWidth + Margin),
             Offset(quadrant).y + (i / perRow) * (StickyHeight + Margin)))
  }

  /** The rectangles of two stickies do not overlap. */
  predicate Apart(a: Placed, b: Placed) {
    || a.x + StickyWidth <= b.x || b.x + StickyWidth <= a.x
    || a.y + StickyHeight <= b.y || b.y + StickyHeight <= a.y
  }

  /** No two stickies of a quadrant overlap, whatever the row width. */
  lemma LayoutApart(notes: seq<Note>, quadrant: int, perRow: nat)
    requires perRow > 0
    ensures var r := Layout(notes, quadrant, perRow);
      forall i, j :: 0 <= i < j < |r| ==> Apart(r[i], r[j])
  {
  }

  /** With the row width derived from the usable width `span` as both components do
      (`span` divided by a sticky plus its margin, rounded down), every sticky lies
      horizontally inside that span of its quadrant. */
  lemma LayoutFitsSpan(notes: seq<Note>, quadrant: int, perRow: nat, span: int)
    requires perRow > 0 && perRow == span / (StickyWidth + Margin)
    ensures var r := Layout(notes, quadrant, perRow);
      forall i :: 0 <= i < |r| ==>
        Offset(quadrant).x <= r[i].x && r[i].x + StickyWidth <= Offset(quadrant).x + span
  {
  }

  /** The label of quadrant `index`: left or right half by parity, top or bottom
      half for the first two and the rest; the baseline sits just above the padding
      line. For the four quadrants the label starts exactly where the quadrant's
      first sticky starts, `LabelRaise` units higher. */
  function LabelPosition(index: nat): (p: Point)
    ensures index < 4 ==> p == Point(Offset(index).x, Offset(index).y - LabelRaise)
    ensures p.x == (if index % 2 == 0 then 40 else 440)
    ensures p.y == (if index < 2 then 30 else 430)
  {
    var x := if index % 2 == 0 then Padding else Width / 2 + Padding;
    var y := if index < 2 then Padding else Height / 2 + Padding;
    Point(x, y - LabelRaise)
  }

  /** One quadrant of the map holds exactly the items listing the category. */
  lemma LayoutOfCategory(items: seq<Note>, category: Category, quadrant: int, perRow: nat)
    requires perRow > 0
    ensures var r := Layout(NotesForCategory(items, category), quadrant, perRow);
      && (forall k :: 0 <= k < |r| ==> r[k].note in items && category in r[k].note.categories)
      && (forall n :: n in items && category in n.categories ==> exists k :: 0 <= k < |r| && r[k].note == n)
  {
    var notes := NotesForCategory(items, category);
    var r := Layout(notes, quadrant, perRow);
    forall k | 0 <= k < |r| ensures r[k].note in items && category in r[k].note.categories {
      assert r[k].note == notes[k] && notes[k] in notes;
    }
    forall n | n in items && category in n.categories ensures exists k :: 0 <= k < |r| && r[k].note == n {
      assert n in notes;
      var k :| 0 <= k < |notes| && notes[k] == n;
      assert r[k].note == n;
    }
  }

  /** The whole map: quadrant `q` holds the notes of category `q`, in board order,
      laid out at quadrant `q`'s offset. Every sticky drawn in quadrant `q` is an
      item listing `Categories[q]`, and every such item is drawn there, so an item
      with several categories appears once in each of their quadrants. */
  function Render(items: seq<Note>, perRow: nat): (r: seq<seq<Placed>>)
    requires perRow > 0
    ensures |r| == |Categories|
    ensures forall q :: 0 <= q < |r| ==> r[q] == Layout(NotesForCategory(items, Categories[q]), q, perRow)
    ensures forall q, k :: 0 <= q < |r| && 0 <= k < |r[q]| ==>
      r[q][k].note in items && Categories[q] in r[q][k].note.categories
    ensures forall q, n :: 0 <= q < |r| && n in items && Categories[q] in n.categories ==>
      exists k :: 0 <= k < |r[q]| && r[q][k].note == n
  {
    var r := seq(|Categories|, q requires 0 <= q < |Categories| =>
      Layout(NotesForCategory(items, Categories[q]), q, perRow));
    assert forall q :: 0 <= q < |r| ==>
      && (forall k :: 0 <= k < |r[q]| ==> r[q][k].note in items && Categories[q] in r[q][k].note.categories)
      && (forall n :: n in items && Categories[q] in n.categories ==> exists k :: 0 <= k < |r[q]| && r[q][k].note == n)
    by {
      forall q | 0 <= q < |r|
        ensures forall k :: 0 <= k < |r[q]| ==> r[q][k].note in items && Categories[q] in r[q][k].note.categories
        ensures forall n :: n in items && Categories[q] in n.categories ==> exists k :: 0 <= k < |r[q]| && r[q][k].note == n
      {
        LayoutOfCategory(items, Categories[q], q, perRow);
      }
    }
    r
  }
}
