/** The single-user organizer component: the board of `Notes`, seeded with three
    items, with no data channel. Its quadrant map fits two stickies to a row. */
module LocalOrganizer {
  import opened Notes
  import Text
  import Quadrant

  /** In this component a quadrant's usable width is half the board less two
      paddings, so two stickies fit in a row. */
  const QuadrantWidth := Quadrant.Width / 2 - Quadrant.Padding * 2
  const ItemsPerRow := QuadrantWidth / (Quadrant.StickyWidth + Quadrant.Margin)

  /** Note `i` at its quadrant's offset plus 110 per column and 70 per row, two to
      a row, every sticky inside the quadrant's usable width; an index outside 0 to
      3 adds no offset. */
  function LayoutNotesInQuadrant(notes: seq<Note>, quadrant: int): (r: seq<Quadrant.Placed>)
    ensures |r| == |notes|
    ensures forall i :: 0 <= i < |r| ==>
      && r[i].note == notes[i]
      && r[i].x == Quadrant.Offset(quadrant).x + (i % 2) * 110
      && r[i].y == Quadrant.Offset(quadrant).y + (i / 2) * 70
      && Quadrant.Offset(quadrant).x <= r[i].x
      && r[i].x + Quadrant.StickyWidth <= Quadrant.Offset(quadrant).x + QuadrantWidth
  {
    assert ItemsPerRow == 2;
    Quadrant.LayoutFitsSpan(notes, quadrant, ItemsPerRow, QuadrantWidth);
    Quadrant.Layout(notes, quadrant, ItemsPerRow)
  }

  /** The items the component starts with. */
  const InitialTemplates: seq<Note> := [
    Note(1, "Technical Skills", []),
    Note(2, "Soft Skills", []),
    Note(3, "Domain Knowledge", [])
  ]

  /** The seeded board is consistent: no item has a category yet and no column
      exists. */
  lemma InitialBoardConsistent()
    ensures Consistent(InitialTemplates, map[])
  {
  }

  /** The component's state. Its updates go through functional setters, so each
      applies to the latest value; here they apply to the fields in turn. */
  class Organizer {
    var templates: seq<Note>
    var categorizedNotes: Columns
    /** The text of the input box. */
    var newNote: string

    /** No item lists a label twice and every column entry carries its column's
        label. */
    ghost predicate Valid()
      reads this
    {
      WellFormed(templates, categorizedNotes)
    }

    /** The seeded items 1, 2 and 3, no columns, an empty input box. */
    constructor ()
      ensures Valid()
      ensures templates == InitialTemplates && categorizedNotes == map[] && newNote == ""
      ensures Consistent(templates, categorizedNotes)
    {
      templates := InitialTemplates;
      categorizedNotes := map[];
      newNote := "";
      InitialBoardConsistent();
    }

    /** Typing into the input box. */
    method SetNewNote(text: string)
      modifies this`newNote
      ensures newNote == text
    {
      newNote := text;
    }

    /** `addNote`: the id stands for the clock reading. A blank input changes
      nothing; otherwise one note with the trimmed text and no categories is
      appended and the input box is cleared. A consistent board stays consistent. */
    method AddNote(id: int)
      requires Valid()
      modifies this`templates, this`newNote
      ensures Valid()
      ensures templates == AppendNote(old(templates), old(newNote), id)
      ensures Text.IsBlank(old(newNote)) ==> templates == old(templates) && newNote == old(newNote)
      ensures !Text.IsBlank(old(newNote)) ==>
        templates == old(templates) + [Note(id, Text.Trim(old(newNote)), [])] && newNote == ""
      ensures old(Consistent(templates, categorizedNotes)) ==> Consistent(templates, categorizedNotes)
    {
      AppendNoteWellFormed(templates, categorizedNotes, newNote, id);
      if Consistent(templates, categorizedNotes) {
        AppendNoteConsistent(templates, categorizedNotes, newNote, id);
      }
      Text.TrimEmptyIffBlank(newNote);
      if Text.Trim(newNote) != [] {
        templates := AppendNote(templates, newNote, id);
        newNote := "";
      }
    }

    /** `handleDrop` of an already decoded note into the column `category`: the
      matching items gain the label and the column gains an entry. A consistent
      board stays consistent when the dropped note is one of the items. */
    method HandleDrop(dropped: Note, category: Category)
      requires Valid()
      modifies this`templates, this`categorizedNotes
      ensures Valid()
      ensures templates == DropIntoTemplates(old(templates), dropped, category)
      ensures categorizedNotes == DropIntoColumns(old(categorizedNotes), dropped, category)
      ensures old(Consistent(templates, categorizedNotes))
              && (exists i :: 0 <= i < |old(templates)| && old(templates)[i].id == dropped.id)
              ==> Consistent(templates, categorizedNotes)
    {
      DropWellFormed(templates, categorizedNotes, dropped, category);
      if Consistent(templates, categorizedNotes)
         && exists i :: 0 <= i < |templates| && templates[i].id == dropped.id
      {
        DropConsistent(templates, categorizedNotes, dropped, category);
      }
      templates := DropIntoTemplates(templates, dropped, category);
      categorizedNotes := DropIntoColumns(categorizedNotes, dropped, category);
    }
  }
}
