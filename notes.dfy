/** The board both organizer components keep: the ordered list of knowledge items
    (`templates`) and, per category label, the ordered column of entries dropped
    into it (`categorizedNotes`). The transitions here are the pure expressions the
    components hand to their state setters; the components themselves are modelled
    in NetworkedOrganizer and LocalOrganizer. */
module Notes {
  import Text

  datatype Option<T> = None | Some(value: T)

  /** A category label, one of `Categories` when it comes from a drop target. */
  type Category = string

  /** A knowledge item. Ids are millisecond timestamps taken when the item is added
      (or the seeded 1, 2, 3); they are plain numbers compared with `===`. */
  datatype Note = Note(id: int, text: string, categories: seq<Category>)

  /** An entry of a category column: a copy of the dropped note with the column's
      label attached. */
  datatype Entry = Entry(note: Note, category: Category)

  /** `categorizedNotes`: a column per label that has received a drop. */
  type Columns = map<Category, seq<Entry>>

  /** The four drop targets and quadrants, in board order. */
  const Categories: seq<Category> := [
    "We know that we know",
    "We didn't know that we knew",
    "We didn't know that we didn't know",
    "We know that we don't know"
  ]

  predicate NoDup<T(==)>(s: seq<T>) {
    forall i, j :: 0 <= i < j < |s| ==> s[i] != s[j]
  }

  /** The position of the first occurrence of `x` in `s`. */
  function FirstIndex(s: seq<Category>, x: Category): (i: nat)
    requires x in s
    ensures i < |s| && s[i] == x
    ensures forall j :: 0 <= j < i ==> s[j] != x
  {
    if s[0] == x then 0 else 1 + FirstIndex(s[1..], x)
  }

  /** Appending to a list does not move the first occurrence of an element it
      already held. */
  lemma FirstIndexAppend(p: seq<Category>, x: Category, y: Category)
    requires y in p
    ensures FirstIndex(p + [x], y) == FirstIndex(p, y)
  {
    var s := p + [x];
    var i1, i2 := FirstIndex(s, y), FirstIndex(p, y);
    assert s[i2] == y;
    assert i1 <= i2;
    assert p[i1] == y;
  }

  /** Spreading a `Set` built from `s` back into a list: the first occurrence of each
      element, in the order of first occurrence. */
  function Dedup(s: seq<Category>): (r: seq<Category>)
    ensures NoDup(r)
    ensures forall x :: x in r <==> x in s
    ensures forall i, j :: 0 <= i < j < |r| ==> FirstIndex(s, r[i]) < FirstIndex(s, r[j])
    ensures |r| <= |s|
  {
    if s == [] then []
    else
      var p, x := s[..|s| - 1], s[|s| - 1];
      var d := Dedup(p);
      assert s == p + [x];
      assert forall y :: y in p ==> FirstIndex(s, y) == FirstIndex(p, y) by {
        forall y | y in p ensures FirstIndex(s, y) == FirstIndex(p, y) {
          FirstIndexAppend(p, x, y);
        }
      }
      if x in d then d else d + [x]
  }

  /** A list without repetitions passes through a `Set` unchanged, order included. */
  lemma {:induction false} DedupKeepsDupFree(s: seq<Category>)
    ensures NoDup(s) ==> Dedup(s) == s
  {
    if s != [] && NoDup(s) {
      var p, x := s[..|s| - 1], s[|s| - 1];
      assert s == p + [x];
      assert NoDup(p);
      DedupKeepsDupFree(p);
      assert x !in Dedup(p) by {
        forall i | 0 <= i < |p| ensures p[i] != x {
          assert p[i] == s[i];
        }
      }
    }
  }

  /** A note's categories after a drop into `c`: the old list with `c` appended,
      passed through a `Set`. The label is then present exactly once; on a list that
      had no repetitions this is the old list itself when `c` was already there, and
      the old list with `c` at the end otherwise. */
  function WithCategory(cats: seq<Category>, c: Category): (r: seq<Category>)
    ensures NoDup(r) && c in r
    ensures forall x :: x in r <==> x in cats || x == c
    ensures NoDup(cats) ==> r == if c in cats then cats else cats + [c]
  {
    var s := cats + [c];
    assert s[..|s| - 1] == cats;
    DedupKeepsDupFree(cats);
    Dedup(s)
  }

  /** Adding a label a second time changes nothing. */
  lemma WithCategoryIdempotent(cats: seq<Category>, c: Category)
    ensures WithCategory(WithCategory(cats, c), c) == WithCategory(cats, c)
  {
  }

  /** `addNote`'s new list: a blank input leaves the list as it is; any other input
      appends one note at the end, with the trimmed text (which neither starts nor
      ends with whitespace), the given id and no categories. */
  function AppendNote(templates: seq<Note>, input: string, id: int): (r: seq<Note>)
    ensures Text.IsBlank(input) ==> r == templates
    ensures !Text.IsBlank(input) ==> r == templates + [Note(id, Text.Trim(input), [])]
    ensures !Text.IsBlank(input) ==>
      var text := r[|templates|].text;
      text != [] && !Text.IsWhitespace(text[0]) && !Text.IsWhitespace(text[|text| - 1])
  {
    Text.TrimEmptyIffBlank(input);
    var text := Text.Trim(input);
    if text != [] then templates + [Note(id, text, [])] else templates
  }

  /** `handleDrop`'s new list: every note whose id equals the dropped note's gets the
      label added to its categories; the list keeps its length and order, and every
      other note, and every text, is left as it was. A dropped id that no note has
      leaves the list unchanged. */
  function DropIntoTemplates(templates: seq<Note>, dropped: Note, category: Category): (r: seq<Note>)
    ensures |r| == |templates|
    ensures forall i :: 0 <= i < |r| ==> r[i].id == templates[i].id && r[i].text == templates[i].text
    ensures forall i :: 0 <= i < |r| && templates[i].id != dropped.id ==> r[i] == templates[i]
    ensures forall i :: 0 <= i < |r| && templates[i].id == dropped.id ==>
      category in r[i].categories && NoDup(r[i].categories)
      && (forall x :: x in r[i].categories <==> x in templates[i].categories || x == category)
      && (NoDup(templates[i].categories) && category in templates[i].categories ==> r[i] == templates[i])
      && (NoDup(templates[i].categories) && category !in templates[i].categories ==>
            r[i].categories == templates[i].categories + [category])
  {
    seq(|templates|, i requires 0 <= i < |templates| =>
      var t := templates[i];
      if t.id == dropped.id then t.(categories := WithCategory(t.categories, category)) else t)
  }

  /** A column that has not received a drop yet reads as empty. */
  function ColumnOf(cols: Columns, category: Category): seq<Entry> {
    if category in cols then cols[category] else []
  }

  /** `handleDrop`'s new columns: the column of `category` (empty if it did not
      exist) grows by exactly one entry, the dropped note with the label, placed
      last; every other column is unchanged. */
  function DropIntoColumns(cols: Columns, dropped: Note, category: Category): (r: Columns)
    ensures r.Keys == cols.Keys + {category}
    ensures |r[category]| == |ColumnOf(cols, category)| + 1
    ensures r[category][..|ColumnOf(cols, category)|] == ColumnOf(cols, category)
    ensures r[category][|ColumnOf(cols, category)|] == Entry(dropped, category)
    ensures forall k :: k in cols && k != category ==> r[k] == cols[k]
  {
    cols[category := ColumnOf(cols, category) + [Entry(dropped, category)]]
  }

  /** Dropping the same note into the same category twice: only the note's own
      categories are de-duplicated; the column receives a second entry. */
  lemma DropTwice(templates: seq<Note>, cols: Columns, dropped: Note, category: Category)
    ensures var once := DropIntoTemplates(templates, dropped, category);
      DropIntoTemplates(once, dropped, category) == once
    ensures var twice := DropIntoColumns(DropIntoColumns(cols, dropped, category), dropped, category);
      twice[category] == ColumnOf(cols, category) + [Entry(dropped, category), Entry(dropped, category)]
  {
  }

  /** `getNotesForCategory`: the notes whose categories include the label. */
  function NotesForCategory(items: seq<Note>, category: Category): (r: seq<Note>)
    ensures |r| <= |items|
    ensures forall n :: n in r <==> n in items && category in n.categories
  {
    if items == [] then []
    else (if category in items[0].categories then [items[0]] else [])
         + NotesForCategory(items[1..], category)
  }

  /** The filter keeps the original order: filtering a concatenation filters each
      part and concatenates the results. */
  lemma {:induction false} NotesForCategoryAppend(a: seq<Note>, b: seq<Note>, category: Category)
    ensures NotesForCategory(a + b, category) == NotesForCategory(a, category) + NotesForCategory(b, category)
  {
    if a == [] {
      assert a + b == b;
    } else {
      assert (a + b)[0] == a[0];
      assert (a + b)[1..] == a[1..] + b;
      NotesForCategoryAppend(a[1..], b, category);
    }
  }

  /** Some note of `templates` has the id and lists the label. */
  ghost predicate Listed(templates: seq<Note>, id: int, c: Category) {
    exists i :: 0 <= i < |templates| && templates[i].id == id && c in templates[i].categories
  }

  /** The column of `c` holds an entry for the id. */
  ghost predicate Recorded(cols: Columns, id: int, c: Category) {
    c in cols && exists j :: 0 <= j < |cols[c]| && cols[c][j].note.id == id
  }

  /** No note lists a label twice, and every column entry carries its column's
      label. Both drops and additions keep this, whatever id is dropped. */
  predicate WellFormed(templates: seq<Note>, cols: Columns) {
    && (forall i :: 0 <= i < |templates| ==> NoDup(templates[i].categories))
    && (forall k, j :: k in cols && 0 <= j < |cols[k]| ==> cols[k][j].category == k)
  }

  /** The board is consistent when it is well formed, every column entry names a
      note that lists the column's label, and every label a note lists has an entry
      for the note in that column. */
  ghost predicate Consistent(templates: seq<Note>, cols: Columns) {
    && WellFormed(templates, cols)
    && (forall k, j :: k in cols && 0 <= j < |cols[k]| ==> Listed(templates, cols[k][j].note.id, k))
    && (forall i, c :: 0 <= i < |templates| && c in templates[i].categories ==>
          Recorded(cols, templates[i].id, c))
  }

  /** Adding a note keeps the board well formed. */
  lemma AppendNoteWellFormed(templates: seq<Note>, cols: Columns, input: string, id: int)
    requires WellFormed(templates, cols)
    ensures WellFormed(AppendNote(templates, input, id), cols)
  {
  }

  /** Any drop keeps the board well formed. */
  lemma DropWellFormed(templates: seq<Note>, cols: Columns, dropped: Note, category: Category)
    requires WellFormed(templates, cols)
    ensures WellFormed(DropIntoTemplates(templates, dropped, category), DropIntoColumns(cols, dropped, category))
  {
  }

  /** Any list of notes without categories, with no columns, is consistent. */
  lemma EmptyBoardConsistent(templates: seq<Note>)
    requires forall i :: 0 <= i < |templates| ==> templates[i].categories == []
    ensures Consistent(templates, map[])
  {
  }

  /** Adding a note keeps the board consistent. */
  lemma AppendNoteConsistent(templates: seq<Note>, cols: Columns, input: string, id: int)
    requires Consistent(templates, cols)
    ensures Consistent(AppendNote(templates, input, id), cols)
  {
    AppendNoteWellFormed(templates, cols, input, id);
    var r := AppendNote(templates, input, id);
    forall k, j | k in cols && 0 <= j < |cols[k]|
      ensures Listed(r, cols[k][j].note.id, k)
    {
      assert Listed(templates, cols[k][j].note.id, k);
      var i :| 0 <= i < |templates| && templates[i].id == cols[k][j].note.id && k in templates[i].categories;
      assert r[i] == templates[i];
    }
  }

  /** After a drop of a note the list holds, every column entry still names a note
      that lists the column's label. */
  lemma DropKeepsListed(templates: seq<Note>, cols: Columns, dropped: Note, category: Category)
    requires forall k, j :: k in cols && 0 <= j < |cols[k]| ==> Listed(templates, cols[k][j].note.id, k)
    requires exists i :: 0 <= i < |templates| && templates[i].id == dropped.id
    ensures var t, c := DropIntoTemplates(templates, dropped, category), DropIntoColumns(cols, dropped, category);
      forall k, j :: k in c && 0 <= j < |c[k]| ==> Listed(t, c[k][j].note.id, k)
  {
  }

  /** After any drop, every label a note lists still has an entry for the note in
      that column. */
  lemma DropKeepsRecorded(templates: seq<Note>, cols: Columns, dropped: Note, category: Category)
    requires forall i, c :: 0 <= i < |templates| && c in templates[i].categories ==> Recorded(cols, templates[i].id, c)
    ensures var t, c := DropIntoTemplates(templates, dropped, category), DropIntoColumns(cols, dropped, category);
      forall i, l :: 0 <= i < |t| && l in t[i].categories ==> Recorded(c, t[i].id, l)
  {
  }

  /** Dropping a note the list holds keeps the board consistent. */
  lemma DropConsistent(templates: seq<Note>, cols: Columns, dropped: Note, category: Category)
    requires Consistent(templates, cols)
    requires exists i :: 0 <= i < |templates| && templates[i].id == dropped.id
    ensures Consistent(DropIntoTemplates(templates, dropped, category), DropIntoColumns(cols, dropped, category))
  {
    DropWellFormed(templates, cols, dropped, category);
    DropKeepsListed(templates, cols, dropped, category);
    DropKeepsRecorded(templates, cols, dropped, category);
  }

  /** Dropping a note whose id no note of the list has is not rejected: the list is
      unchanged, the column still grows, and the board is then inconsistent, since
      the new entry names no note that lists the label. */
  lemma DropUnknownNote(templates: seq<Note>, cols: Columns, dropped: Note, category: Category)
    requires forall i :: 0 <= i < |templates| ==> templates[i].id != dropped.id
    ensures DropIntoTemplates(templates, dropped, category) == templates
    ensures DropIntoColumns(cols, dropped, category)[category] == ColumnOf(cols, category) + [Entry(dropped, category)]
    ensures !Consistent(templates, DropIntoColumns(cols, dropped, category))
  {
  }
}
