/** The networked organizer component: the board of `Notes` plus a data channel to
    one peer. Every local change is sent to the peer as the two full values, and a
    message from the peer replaces whichever of the two values it carries, so the
    last message to arrive wins; nothing is merged. */
module NetworkedOrganizer {
  import opened Notes
  import Text
  import Quadrant

  /** In this component a quadrant's usable width is half the board less one
      padding, so three stickies fit in a row. */
  const QuadrantWidth := Quadrant.Width / 2 - Quadrant.Padding
  const ItemsPerRow := QuadrantWidth / (Quadrant.StickyWidth + Quadrant.Margin)

  /** Note `i` at its quadrant's offset plus 110 per column and 70 per row, three
      to a row, every sticky inside the quadrant's usable width. */
  function LayoutNotesInQuadrant(notes: seq<Note>, quadrant: int): (r: seq<Quadrant.Placed>)
    ensures |r| == |notes|
    ensures forall i :: 0 <= i < |r| ==>
      && r[i].note == notes[i]
      && r[i].x == Quadrant.Offset(quadrant).x + (i % 3) * 110
      && r[i].y == Quadrant.Offset(quadrant).y + (i / 3) * 70
      && Quadrant.Offset(quadrant).x <= r[i].x
      && r[i].x + Quadrant.StickyWidth <= Quadrant.Offset(quadrant).x + QuadrantWidth
  {
    assert ItemsPerRow == 3;
    Quadrant.LayoutFitsSpan(notes, quadrant, ItemsPerRow, QuadrantWidth);
    Quadrant.Layout(notes, quadrant, ItemsPerRow)
  }

  /** Rows are not limited by the quadrant's height: the sixteenth note of the
      top-left quadrant already reaches into the bottom half of the board. */
  lemma RowsOverflowQuadrant(notes: seq<Note>)
    requires |notes| >= 16
    ensures var r := LayoutNotesInQuadrant(notes, 0);
      r[15].y + Quadrant.StickyHeight > Quadrant.Height / 2
  {
  }

  /** The data channel's `readyState`. */
  datatype ReadyState = Connecting | Open | Closing | Closed

  /** A decoded message from the peer. A field is `None` when the message lacks it
      (or it is null); an empty list or object still counts as present. */
  datatype Message = Message(templates: Option<seq<Note>>, categorizedNotes: Option<Columns>)

  /** The two values of the board. */
  datatype Board = Board(templates: seq<Note>, categorizedNotes: Columns)

  /** What `broadcastState` sends: nothing unless a channel exists and is open, and
      then one message carrying exactly the two given values. */
  function Outgoing(channel: Option<ReadyState>, templates: seq<Note>, cols: Columns): (r: seq<Message>)
    ensures |r| <= 1
    ensures r != [] <==> channel == Some(Open)
    ensures r != [] ==> r[0] == Message(Some(templates), Some(cols))
  {
    if channel.Some? && channel.value == Open then [Message(Some(templates), Some(cols))] else []
  }

  /** `handleStateUpdate`: each value the message carries replaces the local one,
      and a value it lacks stays as it was; a message carrying neither changes
      nothing. */
  function ApplyUpdate(b: Board, data: Message): (r: Board)
    ensures data.templates.Some? ==> r.templates == data.templates.value
    ensures data.templates.None? ==> r.templates == b.templates
    ensures data.categorizedNotes.Some? ==> r.categorizedNotes == data.categorizedNotes.value
    ensures data.categorizedNotes.None? ==> r.categorizedNotes == b.categorizedNotes
    ensures data == Message(None, None) ==> r == b
  {
    Board(if data.templates.Some? then data.templates.value else b.templates,
          if data.categorizedNotes.Some? then data.categorizedNotes.value else b.categorizedNotes)
  }

  /** The two ends of a data channel as the component wires them. The end it
      creates itself is set up with `handleStateUpdate` as its message handler; the
      end the peer's `ondatachannel` event announces is set up with no handler. */
  datatype Endpoint = Created | Announced

  /** Where a message lands: a component sends only on the channel it created, and
      that channel's far end is the one announced to the peer. */
  function FarEnd(sentOn: Endpoint): (r: Endpoint)
    ensures r != sentOn
  {
    if sentOn == Created then Announced else Created
  }

  /** A message arriving at an end, as the code is written: on the created end it
      reaches `handleStateUpdate`; on the announced end the missing handler is
      called, which throws before any setter runs, so the board stays as it was. */
  function ReceiveAsWritten(at: Endpoint, b: Board, data: Message): (r: Board)
    ensures at == Created ==> r == ApplyUpdate(b, data)
    ensures at == Announced ==> r == b
  {
    if at == Created then ApplyUpdate(b, data) else b
  }

  /** As written, a broadcast never takes effect: it lands on the peer's announced
      end, the peer's board is unchanged, and a peer whose list differs from the
      sender's still differs afterwards. */
  lemma BroadcastLostAsWritten(receiver: Board, templates: seq<Note>, cols: Columns)
    ensures var out := Outgoing(Some(Open), templates, cols);
      var r := ReceiveAsWritten(FarEnd(Created), receiver, out[0]);
      && r == receiver
      && (receiver.templates != templates ==> r != Board(templates, cols))
  {
  }

  /** With every end handing its messages to `handleStateUpdate`, as the wiring
      evidently intends, a delivered broadcast makes the receiver's board equal to
      the sender's, whatever the receiver held before. */
  lemma BroadcastConverges(receiver: Board, templates: seq<Note>, cols: Columns)
    ensures var out := Outgoing(Some(Open), templates, cols);
      |out| == 1 && ApplyUpdate(receiver, out[0]) == Board(templates, cols)
  {
  }

  /** Last message wins: once a message carrying both values arrives, what earlier
      messages did no longer shows. */
  lemma LastMessageWins(b: Board, earlier: Message, last: Message)
    requires last.templates.Some? && last.categorizedNotes.Some?
    ensures ApplyUpdate(ApplyUpdate(b, earlier), last) == ApplyUpdate(b, last)
    ensures ApplyUpdate(b, last) == Board(last.templates.value, last.categorizedNotes.value)
  {
  }

  /** Two peers that add a note each at the same time, from the same board, with
      open channels, each end up holding the other's board: when the two texts
      differ, the peers disagree afterwards, and when the ids are fresh (no note of
      the starting board has either) each has lost its own note. */
  lemma ConcurrentAddsCross(start: Board, inputA: string, idA: int, inputB: string, idB: int)
    requires !Text.IsBlank(inputA) && !Text.IsBlank(inputB)
    requires Text.Trim(inputA) != Text.Trim(inputB)
    ensures var a := Board(AppendNote(start.templates, inputA, idA), start.categorizedNotes);
      var b := Board(AppendNote(start.templates, inputB, idB), start.categorizedNotes);
      var mA := Outgoing(Some(Open), a.templates, a.categorizedNotes)[0];
      var mB := Outgoing(Some(Open), b.templates, b.categorizedNotes)[0];
      && ApplyUpdate(a, mB) == b
      && ApplyUpdate(b, mA) == a
      && a != b
      && ((forall n :: n in start.templates ==> n.id != idA && n.id != idB) ==>
            && Note(idA, Text.Trim(inputA), []) !in ApplyUpdate(a, mB).templates
            && Note(idB, Text.Trim(inputB), []) !in ApplyUpdate(b, mA).templates)
  {
  }

  /** The component's state. `sent` records every message handed to the data
      channel, in order; the channel itself is outside the model. */
  class Organizer {
    var templates: seq<Note>
    var categorizedNotes: Columns
    /** The text of the input box. */
    var newNote: string
    /** The data channel's ready state, `None` before a channel exists. */
    var dataChannel: Option<ReadyState>
    var sent: seq<Message>

    function State(): Board
      reads this
    {
      Board(templates, categorizedNotes)
    }

    /** A freshly mounted component: no notes, no columns, no channel. */
    constructor ()
      ensures templates == [] && categorizedNotes == map[] && newNote == ""
      ensures dataChannel == None && sent == []
    {
      templates := [];
      categorizedNotes := map[];
      newNote := "";
      dataChannel := None;
      sent := [];
    }

    /** The channel is created on mount and its ready state changes as the
      connection comes and goes; the new state is an input here. */
    method SetDataChannel(channel: Option<ReadyState>)
      modifies this`dataChannel
      ensures dataChannel == channel
    {
      dataChannel := channel;
    }

    /** Typing into the input box. */
    method SetNewNote(text: string)
      modifies this`newNote
      ensures newNote == text
    {
      newNote := text;
    }

    /** `broadcastState`: sends the two values only over an open channel. */
    method BroadcastState(newTemplates: seq<Note>, newCategorizedNotes: Columns)
      modifies this`sent
      ensures sent == old(sent) + Outgoing(dataChannel, newTemplates, newCategorizedNotes)
    {
      if dataChannel.Some? && dataChannel.value == Open {
        sent := sent + [Message(Some(newTemplates), Some(newCategorizedNotes))];
      }
    }

    /** `addNote`: the id stands for the clock reading. A blank input changes
      nothing and sends nothing; otherwise one note with the trimmed text and no
      categories is appended, the new list is broadcast with the current columns,
      and the input box is cleared. The columns never change. */
    method AddNote(id: int)
      modifies this`templates, this`newNote, this`sent
      ensures templates == AppendNote(old(templates), old(newNote), id)
      ensures Text.IsBlank(old(newNote)) ==>
        templates == old(templates) && newNote == old(newNote) && sent == old(sent)
      ensures !Text.IsBlank(old(newNote)) ==>
        && templates == old(templates) + [Note(id, Text.Trim(old(newNote)), [])]
        && newNote == ""
        && sent == old(sent) + Outgoing(dataChannel, templates, categorizedNotes)
    {
      Text.TrimEmptyIffBlank(newNote);
      if Text.Trim(newNote) != [] {
        var newTemplates := AppendNote(templates, newNote, id);
        templates := newTemplates;
        BroadcastState(newTemplates, categorizedNotes);
        newNote := "";
      }
    }

    /** `handleDrop` of an already decoded note into the column `category`: the
      matching notes gain the label, the column gains an entry, and both new
      values are broadcast. */
    method HandleDrop(dropped: Note, category: Category)
      modifies this`templates, this`categorizedNotes, this`sent
      ensures templates == DropIntoTemplates(old(templates), dropped, category)
      ensures categorizedNotes == DropIntoColumns(old(categorizedNotes), dropped, category)
      ensures sent == old(sent) + Outgoing(dataChannel, templates, categorizedNotes)
    {
      var newTemplates := DropIntoTemplates(templates, dropped, category);
      var newCategorizedNotes := DropIntoColumns(categorizedNotes, dropped, category);
      templates := newTemplates;
      categorizedNotes := newCategorizedNotes;
      BroadcastState(newTemplates, newCategorizedNotes);
    }

    /** `handleStateUpdate` of an already decoded message. Nothing is sent back. */
    method HandleStateUpdate(data: Message)
      modifies this`templates, this`categorizedNotes
      ensures State() == ApplyUpdate(old(State()), data)
    {
      if data.templates.Some? {
        templates := data.templates.value;
      }
      if data.categorizedNotes.Some? {
        categorizedNotes := data.categorizedNotes.value;
      }
    }
  }

  /** Two mounted components with the channel between them open: a note added on
      one arrives, with the rest of the board, on the other once the message sent
      is delivered. */
  method AddNoteReachesPeer(input: string, id: int) returns (a: Organizer, b: Organizer)
    ensures Text.IsBlank(input) ==> a.templates == [] && b.templates == [] && a.sent == []
    ensures !Text.IsBlank(input) ==>
      && a.templates == [Note(id, Text.Trim(input), [])]
      && b.State() == a.State()
      && |a.sent| == 1
  {
    a := new Organizer();
    b := new Organizer();
    a.SetDataChannel(Some(Open));
    b.SetDataChannel(Some(Open));
    a.SetNewNote(input);
    a.AddNote(id);
    if a.sent != [] {
      b.HandleStateUpdate(a.sent[|a.sent| - 1]);
    }
  }
}
