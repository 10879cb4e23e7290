# Sticky knowledge organizer: a Dafny model of the board logic

The repository is a React app in two versions. People use it to sort "knowledge
items" (sticky notes) into four fixed categories: "We know that we know", "We
didn't know that we knew", "We didn't know that we didn't know" and "We know that
we don't know". Each version keeps a small board. `templates` is the ordered list
of notes `{id, text, categories}`. `categorizedNotes` maps a category label to the
ordered column of entries dropped into it. Each version also draws a quadrant
map of the board.

- `src/StickyOrganizer.jsx` is the networked version. Every local change is sent
  over a WebRTC data channel as the two full values. Its `handleStateUpdate`
  replaces whichever of the two values a message from the peer carries. As
  written, though, no message from the peer reaches that handler (see
  "## Findings").
- `src/StickyOrganizer.js` is the single-user version. It starts with three
  seeded notes and fits two stickies to a quadrant row instead of three.

The model has these modules:

- `Text` (text.dfy): JavaScript's `trim`, as applied to a new note's text. It also
  holds the truncation of long texts on the map.
- `Notes` (notes.dfy): the board's values and the pure expressions both versions
  hand to their state setters. These are appending a trimmed note, adding a label
  to the dropped note's categories through a `Set`, appending an entry to a
  column, and the per-category filter. The module also holds the board invariants
  and proofs that the transitions keep them.
- `Quadrant` (quadrant.dfy): the map's geometry. It covers per-quadrant offsets, the
  grid layout with the row width as a parameter, label placement and the whole
  rendered map.
- `NetworkedOrganizer` (networked_organizer.dfy): the `.jsx` component as a class.
  Its fields are `templates`, `categorizedNotes`, `newNote`, `dataChannel`, and a
  log `sent` of the messages handed to the channel. Its methods are `AddNote`,
  `HandleDrop`, `HandleStateUpdate` and `BroadcastState`. Beside the class are
  the two channel ends as the code wires them, a lemma showing that a broadcast
  is lost as written, and lemmas about what a message does once it reaches
  `handleStateUpdate`: it converges the receiver, the last message wins, and
  concurrent additions cross over.
- `LocalOrganizer` (local_organizer.dfy): the `.js` component as a class. It has
  the seeded list and an object invariant. Adding a note keeps the board
  consistent; a drop keeps it consistent only when the dropped note is in the
  list.

The code has no host or participant roles, no request-state message and no
rejection of an unknown note id, and categorizing is not idempotent. `Notes.DropTwice` shows
that a second drop of the same note into the same category adds a second column
entry. Only the note's own `categories` list is de-duplicated. `Notes.DropUnknownNote`
shows that a drop with an id that no note has still grows the column and leaves
the board inconsistent. `Notes.DropConsistent` proves that dropping a note the
list holds keeps the board consistent: every column entry names a note that lists
the column's label, and every label a note lists has its entry.

Ids come from the clock in the source. Here they are a method parameter. The
dropped note and the peer's message are taken as values already decoded from JSON.

## Model

| member | source | states |
|---|---|---|
| `Text.WhitespaceListed` | src/StickyOrganizer.jsx:193 | the characters `trim` strips are exactly the 25 of the ECMAScript WhiteSpace and LineTerminator productions, listed one by one |
| `Text.TrimStart` | src/StickyOrganizer.jsx:196 | the result is the suffix of the input starting at its first non-whitespace character, and everything cut off is whitespace |
| `Text.TrimEnd` | src/StickyOrganizer.js:142 | the result is the prefix of the input ending at its last non-whitespace character, and everything cut off is whitespace |
| `Text.Trim` | src/StickyOrganizer.jsx:196 | the trimmed text is no longer than the input, and a non-empty one starts and ends with a non-whitespace character |
| `Text.TrimIsSlice` | src/StickyOrganizer.jsx:196 | the trimmed text is the slice of the input between its leading and trailing whitespace runs, both of which are whitespace only |
| `Text.TrimEmptyIffBlank` | src/StickyOrganizer.jsx:193 | the trimmed input is empty (falsy) exactly when the input consists of whitespace only |
| `Text.TrimIdempotent` | src/StickyOrganizer.js:139 | trimming an already trimmed text is the identity |
| `Text.Truncate` | src/StickyOrganizer.js:111 | a drawn label is at most 20 characters; a text of at most 20 is drawn unchanged; a longer one becomes its first 17 characters followed by "..." |
| `Notes.Dedup` | src/StickyOrganizer.jsx:215 | spreading a `Set` of a list yields a list with no repetitions, exactly the same elements, in the order of their first occurrence in the input |
| `Notes.DedupKeepsDupFree` | src/StickyOrganizer.js:161 | a list with no repetitions passes through a `Set` unchanged, order included |
| `Notes.WithCategory` | src/StickyOrganizer.jsx:215 | the new categories hold the label once and otherwise exactly the old labels; on a repetition-free list they are the old list when the label was present and the old list with the label appended otherwise |
| `Notes.WithCategoryIdempotent` | src/StickyOrganizer.js:161 | adding the same label twice gives the same categories as adding it once |
| `Notes.AppendNote` | src/StickyOrganizer.jsx:193-198 | blank input leaves the list unchanged; otherwise exactly one note `{id, trimmed text, []}` is appended at the end, earlier notes unchanged, and its text neither starts nor ends with whitespace |
| `Notes.DropIntoTemplates` | src/StickyOrganizer.jsx:213-217 | length, order, ids and texts are preserved; notes with another id are untouched; a note with the dropped id gets the label exactly once and keeps exactly its old labels besides; when its old categories have no repetitions (as on every board both components build), they are unchanged if the label was present and get it appended at the end otherwise |
| `Notes.DropIntoColumns` | src/StickyOrganizer.jsx:219-222 | the label's column, empty if missing, grows by exactly one entry placed last, equal to the dropped note with the label; all other columns are unchanged and no other key appears |
| `Notes.DropTwice` | src/StickyOrganizer.js:159-169 | a second identical drop leaves the notes' categories as after the first, while the column holds two identical new entries |
| `Notes.NotesForCategory` | src/StickyOrganizer.js:10-12 | the result holds exactly the items whose categories include the label |
| `Notes.NotesForCategoryAppend` | src/StickyOrganizer.jsx:37-39 | the filter keeps the original order: filtering a concatenation is concatenating the filtered parts |
| `Notes.AppendNoteWellFormed` | src/StickyOrganizer.js:139-145 | adding a note keeps every note's categories repetition-free and every entry under its own label |
| `Notes.DropWellFormed` | src/StickyOrganizer.js:159-169 | any drop, whatever the id, keeps every note's categories repetition-free and every entry under its own label |
| `Notes.EmptyBoardConsistent` | src/StickyOrganizer.jsx:120-122 | a list of notes without categories with no columns is a consistent board |
| `Notes.AppendNoteConsistent` | src/StickyOrganizer.jsx:194-198 | adding a note keeps the board consistent |
| `Notes.DropKeepsListed` | src/StickyOrganizer.jsx:213-222 | after a drop of a held note, every column entry still names a note listing that column's label |
| `Notes.DropKeepsRecorded` | src/StickyOrganizer.jsx:213-222 | after any drop, every label a note lists still has an entry for that note in the label's column |
| `Notes.DropConsistent` | src/StickyOrganizer.jsx:209-222 | dropping a note the list holds keeps the board consistent |
| `Notes.DropUnknownNote` | src/StickyOrganizer.jsx:213-222 | a dropped id that no note has leaves the list unchanged, still appends the column entry, and makes the board inconsistent |
| `Quadrant.Offset` | src/StickyOrganizer.js:29-48 | quadrants 0-3 get offsets (40,40), (440,40), (40,440), (440,440), i.e. x by parity and y by top or bottom half; any other index gets no offset |
| `Quadrant.Layout` | src/StickyOrganizer.js:21-51 | the output keeps the notes' length and order, and note `i` sits at the offset plus column `i % perRow` times 110 and row `i / perRow` times 70 |
| `Quadrant.LayoutApart` | src/StickyOrganizer.jsx:47-52 | no two stickies of a quadrant overlap, for any row width |
| `Quadrant.LayoutFitsSpan` | src/StickyOrganizer.jsx:45 | with the row width taken as the usable width divided by 110, rounded down, every sticky lies horizontally inside the quadrant's usable width |
| `Quadrant.LabelPosition` | src/StickyOrganizer.js:73-74 | label `k` has x 40 for even `k` and 440 otherwise, and y 40 for `k < 2` and 440 otherwise, drawn 10 higher; for the four quadrants this is the quadrant's offset raised by 10 |
| `Quadrant.LayoutOfCategory` | src/StickyOrganizer.js:91-92 | a category's quadrant holds a sticky for exactly the items listing that category |
| `Quadrant.Render` | src/StickyOrganizer.js:90-92 | the map has one layout per category; quadrant `q` is exactly the layout, at quadrant `q`'s offset, of the items listing category `q` in board order, so every sticky there is such an item and every such item is drawn there |
| `NetworkedOrganizer.LayoutNotesInQuadrant` | src/StickyOrganizer.jsx:35-74 | three per row, because 360 divided by 110 rounds down to 3: note `i` sits at the offset plus `((i % 3) * 110, (i / 3) * 70)`, inside the 360-wide usable width, with length and order kept |
| `NetworkedOrganizer.RowsOverflowQuadrant` | src/StickyOrganizer.jsx:48-52 | rows are unbounded, so the 16th note of the top-left quadrant reaches into the bottom half of the board |
| `NetworkedOrganizer.Outgoing` | src/StickyOrganizer.jsx:182-189 | a message is sent only when a channel exists and is open, and it is exactly `{templates, categorizedNotes}` with both present |
| `NetworkedOrganizer.ApplyUpdate` | src/StickyOrganizer.jsx:177-180 | a field the message carries replaces the local value, a missing field leaves it unchanged, and a message with neither field changes nothing |
| `NetworkedOrganizer.FarEnd` | src/StickyOrganizer.jsx:137-139 | a message sent on one component's own channel arrives at the other end of that channel, never at the sender's end |
| `NetworkedOrganizer.ReceiveAsWritten` | src/StickyOrganizer.jsx:9-22 | as written, a message reaching the created end goes through `handleStateUpdate`, and one reaching the announced end leaves the board unchanged because its handler is missing |
| `NetworkedOrganizer.BroadcastLostAsWritten` | src/StickyOrganizer.jsx:9-22 | as written, a broadcast lands on the peer's announced end and leaves its board unchanged, so a peer whose list differs from the sender's still differs |
| `NetworkedOrganizer.BroadcastConverges` | src/StickyOrganizer.jsx:177-189 | with the intended wiring, where every end hands messages to `handleStateUpdate`, a delivered broadcast makes the receiver's board equal to the sender's, whatever the receiver held |
| `NetworkedOrganizer.LastMessageWins` | src/StickyOrganizer.jsx:177-180 | once messages reach `handleStateUpdate`, after a message carrying both fields, earlier messages leave no trace (no merge) |
| `NetworkedOrganizer.ConcurrentAddsCross` | src/StickyOrganizer.jsx:177-200 | with the intended wiring, two peers adding different notes simultaneously each end up with the other's board, so they disagree; when both ids are fresh for the starting board, each has lost its own note |
| `NetworkedOrganizer.Organizer.constructor` | src/StickyOrganizer.jsx:120-125 | the component starts with no notes, no columns, an empty input and no channel |
| `NetworkedOrganizer.Organizer.SetDataChannel` | src/StickyOrganizer.jsx:137-139 | the channel's state becomes the given one |
| `NetworkedOrganizer.Organizer.SetNewNote` | src/StickyOrganizer.jsx:264 | the input box's text becomes the typed text |
| `NetworkedOrganizer.Organizer.BroadcastState` | src/StickyOrganizer.jsx:182-189 | the send log grows by the one message `Outgoing` gives, i.e. only over an open channel |
| `NetworkedOrganizer.Organizer.AddNote` | src/StickyOrganizer.jsx:191-203 | blank input changes nothing and sends nothing; otherwise one trimmed note is appended, the appended list is broadcast with the current columns, and the input is cleared |
| `NetworkedOrganizer.Organizer.HandleDrop` | src/StickyOrganizer.jsx:209-227 | the list and columns become `DropIntoTemplates` and `DropIntoColumns` of the old ones, and exactly these new values are broadcast |
| `NetworkedOrganizer.Organizer.HandleStateUpdate` | src/StickyOrganizer.jsx:177-180 | each field the message carries replaces the local value; the others stay |
| `NetworkedOrganizer.AddNoteReachesPeer` | src/StickyOrganizer.jsx:177-200 | with the intended wiring and an open channel, a note added on one component arrives, with the whole board, on the other after delivery of the one message sent |
| `LocalOrganizer.LayoutNotesInQuadrant` | src/StickyOrganizer.js:15-51 | two per row, because 320 divided by 110 rounds down to 2: note `i` sits at the offset (none in the default case) plus `((i % 2) * 110, (i / 2) * 70)`, inside the 320-wide usable width, with length and order kept |
| `LocalOrganizer.InitialBoardConsistent` | src/StickyOrganizer.js:129-135 | the seeded board is consistent |
| `LocalOrganizer.Organizer.constructor` | src/StickyOrganizer.js:129-135 | the notes are exactly ids 1, 2, 3 with texts "Technical Skills", "Soft Skills", "Domain Knowledge" and no categories; there are no columns |
| `LocalOrganizer.Organizer.SetNewNote` | src/StickyOrganizer.js:185 | the input box's text becomes the typed text |
| `LocalOrganizer.Organizer.AddNote` | src/StickyOrganizer.js:137-148 | blank input changes nothing; otherwise one trimmed note with no categories is appended at the end and the input is cleared; the board invariant and consistency are kept |
| `LocalOrganizer.Organizer.HandleDrop` | src/StickyOrganizer.js:154-170 | the list and columns become `DropIntoTemplates` and `DropIntoColumns` of the old ones; the board invariant is kept, and consistency is kept when the dropped note is in the list |

## Findings

| source | as written | input that shows it | evidently intended | confidence | as-written member | corrected member |
|---|---|---|---|---|---|---|
| src/StickyOrganizer.jsx:9-22 | `ondatachannel`, installed on every peer, calls `setupDataChannel(channel)` with no handler. Each side sends only on its own created channel (jsx:137-139, 183-184), whose far end is the peer's announced end. There `onMessage(data)` is `undefined(data)` and throws a TypeError before any setter runs, so `handleStateUpdate` is never reached | receiver with an empty board; sender with one note broadcasting over an open channel: the receiver's board stays empty | the announced channel is also set up with `handleStateUpdate`, so that a message updates the receiver's board | high, not executed | `NetworkedOrganizer.BroadcastLostAsWritten` | `NetworkedOrganizer.BroadcastConverges` |

## Left out

- WebRTC plumbing is not modelled: peer connection creation, channel setup, the offer and answer exchange through URL parameters, and cleanup on unmount. These are browser APIs with asynchronous callbacks. The channel appears only as its ready state and a log of sent messages.
- `NetworkedOrganizer.AddNoteReachesPeer`, `NetworkedOrganizer.BroadcastConverges` and `NetworkedOrganizer.ConcurrentAddsCross` describe the intended wiring, not the code as written. As written, every peer's `ondatachannel` sets up the announced channel without a handler. Each side sends only on the channel it created, so every message lands on such an end, and `onMessage(data)` throws there (see "## Findings").
- Randomness and clocks are not modelled. The random room id is left out, and the `Date.now()` id arrives as the `id` parameter.
- JSON and drag-and-drop transport are not modelled. The dropped note and the inbound message are typed values already decoded. A message field that is absent or null is `None`, and an empty list or object counts as present, as it is truthy. Inbound values of the wrong shape cannot be expressed.
- Presentation is not modelled: markup, styles, the clipboard copy, the status text and the per-note category display.
- React's asynchronous state updates are not modelled. The `.jsx` handlers read the state captured at the last render. The model handles events one at a time, each seeing the latest state, which is also what the `.js` version's functional updaters give.
- `Text.Truncate`: it measures length in characters. JavaScript measures in UTF-16 code units, so a text with characters outside the basic plane is measured differently, and `substring` can split such a character.
- `Quadrant.Layout`: it requires a positive row width. The source's row width is always the constant 3 or 2.
- `NetworkedOrganizer.Organizer` has no object invariant. A peer's message can install any board, so the consistency lemmas apply only to local changes.
- `src/index.jsx` and `src/index.js` only mount the component and are not part of this model.
