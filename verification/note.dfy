/**
 * One note in the list (src/components/Note.tsx): the displayed note, an
 * `isEditing` flag and two edit buffers that start from the note's title and
 * content.  Saving emits the note with the buffers' text and a fresh update
 * time, with no blank check; cancelling only leaves edit mode, so the
 * unsaved text is still in the buffers when editing starts again.  The clock
 * read by the save handler is a parameter.
 */
module NoteCard {

  /** A stored note; the timestamps are ISO-8601 strings. */
  datatype Note = Note(
    id: string,
    title: string,
    content: string,
    createdAt: string,
    updatedAt: string)

  /** The record `handleSave` builds by spreading the old note. */
  function Edited(note: Note, title: string, content: string, now: string): (r: Note)
    ensures r.id == note.id && r.createdAt == note.createdAt
    ensures r.title == title && r.content == content && r.updatedAt == now
  {
    note.(title := title, content := content, updatedAt := now)
  }

  /** Saving the note's own text again only moves its update time. */
  lemma EditedUnchangedText(note: Note, now: string)
    ensures Edited(note, note.title, note.content, now) == note.(updatedAt := now)
  {
  }

  /** A later save overrides an earlier one; identity and creation time survive both. */
  lemma EditedTwice(note: Note, t1: string, c1: string, a: string, t2: string, c2: string, b: string)
    ensures Edited(Edited(note, t1, c1, a), t2, c2, b) == Edited(note, t2, c2, b)
  {
  }

  class Editor {
    const note: Note
    var isEditing: bool
    var editedTitle: string
    var editedContent: string

    constructor (note: Note)
      ensures this.note == note
      ensures !isEditing && editedTitle == note.title && editedContent == note.content
    {
      this.note := note;
      isEditing := false;
      editedTitle := note.title;
      editedContent := note.content;
    }

    /** The Edit button. */
    method Edit()
      modifies this
      ensures isEditing
      ensures editedTitle == old(editedTitle) && editedContent == old(editedContent)
    {
      isEditing := true;
    }

    /** The Cancel button: leaves edit mode and keeps the buffers. */
    method Cancel()
      modifies this
      ensures !isEditing
      ensures editedTitle == old(editedTitle) && editedContent == old(editedContent)
    {
      isEditing := false;
    }

    /** The title input's `onChange` in edit mode. */
    method SetEditedTitle(value: string)
      modifies this
      ensures editedTitle == value
      ensures isEditing == old(isEditing) && editedContent == old(editedContent)
    {
      editedTitle := value;
    }

    /** The content textarea's `onChange` in edit mode. */
    method SetEditedContent(value: string)
      modifies this
      ensures editedContent == value
      ensures isEditing == old(isEditing) && editedTitle == old(editedTitle)
    {
      editedContent := value;
    }

    /** `handleSave`: the note passed to `onUpdate`, with `now` as the clock reading. */
    method Save(now: string) returns (updated: Note)
      modifies this
      ensures updated.id == note.id && updated.createdAt == note.createdAt
      ensures updated.title == old(editedTitle) && updated.content == old(editedContent)
      ensures updated.updatedAt == now
      ensures !isEditing
      ensures editedTitle == old(editedTitle) && editedContent == old(editedContent)
    {
      updated := Edited(note, editedTitle, editedContent, now);
      isEditing := false;
    }

    /** The Delete button: the id passed to `onDelete`; no edit state is touched. */
    method Delete() returns (id: string)
      ensures id == note.id
    {
      id := note.id;
    }
  }

  /** Cancelled text is shown again when editing restarts. */
  method CancelKeepsDraft(e: Editor, title: string)
    modifies e
    ensures e.isEditing && e.editedTitle == title
  {
    e.Edit();
    e.SetEditedTitle(title);
    e.Cancel();
    e.Edit();
  }

  /** Saving a blank buffer emits it as it is. */
  method SaveEmitsBlank(e: Editor, now: string) returns (updated: Note)
    modifies e
    ensures updated.title == "" && updated.id == e.note.id
  {
    e.Edit();
    e.SetEditedTitle("");
    updated := e.Save(now);
  }
}
