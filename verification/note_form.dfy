/**
 * The note-creation form (src/components/NoteForm.tsx): a title buffer and a
 * content buffer, and a submit handler that always suppresses the browser's
 * form submission, refuses a title or content that is blank after trimming,
 * and otherwise hands both buffers, untrimmed, to `onSubmit` and clears them.
 */
module NoteForm {
  import opened Wrappers
  import opened JsString

  /** What `onSubmit` receives: the note fields the form owns. */
  datatype Draft = Draft(title: string, content: string)

  /** What one submit event does outside the form's own state. */
  datatype SubmitOutcome = SubmitOutcome(defaultPrevented: bool, submitted: Option<Draft>)

  class Form {
    var title: string
    var content: string

    constructor ()
      ensures title == "" && content == ""
    {
      title := "";
      content := "";
    }

    /** The title input's `onChange`. */
    method SetTitle(value: string)
      modifies this
      ensures title == value && content == old(content)
    {
      title := value;
    }

    /** The content textarea's `onChange`. */
    method SetContent(value: string)
      modifies this
      ensures content == value && title == old(title)
    {
      content := value;
    }

    /** `handleSubmit`. */
    method HandleSubmit() returns (outcome: SubmitOutcome)
      modifies this
      ensures outcome.defaultPrevented
      ensures outcome.submitted.Some? <==> !IsBlank(old(title)) && !IsBlank(old(content))
      ensures outcome.submitted.Some? ==>
        outcome.submitted.value == Draft(old(title), old(content)) &&
        title == "" && content == ""
      ensures outcome.submitted.None? ==> title == old(title) && content == old(content)
    {
      TrimEmptyIffBlank(title);
      TrimEmptyIffBlank(content);
      if Trim(title) == "" || Trim(content) == "" {
        return SubmitOutcome(true, None);
      }
      outcome := SubmitOutcome(true, Some(Draft(title, content)));
      title := "";
      content := "";
    }
  }

  /** A blank-looking title is refused even when the content is filled in. */
  method RejectsBlankTitle(f: Form) returns (outcome: SubmitOutcome)
    modifies f
    ensures outcome == SubmitOutcome(true, None)
    ensures f.title == " \n" && f.content == "text"
  {
    f.SetTitle(" \n");
    f.SetContent("text");
    assert IsBlank(f.title);
    outcome := f.HandleSubmit();
  }
}
