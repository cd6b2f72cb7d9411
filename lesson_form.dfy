/** The lesson create/edit form. */
module LessonForm {
  import opened Common
  import opened Entities

  datatype LessonPayload = LessonPayload(topic: string, category: string, summary: string)

  /** `handleSubmit`'s one check: every field must be non-empty (they are not trimmed). */
  function Validate(topic: string, category: string, summary: string): (r: Checked<LessonPayload>)
    ensures r.Rejected? <==> topic == "" || category == "" || summary == ""
    ensures r.Rejected? ==> r.message == "All fields are required"
    ensures r.Accepted? ==>
              r.payload.topic == topic && r.payload.category == category && r.payload.summary == summary
  {
    if topic == "" || category == "" || summary == "" then Rejected("All fields are required")
    else Accepted(LessonPayload(topic, category, summary))
  }

  /** Example: fields of white space only are not empty and pass the check. */
  lemma WhitespaceFieldsPass()
    ensures Validate(" ", " ", " ") == Accepted(LessonPayload(" ", " ", " "))
  {
  }

  class Form {
    var topic: string
    var category: string
    var summary: string
    var error: string

    constructor ()
      ensures topic == "" && category == "" && summary == "" && error == ""
    {
      topic, category, summary, error := "", "", "", "";
    }

    /** The prefill effect: the three fields from the lesson being edited. */
    method Prefill(lesson: Option<Lesson>)
      modifies this`topic, this`category, this`summary
      ensures lesson.None? ==> topic == old(topic) && category == old(category) && summary == old(summary)
      ensures lesson.Some? ==>
                topic == lesson.value.topic && category == lesson.value.category
                && summary == lesson.value.summary
    {
      if lesson.Some? {
        topic := lesson.value.topic;
        category := lesson.value.category;
        summary := lesson.value.summary;
      }
    }

    /** `handleSubmit`: a rejected form shows 'All fields are required' and submits
        nothing; an accepted one submits exactly the three fields, and a failed submit
        shows the error, falling back to 'Failed to save lesson'. */
    method HandleSubmit(outcome: Outcome) returns (submitted: Option<LessonPayload>)
      modifies this`error
      ensures var v := Validate(topic, category, summary);
              && (v.Rejected? ==> submitted == None && error == "All fields are required")
              && (v.Accepted? ==> submitted == Some(LessonPayload(topic, category, summary)))
              && (v.Accepted? && outcome.Succeeded? ==> error == "")
              && (v.Accepted? && outcome.Failed? ==> error == MessageOr(outcome.message, "Failed to save lesson"))
    {
      error := "";
      var v := Validate(topic, category, summary);
      if v.Rejected? {
        error := v.message;
        return None;
      }
      submitted := Some(v.payload);
      if outcome.Failed? {
        error := MessageOr(outcome.message, "Failed to save lesson");
      }
    }
  }
}
