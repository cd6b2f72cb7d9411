/** The quiz create/edit form: its fields, the prefill from the quiz being edited, and
    the ordered checks of its submit handler. */
module QuizForm {
  import opened Common
  import opened Text
  import opened Entities

  /** What the form hands to the page's submit callback. */
  datatype QuizPayload = QuizPayload(
    question: string,
    options: seq<string>,
    correctAnswer: string,
    explanation: Option<string>,
    category: Option<string>,
    difficulty: Difficulty)

  const DefaultOptions: seq<string> := ["", "", "", ""]

  /** `options.filter(opt => opt.trim() !== '')`: the options kept untrimmed. */
  function NonBlank(options: seq<string>): (r: seq<string>)
    ensures |r| <= |options|
    ensures forall x :: x in r <==> x in options && Trim(x) != ""
  {
    if options == [] then []
    else
      var rest := NonBlank(options[1..]);
      assert forall x :: x in options <==> x == options[0] || x in options[1..];
      if Trim(options[0]) != "" then [options[0]] + rest else rest
  }

  /** The filter keeps the order of the options: it distributes over concatenation. */
  lemma {:induction false} NonBlankAppend(a: seq<string>, b: seq<string>)
    ensures NonBlank(a + b) == NonBlank(a) + NonBlank(b)
  {
    if a == [] {
      assert a + b == b;
    } else {
      assert (a + b)[0] == a[0] && (a + b)[1..] == a[1..] + b;
      NonBlankAppend(a[1..], b);
    }
  }

  /** Options that are all filled in are submitted as they are. */
  lemma {:induction false} NonBlankKeepsFilledOptions(options: seq<string>)
    requires forall i :: 0 <= i < |options| ==> !AllWhitespace(options[i])
    ensures NonBlank(options) == options
  {
    if options != [] {
      TrimEmptyIffAllWhitespace(options[0]);
      NonBlankKeepsFilledOptions(options[1..]);
    }
  }

  /** `handleSubmit`'s checks, first failure wins. */
  function Validate(question: string, options: seq<string>, correctAnswer: string,
                    explanation: string, category: string, difficulty: Difficulty): (r: Checked<QuizPayload>)
    ensures question == "" ==> r == Rejected("Question is required")
    ensures question != "" && |NonBlank(options)| < 2 ==>
              r == Rejected("At least 2 options are required")
    ensures question != "" && |NonBlank(options)| >= 2
            && (correctAnswer == "" || correctAnswer !in NonBlank(options)) ==>
              r == Rejected("Correct answer must be one of the options")
    ensures r.Accepted? <==>
              question != "" && |NonBlank(options)| >= 2 && correctAnswer in NonBlank(options)
    ensures r.Accepted? ==>
              && r.payload.question == question
              && r.payload.options == NonBlank(options)
              && r.payload.correctAnswer == correctAnswer
              && r.payload.explanation == NonEmptyOrAbsent(explanation)
              && r.payload.category == NonEmptyOrAbsent(category)
              && r.payload.difficulty == difficulty
  {
    if question == "" then Rejected("Question is required")
    else
      var validOptions := NonBlank(options);
      if |validOptions| < 2 then Rejected("At least 2 options are required")
      else if correctAnswer == "" || correctAnswer !in validOptions then
        Rejected("Correct answer must be one of the options")
      else
        Accepted(QuizPayload(question, validOptions, correctAnswer,
          NonEmptyOrAbsent(explanation), NonEmptyOrAbsent(category), difficulty))
  }

  /** An accepted quiz has at least two options, none of them blank, and its correct
      answer is one of them. */
  lemma AcceptedQuizIsWellFormed(question: string, options: seq<string>, correctAnswer: string,
                                 explanation: string, category: string, difficulty: Difficulty)
    requires Validate(question, options, correctAnswer, explanation, category, difficulty).Accepted?
    ensures var p := Validate(question, options, correctAnswer, explanation, category, difficulty).payload;
            && |p.options| >= 2
            && p.correctAnswer in p.options
            && (forall i :: 0 <= i < |p.options| ==> !AllWhitespace(p.options[i]))
            && (forall o :: o in p.options ==> o in options)
  {
    var p := Validate(question, options, correctAnswer, explanation, category, difficulty).payload;
    forall i | 0 <= i < |p.options| ensures !AllWhitespace(p.options[i]) {
      assert p.options[i] in NonBlank(options);
      TrimEmptyIffAllWhitespace(p.options[i]);
    }
  }

  class Form {
    var question: string
    var options: seq<string>
    var correctAnswer: string
    var explanation: string
    var category: string
    var difficulty: Difficulty
    var error: string

    /** The blank form: four empty options, difficulty 'medium'. */
    constructor ()
      ensures question == "" && options == DefaultOptions && correctAnswer == ""
      ensures explanation == "" && category == "" && difficulty == Medium && error == ""
    {
      question, options, correctAnswer := "", DefaultOptions, "";
      explanation, category, difficulty, error := "", "", Medium, "";
    }

    /** The prefill effect: with a quiz every field is taken from it (absent options
        give the four empty ones, absent texts the empty string); without one nothing
        changes. */
    method Prefill(quiz: Option<Quiz>)
      modifies this`question, this`options, this`correctAnswer, this`explanation,
               this`category, this`difficulty
      ensures quiz.None? ==>
                question == old(question) && options == old(options)
                && correctAnswer == old(correctAnswer) && explanation == old(explanation)
                && category == old(category) && difficulty == old(difficulty)
      ensures quiz.Some? ==>
                && question == quiz.value.question
                && options == (if quiz.value.options.Some? then quiz.value.options.value else DefaultOptions)
                && correctAnswer == quiz.value.correctAnswer
                && explanation == (if quiz.value.explanation.Some? then quiz.value.explanation.value else "")
                && category == (if quiz.value.category.Some? then quiz.value.category.value else "")
                && difficulty == quiz.value.difficulty
    {
      if quiz.Some? {
        var q := quiz.value;
        question := q.question;
        options := if q.options.Some? then q.options.value else DefaultOptions;
        correctAnswer := q.correctAnswer;
        explanation := if q.explanation.Some? then q.explanation.value else "";
        category := if q.category.Some? then q.category.value else "";
        difficulty := q.difficulty;
      }
    }

    /** Typing in option box `index`: a copy of the options with that one replaced. */
    method SetOption(index: nat, text: string)
      requires index < |options|
      modifies this`options
      ensures options == old(options)[index := text]
    {
      var newOptions := options;
      newOptions := newOptions[index := text];
      options := newOptions;
    }

    /** `handleSubmit`: the error is cleared; a rejected form shows the check's message
        and submits nothing; an accepted one submits its payload, and a failed submit
        shows the error, falling back to 'Failed to save quiz'. */
    method HandleSubmit(outcome: Outcome) returns (submitted: Option<QuizPayload>)
      modifies this`error
      ensures var v := Validate(question, options, correctAnswer, explanation, category, difficulty);
              && (v.Rejected? ==> submitted == None && error == v.message)
              && (v.Accepted? ==> submitted == Some(v.payload))
              && (v.Accepted? && outcome.Succeeded? ==> error == "")
              && (v.Accepted? && outcome.Failed? ==> error == MessageOr(outcome.message, "Failed to save quiz"))
    {
      error := "";
      var v := Validate(question, options, correctAnswer, explanation, category, difficulty);
      if v.Rejected? {
        error := v.message;
        return None;
      }
      submitted := Some(v.payload);
      if outcome.Failed? {
        error := MessageOr(outcome.message, "Failed to save quiz");
      }
    }
  }
}
