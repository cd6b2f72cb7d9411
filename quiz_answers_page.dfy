/** The Quiz Answers page: a list of quiz attempts filtered by user id, quiz id and
    correctness, with the attempt statistics shown in its header. */
module QuizAnswersPage {
  import opened Common
  import opened Text
  import opened Entities
  import opened ResourceList

  /** The query of `getQuizAttempts`.  The id filters are sent as the trimmed text;
      turning that text into a number is not part of this model. */
  datatype AttemptQuery = AttemptQuery(
    page: int,
    limit: int,
    userId: Option<string>,
    quizId: Option<string>,
    isCorrect: Option<string>)

  /** Header statistics: the number of attempts and of correct ones. */
  datatype AttemptStats = AttemptStats(total: nat, correct: nat)

  /** `attempts.filter(a => a.is_correct).length`. */
  function CountCorrect(attempts: seq<QuizAttempt>): (n: nat)
    ensures n <= |attempts|
    ensures n == |attempts| <==> forall i :: 0 <= i < |attempts| ==> attempts[i].isCorrect
    ensures n == 0 <==> forall i :: 0 <= i < |attempts| ==> !attempts[i].isCorrect
  {
    if attempts == [] then 0
    else
      var rest := CountCorrect(attempts[1..]);
      assert forall i :: 1 <= i < |attempts| ==> attempts[i] == attempts[1..][i - 1];
      (if attempts[0].isCorrect then 1 else 0) + rest
  }

  /** The count of correct attempts adds up over the two parts of a list. */
  lemma {:induction false} CountCorrectAppend(a: seq<QuizAttempt>, b: seq<QuizAttempt>)
    ensures CountCorrect(a + b) == CountCorrect(a) + CountCorrect(b)
  {
    if a == [] {
      assert a + b == b;
    } else {
      assert (a + b)[0] == a[0] && (a + b)[1..] == a[1..] + b;
      CountCorrectAppend(a[1..], b);
    }
  }

  /** `calculateStats`: `correct` never exceeds `total`. */
  function Stats(attempts: seq<QuizAttempt>): (s: AttemptStats)
    ensures s.total == |attempts| && s.correct <= s.total
    ensures s.correct == CountCorrect(attempts)
  {
    AttemptStats(|attempts|, CountCorrect(attempts))
  }

  /** The success rate in percent, 0 when there are no attempts (shown as '0.00'). */
  function SuccessRate(s: AttemptStats): (rate: real)
    requires s.correct <= s.total
    ensures 0.0 <= rate <= 100.0
    ensures s.total == 0 ==> rate == 0.0
    ensures s.total > 0 && s.correct == s.total ==> rate == 100.0
  {
    if s.total > 0 then (s.correct as real / s.total as real) * 100.0 else 0.0
  }

  class Page {
    const list: Controller<QuizAttempt>
    var userIdFilter: string
    var quizIdFilter: string
    var correctFilter: string

    constructor ()
      ensures fresh(list) && !list.canCreate
      ensures list.idOf == ((a: QuizAttempt) => a.id)
      ensures list.page == 1 && list.pageSize == 20 && list.totalPages == 1
      ensures list.rows == [] && list.selected == {}
      ensures userIdFilter == "" && quizIdFilter == "" && correctFilter == ""
    {
      list := new Controller((a: QuizAttempt) => a.id, false, 20,
        "Failed to load quiz attempts", "Failed to delete quiz attempt",
        "Failed to delete quiz attempts");
      userIdFilter, quizIdFilter, correctFilter := "", "", "";
    }

    /** Typing in the user id box; the page is reset only when the debounce fires. */
    method SetUserIdFilter(text: string)
      modifies this`userIdFilter
      ensures userIdFilter == text
    {
      userIdFilter := text;
    }

    /** Typing in the quiz id box. */
    method SetQuizIdFilter(text: string)
      modifies this`quizIdFilter
      ensures quizIdFilter == text
    {
      quizIdFilter := text;
    }

    /** The 500 ms timer after the last user id keystroke fires: back to page 1. */
    method UserIdDebounceFired()
      modifies list`page
      ensures list.page == 1
    {
      list.ResetPage();
    }

    /** The 500 ms timer after the last quiz id keystroke fires: back to page 1. */
    method QuizIdDebounceFired()
      modifies list`page
      ensures list.page == 1
    {
      list.ResetPage();
    }

    /** The correctness selector applies at once and goes back to page 1. */
    method SetCorrectFilter(value: string)
      modifies this`correctFilter, list`page
      ensures correctFilter == value && list.page == 1
    {
      correctFilter := value;
      list.ResetPage();
    }

    /** The request `loadAttempts` sends for the current state. */
    function Query(): (q: AttemptQuery)
      reads this, list
      ensures q.page == list.page && q.limit == list.pageSize
      ensures q.userId == None <==> AllWhitespace(userIdFilter)
      ensures q.quizId == None <==> AllWhitespace(quizIdFilter)
      ensures q.userId.Some? ==> q.userId.value == Trim(userIdFilter)
      ensures q.quizId.Some? ==> q.quizId.value == Trim(quizIdFilter)
      ensures q.isCorrect == NonEmptyOrAbsent(correctFilter)
    {
      BlankFilterIsOmitted(userIdFilter);
      BlankFilterIsOmitted(quizIdFilter);
      AttemptQuery(list.page, list.pageSize, TrimmedOrAbsent(userIdFilter),
        TrimmedOrAbsent(quizIdFilter), NonEmptyOrAbsent(correctFilter))
    }
  }
}
