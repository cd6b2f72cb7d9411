/** The Quizzes page: a list of quizzes filtered by search text, category and
    difficulty, with create/edit, delete, batch delete and an activate/deactivate action. */
module QuizzesPage {
  import opened Common
  import opened Text
  import opened Entities
  import opened ResourceList

  /** The query of `getQuizzes`. */
  datatype QuizQuery = QuizQuery(
    page: int,
    limit: int,
    search: Option<string>,
    category: Option<string>,
    difficulty: Option<string>)

  /** The body of the update the activate/deactivate action sends. */
  datatype ActivePatch = ActivePatch(id: int, isActive: bool)

  /** What the server holds after it applies a patch to a quiz. */
  function ApplyPatch(q: Quiz, p: ActivePatch): Quiz
  {
    if p.id == q.id then q.(isActive := p.isActive) else q
  }

  /** `handleToggleActive`'s request for a quiz. */
  function ToggleActivePatch(q: Quiz): (p: ActivePatch)
    ensures ApplyPatch(q, p).isActive != q.isActive
    ensures ApplyPatch(q, p) == q.(isActive := !q.isActive)
  {
    ActivePatch(q.id, !q.isActive)
  }

  /** Using the action twice on a quiz leaves it as it was. */
  lemma ToggleActiveTwiceRestores(q: Quiz)
    ensures var once := ApplyPatch(q, ToggleActivePatch(q));
            ApplyPatch(once, ToggleActivePatch(once)) == q
  {
  }

  class Page {
    const list: Controller<Quiz>
    var search: string
    var categoryFilter: string
    var difficultyFilter: string

    constructor ()
      ensures fresh(list) && list.canCreate
      ensures list.idOf == ((q: Quiz) => q.id)
      ensures list.page == 1 && list.pageSize == 20 && list.totalPages == 1
      ensures list.rows == [] && list.selected == {} && !list.showForm && list.editing == None
      ensures search == "" && categoryFilter == "" && difficultyFilter == ""
    {
      list := new Controller((q: Quiz) => q.id, true, 20,
        "Failed to load quizzes", "Failed to delete quiz", "Failed to delete quizzes");
      search, categoryFilter, difficultyFilter := "", "", "";
    }

    /** Typing in the search box; the page is reset only when the debounce fires. */
    method SetSearch(text: string)
      modifies this`search
      ensures search == text
    {
      search := text;
    }

    /** Typing in the category box. */
    method SetCategoryFilter(text: string)
      modifies this`categoryFilter
      ensures categoryFilter == text
    {
      categoryFilter := text;
    }

    /** The 500 ms timer after the last search keystroke fires. */
    method SearchDebounceFired()
      modifies list`page
      ensures list.page == 1
    {
      list.ResetPage();
    }

    /** The 500 ms timer after the last category keystroke fires. */
    method CategoryDebounceFired()
      modifies list`page
      ensures list.page == 1
    {
      list.ResetPage();
    }

    /** The difficulty selector applies at once and goes back to page 1. */
    method SetDifficultyFilter(value: string)
      modifies this`difficultyFilter, list`page
      ensures difficultyFilter == value && list.page == 1
    {
      difficultyFilter := value;
      list.ResetPage();
    }

    /** The activate/deactivate action: the flipped flag is sent for that quiz alone;
        a success reloads the list and a failure shows the error. */
    method ToggleActive(quiz: Quiz, outcome: Outcome) returns (request: ActivePatch, reload: bool)
      modifies list`error
      ensures request.id == quiz.id && request.isActive == !quiz.isActive
      ensures outcome.Succeeded? ==> reload && list.error == old(list.error)
      ensures outcome.Failed? ==> !reload && list.error == MessageOr(outcome.message, "Failed to update quiz")
    {
      var nextIsActive := !quiz.isActive;
      request := ActivePatch(quiz.id, nextIsActive);
      if outcome.Succeeded? {
        reload := true;
      } else {
        list.error := MessageOr(outcome.message, "Failed to update quiz");
        reload := false;
      }
    }

    /** The request `loadQuizzes` sends for the current state. */
    function Query(): (q: QuizQuery)
      reads this, list
      ensures q.page == list.page && q.limit == list.pageSize
      ensures q.search == None <==> AllWhitespace(search)
      ensures q.category == None <==> AllWhitespace(categoryFilter)
      ensures q.search.Some? ==> q.search.value == Trim(search)
      ensures q.category.Some? ==> q.category.value == Trim(categoryFilter)
      ensures q.difficulty == NonEmptyOrAbsent(difficultyFilter)
    {
      BlankFilterIsOmitted(search);
      BlankFilterIsOmitted(categoryFilter);
      QuizQuery(list.page, list.pageSize, TrimmedOrAbsent(search),
        TrimmedOrAbsent(categoryFilter), NonEmptyOrAbsent(difficultyFilter))
    }
  }
}
