/** The Lessons page: a list of lessons filtered by search text and category, twenty to
    a page, with create/edit, delete and batch delete. */
module LessonsPage {
  import opened Common
  import opened Text
  import opened Entities
  import opened ResourceList

  /** The page size `loadLessons` always sends. */
  const PageLimit := 20

  /** The query of `getLessons`. */
  datatype LessonQuery = LessonQuery(
    page: int,
    limit: int,
    search: Option<string>,
    category: Option<string>)

  class Page {
    const list: Controller<Lesson>
    var search: string
    var categoryFilter: string

    constructor ()
      ensures fresh(list) && list.canCreate
      ensures list.idOf == ((l: Lesson) => l.id)
      ensures list.page == 1 && list.totalPages == 1
      ensures list.rows == [] && list.selected == {} && !list.showForm
      ensures list.editing == None && list.pendingDelete == None
      ensures search == "" && categoryFilter == ""
    {
      list := new Controller((l: Lesson) => l.id, true, PageLimit,
        "Failed to load lessons", "Failed to delete lesson", "Failed to delete lessons");
      search, categoryFilter := "", "";
    }

    /** Typing in the search box; the page is reset only when the debounce fires. */
    method SetSearch(text: string)
      modifies this`search
      ensures search == text
    {
      search := text;
    }

    /** Typing in the category box. */
    method SetCategoryFilter(text: string)
      modifies this`categoryFilter
      ensures categoryFilter == text
    {
      categoryFilter := text;
    }

    /** The 500 ms timer after the last search keystroke fires. */
    method SearchDebounceFired()
      modifies list`page
      ensures list.page == 1
    {
      list.ResetPage();
    }

    /** The 500 ms timer after the last category keystroke fires. */
    method CategoryDebounceFired()
      modifies list`page
      ensures list.page == 1
    {
      list.ResetPage();
    }

    /** The request `loadLessons` sends for the current state: always 20 rows, blank
        filters left out. */
    function Query(): (q: LessonQuery)
      reads this, list
      ensures q.page == list.page && q.limit == 20
      ensures q.search == None <==> AllWhitespace(search)
      ensures q.category == None <==> AllWhitespace(categoryFilter)
      ensures q.search.Some? ==> q.search.value == Trim(search)
      ensures q.category.Some? ==> q.category.value == Trim(categoryFilter)
    {
      BlankFilterIsOmitted(search);
      BlankFilterIsOmitted(categoryFilter);
      LessonQuery(list.page, PageLimit, TrimmedOrAbsent(search), TrimmedOrAbsent(categoryFilter))
    }
  }
}
