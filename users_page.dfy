/** The Users page: a list of users filtered by search text and role, twenty to a page,
    with edit, delete and batch delete.  Its form cannot create a user. */
module UsersPage {
  import opened Common
  import opened Text
  import opened Entities
  import opened ResourceList

  /** The page size `loadUsers` always sends. */
  const PageLimit := 20

  /** The query of `getUsers`. */
  datatype UserQuery = UserQuery(
    page: int,
    limit: int,
    search: Option<string>,
    role: Option<string>)

  class Page {
    const list: Controller<User>
    var search: string
    var roleFilter: string

    constructor ()
      ensures fresh(list) && !list.canCreate
      ensures list.idOf == ((u: User) => u.id)
      ensures list.page == 1 && list.totalPages == 1
      ensures list.rows == [] && list.selected == {} && !list.showForm && list.editing == None
      ensures search == "" && roleFilter == ""
    {
      list := new Controller((u: User) => u.id, false, PageLimit,
        "Failed to load users", "Failed to delete user", "Failed to delete users");
      search, roleFilter := "", "";
    }

    /** Typing in the search box; the page is reset only when the debounce fires. */
    method SetSearch(text: string)
      modifies this`search
      ensures search == text
    {
      search := text;
    }

    /** The 500 ms timer after the last search keystroke fires. */
    method SearchDebounceFired()
      modifies list`page
      ensures list.page == 1
    {
      list.ResetPage();
    }

    /** The role selector applies at once and goes back to page 1. */
    method SetRoleFilter(value: string)
      modifies this`roleFilter, list`page
      ensures roleFilter == value && list.page == 1
    {
      roleFilter := value;
      list.ResetPage();
    }

    /** The request `loadUsers` sends for the current state. */
    function Query(): (q: UserQuery)
      reads this, list
      ensures q.page == list.page && q.limit == 20
      ensures q.search == None <==> AllWhitespace(search)
      ensures q.search.Some? ==> q.search.value == Trim(search)
      ensures q.role == NonEmptyOrAbsent(roleFilter)
    {
      BlankFilterIsOmitted(search);
      UserQuery(list.page, PageLimit, TrimmedOrAbsent(search), NonEmptyOrAbsent(roleFilter))
    }
  }

  /** Submitting the form while no user is being edited never sends anything: it fails
      with the not-implemented error and the form stays open. */
  method SubmitWithoutEditing(p: Page, outcome: Outcome)
      returns (request: Option<Mutation>, thrown: Option<string>)
    requires p.list.editing == None && !p.list.canCreate
    modifies p.list`editing, p.list`showForm
    ensures request == None
    ensures thrown == Some("User creation through admin panel not yet implemented")
    ensures p.list.showForm == old(p.list.showForm) && p.list.editing == None
  {
    var reload;
    request, thrown, reload := p.list.SubmitForm(outcome);
  }
}
