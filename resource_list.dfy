/** The list controller that the Users, Lessons, Quizzes and Quiz Answers pages each
    write out in full: a selection of row ids with toggle and select-all, a batch delete,
    a single delete behind a confirmation, the create/edit form dispatch, and page
    navigation.  One class models all four; a page instantiates it with its row type. */
module ResourceList {
  import opened Common

  /** The ids of the displayed rows, in display order (`rows.map(r => r.id)`). */
  function IdsOf<T>(rows: seq<T>, idOf: T -> int): (ids: seq<int>)
    ensures |ids| == |rows|
    ensures forall i :: 0 <= i < |rows| ==> ids[i] == idOf(rows[i])
  {
    seq(|rows|, i requires 0 <= i < |rows| => idOf(rows[i]))
  }

  /** `new Set(ids)`. */
  function IdSet(ids: seq<int>): set<int>
  {
    set x | x in ids
  }

  predicate Distinct(ids: seq<int>)
  {
    forall i, j :: 0 <= i < j < |ids| ==> ids[i] != ids[j]
  }

  /** The selection after a checkbox click on row `id`: that id's membership flips and
      no other id's changes. */
  function Toggled(selected: set<int>, id: int): (r: set<int>)
    ensures id in r <==> id !in selected
    ensures forall x :: x != id ==> (x in r <==> x in selected)
  {
    if id in selected then selected - {id} else selected + {id}
  }

  /** Two clicks on the same row give back the selection there was. */
  lemma ToggleTwice(selected: set<int>, id: int)
    ensures Toggled(Toggled(selected, id), id) == selected
  {
  }

  /** The selection after a click on "Select All": it is cleared when its size equals
      the number of displayed rows, and otherwise becomes exactly the displayed ids. */
  function SelectAllResult(selected: set<int>, ids: seq<int>): (r: set<int>)
    ensures r == {} || r == IdSet(ids)
    ensures r == {} <==> (|selected| == |ids| || ids == [])
    ensures |selected| != |ids| ==> r == IdSet(ids)
  {
    if |selected| == |ids| then {}
    else
      assert ids != [] ==> ids[0] in IdSet(ids);
      IdSet(ids)
  }

  lemma {:induction false} DistinctIdSetSize(ids: seq<int>)
    requires Distinct(ids)
    ensures |IdSet(ids)| == |ids|
  {
    if ids != [] {
      var init := ids[..|ids| - 1];
      var last := ids[|ids| - 1];
      assert Distinct(init);
      DistinctIdSetSize(init);
      assert IdSet(ids) == IdSet(init) + {last};
      assert last !in IdSet(init);
    }
  }

  /** On a page of distinct ids, "Select All" alternates between the full page and the
      empty selection: from nothing selected it selects the page, and from the full page
      it clears. */
  lemma SelectAllAlternates(ids: seq<int>)
    requires Distinct(ids) && ids != []
    ensures SelectAllResult({}, ids) == IdSet(ids)
    ensures SelectAllResult(IdSet(ids), ids) == {}
  {
    DistinctIdSetSize(ids);
  }

  /** Example: the test is on sizes only: a selection left over from another page that happens to
      have as many ids as this page has rows is cleared, although none of this page's rows
      is selected. */
  lemma SelectAllComparesSizesOnly()
    ensures SelectAllResult({1, 2}, [3, 4]) == {}
  {
  }

  /** "Previous": `Math.max(1, page - 1)`. */
  function PreviousPage(page: int): (r: int)
    ensures r >= 1
    ensures page > 1 ==> r == page - 1
    ensures page <= 1 ==> r == 1
  {
    Max(1, page - 1)
  }

  /** "Next": `Math.min(totalPages, page + 1)`. */
  function NextPage(page: int, totalPages: int): (r: int)
    ensures r <= totalPages
    ensures page < totalPages ==> r == page + 1
    ensures page >= totalPages ==> r == totalPages
  {
    Min(totalPages, page + 1)
  }

  /** With at least one page, navigation keeps a page in [1, totalPages] there. */
  lemma NavigationStaysInRange(page: int, totalPages: int)
    requires 1 <= totalPages && 1 <= page <= totalPages
    ensures 1 <= PreviousPage(page) <= totalPages
    ensures 1 <= NextPage(page, totalPages) <= totalPages
  {
  }

  /** What a request that creates or updates a row sends. */
  datatype Mutation = Create | Update(id: int)

  /** A list response: the rows (absent means none) and the page count. */
  datatype ListResponse<T> = ListResponse(rows: Option<seq<T>>, totalPages: int)

  /** One resource page's list state.  `idOf` reads a row's id; `canCreate` is false on
      the Users page, whose form cannot create.  Only the Quizzes and quiz-answers
      pages have a page-size control: the Lessons and Users pages always send a limit of
      20 and never call `SetPageSize`, so their `pageSize` stays 20. */
  class Controller<T> {
    const idOf: T -> int
    const canCreate: bool
    const loadFallback: string
    const deleteOneFallback: string
    const deleteManyFallback: string

    var rows: seq<T>
    var totalPages: int
    var page: int
    var pageSize: int
    var selected: set<int>
    var error: string
    var showForm: bool
    var editing: Option<T>
    var pendingDelete: Option<T>

    /** The initial state of every list page: page 1 of 1, nothing loaded or selected. */
    constructor (idOf: T -> int, canCreate: bool, pageSize: int,
                 loadFallback: string, deleteOneFallback: string, deleteManyFallback: string)
      ensures this.idOf == idOf && this.canCreate == canCreate
      ensures this.loadFallback == loadFallback
      ensures this.deleteOneFallback == deleteOneFallback
      ensures this.deleteManyFallback == deleteManyFallback
      ensures rows == [] && totalPages == 1 && page == 1 && this.pageSize == pageSize
      ensures selected == {} && error == "" && !showForm
      ensures editing == None && pendingDelete == None
    {
      this.idOf := idOf;
      this.canCreate := canCreate;
      this.loadFallback := loadFallback;
      this.deleteOneFallback := deleteOneFallback;
      this.deleteManyFallback := deleteManyFallback;
      rows, totalPages, page, this.pageSize := [], 1, 1, pageSize;
      selected, error, showForm := {}, "", false;
      editing, pendingDelete := None, None;
    }

    /** The ids of the rows on display. */
    function DisplayedIds(): (ids: seq<int>)
      reads this
      ensures |ids| == |rows|
    {
      IdsOf(rows, idOf)
    }

    /** The row-load effect once its request has settled: the error is cleared first,
        then the rows and page count are installed, or the error is set. */
    method Load(response: Option<ListResponse<T>>, failure: string)
      modifies this`rows, this`totalPages, this`error
      ensures response.Some? ==> error == "" && totalPages == response.value.totalPages
      ensures response.Some? && response.value.rows.Some? ==> rows == response.value.rows.value
      ensures response.Some? && response.value.rows.None? ==> rows == []
      ensures response.None? ==> rows == old(rows) && totalPages == old(totalPages)
      ensures response.None? ==> error == MessageOr(failure, loadFallback)
    {
      error := "";
      if response.Some? {
        rows := if response.value.rows.Some? then response.value.rows.value else [];
        totalPages := response.value.totalPages;
      } else {
        error := MessageOr(failure, loadFallback);
      }
    }

    /** A row checkbox: copy the selection, add or delete the id, install the copy. */
    method ToggleSelection(id: int)
      modifies this`selected
      ensures selected == Toggled(old(selected), id)
    {
      var newSelected := selected;
      if id in newSelected {
        newSelected := newSelected - {id};
      } else {
        newSelected := newSelected + {id};
      }
      selected := newSelected;
    }

    /** The "Select All" checkbox. */
    method SelectAll()
      modifies this`selected
      ensures selected == SelectAllResult(old(selected), DisplayedIds())
    {
      if |selected| == |rows| {
        selected := {};
      } else {
        selected := IdSet(IdsOf(rows, idOf));
      }
    }

    /** Batch delete: nothing happens with an empty selection; otherwise the selected ids
        are sent, and a success clears the selection and reloads while a failure keeps
        it and shows the error. */
    method BatchDelete(outcome: Outcome) returns (request: Option<set<int>>, reload: bool)
      modifies this`selected, this`error
      ensures old(selected) == {} ==> request == None && !reload
      ensures old(selected) == {} ==> selected == {} && error == old(error)
      ensures old(selected) != {} ==> request == Some(old(selected))
      ensures old(selected) != {} && outcome.Succeeded? ==> selected == {} && reload && error == old(error)
      ensures old(selected) != {} && outcome.Failed? ==>
                selected == old(selected) && !reload
                && error == MessageOr(outcome.message, deleteManyFallback)
    {
      if |selected| == 0 {
        return None, false;
      }
      request := Some(selected);
      if outcome.Succeeded? {
        selected := {};
        reload := true;
      } else {
        error := MessageOr(outcome.message, deleteManyFallback);
        reload := false;
      }
    }

    /** The delete button of a row opens the confirmation for it. */
    method RequestDelete(row: T)
      modifies this`pendingDelete
      ensures pendingDelete == Some(row)
    {
      pendingDelete := Some(row);
    }

    /** The confirmation's cancel button. */
    method CancelDelete()
      modifies this`pendingDelete
      ensures pendingDelete == None
    {
      pendingDelete := None;
    }

    /** The confirmation's confirm button: without a pending row nothing happens;
        otherwise that row's id is sent, and a success closes the confirmation and
        reloads while a failure keeps it open and shows the error. */
    method ConfirmDelete(outcome: Outcome) returns (request: Option<int>, reload: bool)
      modifies this`pendingDelete, this`error
      ensures old(pendingDelete) == None ==>
                request == None && !reload && pendingDelete == None && error == old(error)
      ensures old(pendingDelete).Some? ==> request == Some(idOf(old(pendingDelete).value))
      ensures old(pendingDelete).Some? && outcome.Succeeded? ==>
                pendingDelete == None && reload && error == old(error)
      ensures old(pendingDelete).Some? && outcome.Failed? ==>
                pendingDelete == old(pendingDelete) && !reload
                && error == MessageOr(outcome.message, deleteOneFallback)
    {
      if pendingDelete.None? {
        return None, false;
      }
      request := Some(idOf(pendingDelete.value));
      if outcome.Succeeded? {
        pendingDelete := None;
        reload := true;
      } else {
        error := MessageOr(outcome.message, deleteOneFallback);
        reload := false;
      }
    }

    /** The create button opens an empty form. */
    method OpenCreateForm()
      modifies this`editing, this`showForm
      ensures editing == None && showForm
    {
      editing := None;
      showForm := true;
    }

    /** A row's edit button opens the form on that row. */
    method OpenEditForm(row: T)
      modifies this`editing, this`showForm
      ensures editing == Some(row) && showForm
    {
      editing := Some(row);
      showForm := true;
    }

    /** The form's cancel button. */
    method CloseForm()
      modifies this`editing, this`showForm
      ensures editing == None && !showForm
    {
      showForm := false;
      editing := None;
    }

    /** The form's submit callback: an update of the row being edited, else a create
        where the page can create, else the not-implemented error.  A settled request
        that succeeded closes the form and reloads; any error is handed back to the form
        (`thrown`) and the form stays open. */
    method SubmitForm(outcome: Outcome) returns (request: Option<Mutation>, thrown: Option<string>, reload: bool)
      modifies this`editing, this`showForm
      ensures old(editing).Some? ==> request == Some(Update(idOf(old(editing).value)))
      ensures old(editing).None? && canCreate ==> request == Some(Create)
      ensures old(editing).None? && !canCreate ==>
                request == None && !reload
                && thrown == Some("User creation through admin panel not yet implemented")
      ensures request.Some? && outcome.Succeeded? ==>
                thrown == None && reload && !showForm && editing == None
      ensures request.Some? && outcome.Failed? ==> thrown == Some(outcome.message) && !reload
      ensures thrown.Some? ==> showForm == old(showForm) && editing == old(editing)
    {
      if editing.Some? {
        request := Some(Update(idOf(editing.value)));
      } else if canCreate {
        request := Some(Create);
      } else {
        return None, Some("User creation through admin panel not yet implemented"), false;
      }
      if outcome.Succeeded? {
        showForm := false;
        editing := None;
        thrown, reload := None, true;
      } else {
        thrown, reload := Some(outcome.message), false;
      }
    }

    /** The "Previous" button. */
    method Previous()
      modifies this`page
      ensures page == PreviousPage(old(page))
    {
      page := Max(1, page - 1);
    }

    /** The "Next" button. */
    method Next()
      modifies this`page
      ensures page == NextPage(old(page), totalPages)
    {
      page := Min(totalPages, page + 1);
    }

    /** A filter change that is applied at once, or a debounce timer firing. */
    method ResetPage()
      modifies this`page
      ensures page == 1
    {
      page := 1;
    }

    /** The "Rows per page" selector: the new size, back on page 1. */
    method SetPageSize(size: int)
      modifies this`pageSize, this`page
      ensures pageSize == size && page == 1
    {
      pageSize := size;
      page := 1;
    }
  }
}
