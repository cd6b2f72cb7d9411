/** The table every list page renders: a click on a sortable header chooses the sort
    column and direction, and the rows are shown sorted on a copy of the data.  Cells are
    modelled as absent (`null`/`undefined`) or numbers; dates and text are not. */
module DataTable {
  import opened Common
  import opened Sorting

  /** A cell of the sort column: `null`/`undefined`, or a JavaScript number. */
  datatype Cell = Null | Num(value: real)

  /** A row, by column key; a key that is missing reads as `undefined`. */
  type Row = map<string, Cell>

  datatype Direction = Asc | Desc

  datatype Column = Column(key: string, sortable: bool)

  function Flip(d: Direction): (r: Direction)
    ensures r != d
  {
    if d == Asc then Desc else Asc
  }

  function CellAt(row: Row, key: string): Cell
  {
    if key in row then row[key] else Null
  }

  /** The comparator of `sortedData`.  No column (or the falsy key '') compares every pair
      equal; absent values go last whichever the direction; numbers compare by
      difference, negated for a descending sort. */
  function Compare(a: Row, b: Row, sortColumn: Option<string>, dir: Direction): real
  {
    if sortColumn.None? || sortColumn.value == "" then 0.0
    else
      var x := CellAt(a, sortColumn.value);
      var y := CellAt(b, sortColumn.value);
      if x.Null? && y.Null? then 0.0
      else if x.Null? then 1.0
      else if y.Null? then -1.0
      else if dir == Asc then x.value - y.value
      else -(x.value - y.value)
  }

  function Comparator(sortColumn: Option<string>, dir: Direction): (Row, Row) -> real
  {
    (a: Row, b: Row) => Compare(a, b, sortColumn, dir)
  }

  /** The comparator obeys the laws the engine's sort relies on. */
  lemma CompareIsComparator(sortColumn: Option<string>, dir: Direction)
    ensures IsComparator(Comparator(sortColumn, dir))
  {
    var cmp := Comparator(sortColumn, dir);
    forall a, b ensures cmp(a, b) == -cmp(b, a) {
    }
    forall a, b, c | cmp(a, b) <= 0.0 && cmp(b, c) <= 0.0 ensures cmp(a, c) <= 0.0 {
    }
  }

  /** `[...data].sort(...)`: a sorted permutation of the rows. */
  function SortedData(data: seq<Row>, sortColumn: Option<string>, dir: Direction): (r: seq<Row>)
    ensures |r| == |data| && multiset(r) == multiset(data)
    ensures Sorted(r, Comparator(sortColumn, dir))
  {
    CompareIsComparator(sortColumn, dir);
    SortBySorted(data, Comparator(sortColumn, dir));
    SortBy(data, Comparator(sortColumn, dir))
  }

  /** Without a sort column the rows keep their order. */
  lemma NoSortColumnKeepsOrder(data: seq<Row>, sortColumn: Option<string>, dir: Direction)
    requires sortColumn.None? || sortColumn.value == ""
    ensures SortedData(data, sortColumn, dir) == data
  {
    SortByAllEqual(data, Comparator(sortColumn, dir));
  }

  /** Absent values come after every present one, in both directions. */
  lemma NullsLast(data: seq<Row>, key: string, dir: Direction)
    requires key != ""
    ensures var r := SortedData(data, Some(key), dir);
            forall i, j :: 0 <= i < j < |r| && CellAt(r[j], key).Num? ==> CellAt(r[i], key).Num?
  {
    var r := SortedData(data, Some(key), dir);
    forall i, j | 0 <= i < j < |r| && CellAt(r[j], key).Num? ensures CellAt(r[i], key).Num? {
      assert Compare(r[i], r[j], Some(key), dir) <= 0.0;
    }
  }

  /** Numbers come out ascending under 'asc' and descending under 'desc'. */
  lemma NumbersInDirection(data: seq<Row>, key: string, dir: Direction)
    requires key != ""
    ensures var r := SortedData(data, Some(key), dir);
            forall i, j :: 0 <= i < j < |r| && CellAt(r[i], key).Num? && CellAt(r[j], key).Num? ==>
              if dir == Asc then CellAt(r[i], key).value <= CellAt(r[j], key).value
              else CellAt(r[i], key).value >= CellAt(r[j], key).value
  {
    var r := SortedData(data, Some(key), dir);
    forall i, j | 0 <= i < j < |r| && CellAt(r[i], key).Num? && CellAt(r[j], key).Num?
      ensures if dir == Asc then CellAt(r[i], key).value <= CellAt(r[j], key).value
              else CellAt(r[i], key).value >= CellAt(r[j], key).value
    {
      assert Compare(r[i], r[j], Some(key), dir) <= 0.0;
    }
  }

  /** The header-click state of one table. */
  class SortState {
    var sortColumn: Option<string>
    var sortDirection: Direction

    constructor ()
      ensures sortColumn == None && sortDirection == Asc
    {
      sortColumn, sortDirection := None, Asc;
    }

    /** `handleSort`: nothing for a column that is not sortable; the same column again
        flips the direction; another column is chosen ascending. */
    method HandleSort(column: Column)
      modifies this
      ensures !column.sortable ==>
                sortColumn == old(sortColumn) && sortDirection == old(sortDirection)
      ensures column.sortable && old(sortColumn) == Some(column.key) ==>
                sortColumn == old(sortColumn) && sortDirection == Flip(old(sortDirection))
      ensures column.sortable && old(sortColumn) != Some(column.key) ==>
                sortColumn == Some(column.key) && sortDirection == Asc
    {
      if !column.sortable {
        return;
      }
      if sortColumn == Some(column.key) {
        sortDirection := if sortDirection == Asc then Desc else Asc;
      } else {
        sortColumn := Some(column.key);
        sortDirection := Asc;
      }
    }

    /** The rows as the table shows them for the current sort state. */
    function Displayed(data: seq<Row>): (r: seq<Row>)
      reads this
      ensures |r| == |data| && multiset(r) == multiset(data)
      ensures Sorted(r, Comparator(sortColumn, sortDirection))
    {
      SortedData(data, sortColumn, sortDirection)
    }
  }
}
