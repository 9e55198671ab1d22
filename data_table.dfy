/** The client-side pipeline of the generic table in components/common/data-table.tsx:
    a case-insensitive substring filter over a row's string fields, an optional
    sort by one column, pages of ten rows, and the sort-direction toggle. */
module DataTable {
  import opened Js

  /** A field value of a row, as far as filtering and comparing can tell them apart. */
  datatype Value = Text(s: string) | Numeric(n: real) | Undefined | Other

  /** A row object: its field names and values. */
  type Row = map<string, Value>

  datatype Order = Asc | Desc

  /** `item[column]`: a name that is not a field of the row reads as `undefined`. */
  function Get(row: Row, column: string): Value {
    if column in row then row[column] else Undefined
  }

  // ------------------------------------------------------------ filter

  /** A value matches when it is a string containing the term, both lower-cased. */
  predicate ValueMatches(v: Value, search: string) {
    v.Text? && Contains(Lower(v.s), Lower(search))
  }

  /** The filter predicate: some value of the row matches. */
  predicate Matches(row: Row, search: string) {
    exists k :: k in row && ValueMatches(row[k], search)
  }

  predicate HasText(row: Row) {
    exists k :: k in row && row[k].Text?
  }

  /** `data.filter(...)`: the rows that match, in their original order. */
  function Filter(data: seq<Row>, search: string): (r: seq<Row>)
    ensures forall x :: x in r <==> x in data && Matches(x, search)
    ensures |r| <= |data|
  {
    if data == [] then []
    else (if Matches(data[0], search) then [data[0]] else []) + Filter(data[1..], search)
  }

  /** Filtering works piecewise, so it keeps the relative order of the rows it keeps. */
  lemma {:induction false} FilterConcat(a: seq<Row>, b: seq<Row>, search: string)
    ensures Filter(a + b, search) == Filter(a, search) + Filter(b, search)
    decreases |a|
  {
    if a == [] {
      assert a + b == b;
    } else {
      assert (a + b)[1..] == a[1..] + b;
      FilterConcat(a[1..], b, search);
    }
  }

  /** With an empty search every row with a string field is kept, and only those. */
  lemma EmptySearchKeepsTextRows(data: seq<Row>)
    ensures forall x :: x in Filter(data, "") <==> x in data && HasText(x)
  {
    forall x: Row | x in data ensures Matches(x, "") <==> HasText(x) {
      if HasText(x) {
        var k: string :| k in x && x[k].Text?;
        ContainsEmpty(Lower(x[k].s));
        assert ValueMatches(x[k], "");
      }
    }
  }

  // ------------------------------------------------------------ sort

  /** JavaScript's `<` on two field values: strings by their characters, numbers by
      value; `undefined` and other mixtures compare as neither smaller nor larger. */
  predicate Less(a: Value, b: Value) {
    (a.Text? && b.Text? && StrLess(a.s, b.s)) || (a.Numeric? && b.Numeric? && a.n < b.n)
  }

  /** The comparator passed to `sort`. */
  function Compare(a: Row, b: Row, column: string, order: Order): int {
    var av, bv := Get(a, column), Get(b, column);
    if Less(av, bv) then (if order == Asc then -1 else 1)
    else if Less(bv, av) then (if order == Asc then 1 else -1)
    else 0
  }

  predicate Before(a: Row, b: Row, column: string, order: Order) {
    Compare(a, b, column, order) < 0
  }

  /** Places `x` in front of the first row that does not sort before it. */
  function Insert(x: Row, t: seq<Row>, column: string, order: Order): (r: seq<Row>)
    ensures multiset(r) == multiset(t) + multiset{x}
  {
    if t == [] then [x]
    else
      assert t == [t[0]] + t[1..];
      if Before(t[0], x, column, order) then [t[0]] + Insert(x, t[1..], column, order)
      else [x] + t
  }

  /** The stable sort `Array.prototype.sort` performs with that comparator. */
  function SortBy(s: seq<Row>, column: string, order: Order): (r: seq<Row>)
    ensures multiset(r) == multiset(s)
  {
    if s == [] then []
    else
      assert s == [s[0]] + s[1..];
      Insert(s[0], SortBy(s[1..], column, order), column, order)
  }

  predicate Sorted(s: seq<Row>, column: string, order: Order) {
    forall i, j :: 0 <= i < j < |s| ==> !Before(s[j], s[i], column, order)
  }

  /** All values of the column are strings (`text`) or all are numbers (`!text`). */
  predicate OfKind(s: seq<Row>, column: string, text: bool) {
    forall r :: r in s ==> if text then Get(r, column).Text? else Get(r, column).Numeric?
  }

  /** On one kind of value the comparison is total: of two values one is smaller or they are equal. */
  lemma ValuesComparable(a: Value, b: Value)
    requires (a.Text? && b.Text?) || (a.Numeric? && b.Numeric?)
    ensures a == b || Less(a, b) || Less(b, a)
  {
    if a.Text? { StrLessTotal(a.s, b.s); }
  }

  lemma LessAsymmetric(a: Value, b: Value)
    requires Less(a, b)
    ensures !Less(b, a)
  {
    if a.Text? && b.Text? && StrLess(b.s, a.s) {
      StrLessTransitive(a.s, b.s, a.s);
      StrLessIrreflexive(a.s);
    }
  }

  lemma LessTransitive(a: Value, b: Value, c: Value)
    requires Less(a, b) && Less(b, c)
    ensures Less(a, c)
  {
    if a.Text? { StrLessTransitive(a.s, b.s, c.s); }
  }

  /** On one kind of value, "not smaller" is transitive. */
  lemma NotLessTransitive(a: Value, b: Value, c: Value)
    requires (a.Text? && b.Text? && c.Text?) || (a.Numeric? && b.Numeric? && c.Numeric?)
    requires !Less(a, b) && !Less(b, c)
    ensures !Less(a, c)
  {
    ValuesComparable(a, b);
    ValuesComparable(b, c);
    if Less(a, c) && a != b {
      LessTransitive(b, a, c);
    }
  }

  /** `Before` as a relation on the column values. */
  lemma BeforeIsLess(a: Row, b: Row, column: string, order: Order)
    ensures Before(a, b, column, order) <==>
      if order == Asc then Less(Get(a, column), Get(b, column)) else Less(Get(b, column), Get(a, column))
  {
    if Less(Get(a, column), Get(b, column)) { LessAsymmetric(Get(a, column), Get(b, column)); }
  }

  lemma BeforeAsymmetric(a: Row, b: Row, column: string, order: Order)
    requires Before(a, b, column, order)
    ensures !Before(b, a, column, order)
  {
    BeforeIsLess(a, b, column, order);
    BeforeIsLess(b, a, column, order);
    if order == Asc {
      LessAsymmetric(Get(a, column), Get(b, column));
    } else {
      LessAsymmetric(Get(b, column), Get(a, column));
    }
  }

  /** Between rows of one kind, "does not sort before" is transitive. */
  lemma NotBeforeTransitive(a: Row, b: Row, c: Row, column: string, order: Order, text: bool)
    requires OfKind([a, b, c], column, text)
    requires !Before(a, b, column, order) && !Before(b, c, column, order)
    ensures !Before(a, c, column, order)
  {
    assert a in [a, b, c] && b in [a, b, c] && c in [a, b, c];
    BeforeIsLess(a, b, column, order);
    BeforeIsLess(b, c, column, order);
    BeforeIsLess(a, c, column, order);
    var av, bv, cv := Get(a, column), Get(b, column), Get(c, column);
    if order == Asc {
      NotLessTransitive(av, bv, cv);
    } else {
      NotLessTransitive(cv, bv, av);
    }
  }

  lemma {:induction false} InsertSorted(x: Row, t: seq<Row>, column: string, order: Order, text: bool)
    requires Sorted(t, column, order) && OfKind([x] + t, column, text)
    ensures Sorted(Insert(x, t, column, order), column, order)
    decreases |t|
  {
    var r := Insert(x, t, column, order);
    if t != [] {
      if Before(t[0], x, column, order) {
        var rest := Insert(x, t[1..], column, order);
        assert OfKind([x] + t[1..], column, text) by {
          forall y | y in [x] + t[1..] ensures y in [x] + t { }
        }
        InsertSorted(x, t[1..], column, order, text);
        forall j | 0 < j < |r| ensures !Before(r[j], t[0], column, order) {
          var y := r[j];
          assert y in multiset(rest) by { assert y == rest[j - 1]; }
          if y == x {
            BeforeAsymmetric(t[0], x, column, order);
          } else {
            assert y in multiset(t[1..]);
            var k :| 0 <= k < |t[1..]| && t[1..][k] == y;
            assert t[k + 1] == y;
          }
        }
      } else {
        forall k | 0 <= k < |t| ensures !Before(t[k], x, column, order) {
          if k > 0 {
            assert OfKind([t[k], t[0], x], column, text) by {
              assert t[k] in [x] + t && t[0] in [x] + t;
            }
            NotBeforeTransitive(t[k], t[0], x, column, order, text);
          }
        }
        assert r == [x] + t;
      }
    }
  }

  /** With a column whose values are all strings or all numbers, the result is
      in ascending (or descending) order of that column. */
  lemma {:induction false} SortBySorted(s: seq<Row>, column: string, order: Order, text: bool)
    requires OfKind(s, column, text)
    ensures Sorted(SortBy(s, column, order), column, order)
    decreases |s|
  {
    if s != [] {
      var t := SortBy(s[1..], column, order);
      assert OfKind(s[1..], column, text) by {
        forall y | y in s[1..] ensures y in s { }
      }
      SortBySorted(s[1..], column, order, text);
      assert OfKind([s[0]] + t, column, text) by {
        forall y | y in [s[0]] + t ensures y in s {
          if y != s[0] {
            assert y in multiset(t);
            assert y in multiset(s[1..]);
          }
        }
      }
      InsertSorted(s[0], t, column, order, text);
    }
  }

  /** When no row sorts before another, sorting keeps the order. */
  lemma {:induction false} SortByTies(s: seq<Row>, column: string, order: Order)
    requires forall i, j :: 0 <= i < |s| && 0 <= j < |s| ==> !Before(s[i], s[j], column, order)
    ensures SortBy(s, column, order) == s
    decreases |s|
  {
    if s != [] {
      SortByTies(s[1..], column, order);
      assert s == [s[0]] + s[1..];
      if |s| > 1 {
        assert !Before(s[1], s[0], column, order);
      }
    }
  }

  /** Sorting by a name that is no field of any row (such as 'client.name') changes nothing. */
  lemma SortByMissingColumn(s: seq<Row>, column: string, order: Order)
    requires forall r :: r in s ==> column !in r
    ensures SortBy(s, column, order) == s
  {
    SortByTies(s, column, order);
  }

  // ------------------------------------------------------------ the effect

  /** The rows the effect stores: filtered, then sorted when a sort column is set. */
  function Pipeline(data: seq<Row>, search: string, sortColumn: Option<string>, order: Order): seq<Row> {
    var filtered := Filter(data, search);
    if Truthy(sortColumn) then SortBy(filtered, sortColumn.value, order) else filtered
  }

  /** What the pipeline keeps: exactly the matching rows, as many times as they occur,
      in filter order without a sort column and sorted by it with one. */
  lemma {:induction false} PipelineContents(data: seq<Row>, search: string, sortColumn: Option<string>, order: Order)
    ensures multiset(Pipeline(data, search, sortColumn, order)) == multiset(Filter(data, search))
    ensures forall x :: x in Pipeline(data, search, sortColumn, order) <==> x in data && Matches(x, search)
    ensures !Truthy(sortColumn) ==> Pipeline(data, search, sortColumn, order) == Filter(data, search)
    ensures Truthy(sortColumn) && OfKind(Filter(data, search), sortColumn.value, true) ==>
      Sorted(Pipeline(data, search, sortColumn, order), sortColumn.value, order)
    ensures Truthy(sortColumn) && OfKind(Filter(data, search), sortColumn.value, false) ==>
      Sorted(Pipeline(data, search, sortColumn, order), sortColumn.value, order)
  {
    var p := Pipeline(data, search, sortColumn, order);
    forall x: Row ensures x in p <==> x in Filter(data, search) {
      assert x in p <==> x in multiset(p);
    }
    if Truthy(sortColumn) && OfKind(Filter(data, search), sortColumn.value, true) {
      SortBySorted(Filter(data, search), sortColumn.value, order, true);
    }
    if Truthy(sortColumn) && OfKind(Filter(data, search), sortColumn.value, false) {
      SortBySorted(Filter(data, search), sortColumn.value, order, false);
    }
  }

  // ------------------------------------------------------------ pages

  const PageSize := 10

  /** `Math.ceil(n / pageSize)` */
  function TotalPages(n: nat): (r: nat)
    ensures r * PageSize >= n && (r == 0 || (r - 1) * PageSize < n)
  {
    (n + PageSize - 1) / PageSize
  }

  /** `filteredData.slice((page - 1) * pageSize, page * pageSize)` */
  function PageRows(rows: seq<Row>, page: int): seq<Row> {
    Slice(rows, (page - 1) * PageSize, page * PageSize)
  }

  /** Page p ≥ 1 holds rows (p-1)·10 … p·10-1 as far as they exist: at most ten rows,
      none when p is past the last page. */
  lemma PageRowsRange(rows: seq<Row>, page: int)
    requires page >= 1
    ensures var lo := (page - 1) * PageSize;
      var hi := if page * PageSize < |rows| then page * PageSize else |rows|;
      PageRows(rows, page) == (if lo < hi then rows[lo..hi] else [])
    ensures |PageRows(rows, page)| <= PageSize
    ensures PageRows(rows, page) != [] <==> page <= TotalPages(|rows|)
  {
  }

  /** Every row appears on page i/10 + 1, at position i % 10. */
  lemma RowOnItsPage(rows: seq<Row>, i: nat)
    requires i < |rows|
    ensures 1 <= i / PageSize + 1 <= TotalPages(|rows|)
    ensures var p := PageRows(rows, i / PageSize + 1);
      i % PageSize < |p| && p[i % PageSize] == rows[i]
  {
    PageRowsRange(rows, i / PageSize + 1);
  }

  /** The Previous control is disabled at page 1 or below. */
  predicate PreviousDisabled(page: int) {
    page <= 1
  }

  /** The Next control is disabled from the last page on. */
  predicate NextDisabled(page: int, totalPages: nat) {
    page >= totalPages
  }

  /** An enabled Next leads to a page with rows; an enabled Previous does so unless
      the current page is already more than one past the end. */
  lemma ControlsLeadToRows(rows: seq<Row>, page: int)
    ensures page >= 0 && !NextDisabled(page, TotalPages(|rows|)) ==> PageRows(rows, page + 1) != []
    ensures !PreviousDisabled(page) && page <= TotalPages(|rows|) + 1 ==> PageRows(rows, page - 1) != []
  {
    if page >= 0 && !NextDisabled(page, TotalPages(|rows|)) { PageRowsRange(rows, page + 1); }
    if !PreviousDisabled(page) && page <= TotalPages(|rows|) + 1 { PageRowsRange(rows, page - 1); }
  }

  // ------------------------------------------------------------ sort header

  /** Which column a header click names: the key itself when it is a field name,
      otherwise the column's `sortField`. */
  datatype Accessor = Key(name: string) | Computed

  function ClickedColumn(accessor: Accessor, sortField: Option<string>): Option<string> {
    match accessor
    case Key(name) => Some(name)
    case Computed => sortField
  }

  datatype SortState = SortState(column: Option<string>, order: Order)

  /** The `onSort(column, order)` notification. */
  datatype SortEvent = SortEvent(column: string, order: Order)

  /** `handleSort`: a click without a usable column changes nothing; the column being
      sorted ascending turns descending; anything else sorts ascending. */
  function SortClick(st: SortState, accessor: Accessor, sortField: Option<string>): (SortState, Option<SortEvent>) {
    var column := ClickedColumn(accessor, sortField);
    if !Truthy(column) then (st, None)
    else
      var newOrder := if st.column == column && st.order == Asc then Desc else Asc;
      (SortState(column, newOrder), Some(SortEvent(column.value, newOrder)))
  }

  /** Clicking one header repeatedly alternates ascending and descending, starting ascending. */
  lemma SortClickToggles(st: SortState, name: string)
    requires name != ""
    ensures var (s1, e1) := SortClick(st, Key(name), None);
      var (s2, e2) := SortClick(s1, Key(name), None);
      s1.column == Some(name) && s2.column == Some(name) && s1.order != s2.order &&
      (st.column != Some(name) ==> s1.order == Asc && s2.order == Desc) &&
      e1 == Some(SortEvent(name, s1.order)) && e2 == Some(SortEvent(name, s2.order))
  {
  }

  /** A computed column with no sort field, or an empty field name, is not sortable. */
  lemma UnsortableClickIsIgnored(st: SortState, accessor: Accessor, sortField: Option<string>)
    requires ClickedColumn(accessor, sortField) == None || ClickedColumn(accessor, sortField) == Some("")
    ensures SortClick(st, accessor, sortField) == (st, None)
  {
  }

  /** The table component's state. The rows it was given and the search term from the
      address bar are inputs; the effect recomputes `filteredData`. */
  class Table {
    var data: seq<Row>
    var search: string
    var filteredData: seq<Row>
    var sortColumn: Option<string>
    var sortOrder: Order

    constructor (data: seq<Row>, search: string)
      ensures this.data == data && this.search == search
      ensures filteredData == data && sortColumn == None && sortOrder == Asc
    {
      this.data := data;
      this.search := search;
      filteredData := data;
      sortColumn := None;
      sortOrder := Asc;
    }

    /** The effect: filter, sort when there is a sort column, store. The sort works on
        the filter's fresh copy, so `data` keeps its order. */
    method Refresh()
      modifies this
      ensures filteredData == Pipeline(data, search, sortColumn, sortOrder)
      ensures data == old(data) && search == old(search)
      ensures sortColumn == old(sortColumn) && sortOrder == old(sortOrder)
    {
      var filtered := Filter(data, search);
      if Truthy(sortColumn) {
        filtered := SortBy(filtered, sortColumn.value, sortOrder);
      }
      filteredData := filtered;
    }

    /** `handleSort`; returns the notification passed to `onSort`, if any. */
    method HandleSort(accessor: Accessor, sortField: Option<string>) returns (event: Option<SortEvent>)
      modifies this
      ensures (SortState(sortColumn, sortOrder), event) ==
        SortClick(old(SortState(sortColumn, sortOrder)), accessor, sortField)
      ensures data == old(data) && search == old(search) && filteredData == old(filteredData)
    {
      var column := ClickedColumn(accessor, sortField);
      if !Truthy(column) {
        return None;
      }
      var newOrder := if sortColumn == column && sortOrder == Asc then Desc else Asc;
      sortColumn := column;
      sortOrder := newOrder;
      event := Some(SortEvent(column.value, newOrder));
    }

    /** The rows shown for `page`. */
    function Visible(page: int): seq<Row>
      reads this
    {
      PageRows(filteredData, page)
    }
  }
}
