/**
 * The generic table: a search box that keeps the rows in which some column's
 * text contains the search term, and a sort header that cycles a column
 * through ascending, descending and unsorted.
 */
module DataTable {
  import opened Wrappers
  import opened Text
  import opened Seqs

  /** A cell value, as far as `String(v)` and `<` tell values apart. */
  datatype Value = Undefined | Null | Str(s: string) | Num(n: int) | Object

  /** A row is read by flat key: `row["metadata.status"]` is not a path. */
  type Row = map<string, Value>

  datatype Column = Column(key: string, heading: string, sortable: bool)

  datatype Direction = Asc | Desc

  datatype SortConfig = SortConfig(key: string, direction: Direction)

  /** `row[key]`, which is `undefined` when the row has no such key. */
  function Cell(row: Row, key: string): Value {
    if key in row then row[key] else Undefined
  }

  /** `String(v)`. */
  function Stringify(v: Value): string {
    match v
    case Undefined => "undefined"
    case Null => "null"
    case Str(s) => s
    case Num(n) => IntToString(n)
    case Object => "[object Object]"
  }

  // ---------------------------------------------------------------- search

  predicate CellMatches(row: Row, column: Column, term: string) {
    Includes(Lower(Stringify(Cell(row, column.key))), Lower(term))
  }

  /** `columns.some(column => String(row[column.key]).toLowerCase().includes(term.toLowerCase()))`. */
  predicate RowMatches(row: Row, columns: seq<Column>, term: string) {
    exists c :: c in columns && CellMatches(row, c, term)
  }

  function Matcher(columns: seq<Column>, term: string): Row -> bool {
    row => RowMatches(row, columns, term)
  }

  /** `filteredData`. */
  function FilterRows(data: seq<Row>, columns: seq<Column>, term: string): seq<Row> {
    Filter(data, Matcher(columns, term))
  }

  /**
   * The search keeps rows in their original order and keeps a row exactly
   * when some column's lower-cased text contains the lower-cased term; every
   * copy of a matching row is kept.
   */
  lemma FilterRowsSpec(data: seq<Row>, columns: seq<Column>, term: string)
    ensures IsSubsequence(FilterRows(data, columns, term), data)
    ensures forall row :: row in FilterRows(data, columns, term) <==> row in data && RowMatches(row, columns, term)
    ensures forall row :: multiset(FilterRows(data, columns, term))[row]
                          == if RowMatches(row, columns, term) then multiset(data)[row] else 0
  {
    FilterIsSubsequence(data, Matcher(columns, term));
    forall row
      ensures row in FilterRows(data, columns, term) <==> row in data && RowMatches(row, columns, term)
      ensures multiset(FilterRows(data, columns, term))[row]
              == if RowMatches(row, columns, term) then multiset(data)[row] else 0
    {
      FilterMembership(data, Matcher(columns, term), row);
      FilterCount(data, Matcher(columns, term), row);
    }
  }

  /** An empty search keeps every row, as long as the table has a column. */
  lemma EmptySearchKeepsAll(data: seq<Row>, columns: seq<Column>)
    requires columns != []
    ensures FilterRows(data, columns, "") == data
  {
    forall row | row in data ensures RowMatches(row, columns, "") {
      IncludesEmpty(Lower(Stringify(Cell(row, columns[0].key))));
      assert CellMatches(row, columns[0], "");
    }
    FilterKeepsAll(data, Matcher(columns, ""));
  }

  /** `some` over no columns is false, so a table without columns shows no row. */
  lemma NoColumnsKeepsNothing(data: seq<Row>, term: string)
    ensures FilterRows(data, [], term) == []
  {
    FilterKeepsNone(data, Matcher([], term));
  }

  /**
   * A column whose key a row lacks reads as the text "undefined", so any
   * search term contained in "undefined" (such as "def" or "n") keeps that row.
   */
  lemma MissingKeyMatchesUndefined(row: Row, columns: seq<Column>, term: string, c: Column)
    requires c in columns && c.key !in row
    requires Includes("undefined", Lower(term))
    ensures RowMatches(row, columns, term)
  {
    assert Lower("undefined") == "undefined";
    assert CellMatches(row, c, term);
  }

  // ---------------------------------------------------------------- sort

  /** `a < b` on two strings: lexicographic order of the characters. */
  predicate StrLess(a: string, b: string) {
    if a == [] then b != []
    else b != [] && (a[0] < b[0] || (a[0] == b[0] && StrLess(a[1..], b[1..])))
  }

  /**
   * `u < v`: numeric on numbers, lexicographic on strings. Every other pair
   * (mixed kinds, `undefined`, `null`, objects) is treated as unordered.
   */
  predicate Less(u: Value, v: Value) {
    match (u, v)
    case (Str(a), Str(b)) => StrLess(a, b)
    case (Num(a), Num(b)) => a < b
    case _ => false
  }

  /** The comparator passed to `sort`. */
  function Compare(a: Row, b: Row, cfg: Option<SortConfig>): int {
    match cfg
    case None => 0
    case Some(SortConfig(key, direction)) =>
      var av, bv := Cell(a, key), Cell(b, key);
      if Less(av, bv) then (if direction == Asc then -1 else 1)
      else if Less(bv, av) then (if direction == Asc then 1 else -1)
      else 0
  }

  function Comparator(cfg: Option<SortConfig>): (Row, Row) -> int {
    (a, b) => Compare(a, b, cfg)
  }

  /** `sortedData`: a sorted copy of the filtered rows. */
  function SortRows(rows: seq<Row>, cfg: Option<SortConfig>): seq<Row> {
    SortBy(rows, Comparator(cfg))
  }

  lemma {:induction false} StrLessIrreflexive(a: string)
    ensures !StrLess(a, a)
  {
    if a != [] {
      StrLessIrreflexive(a[1..]);
    }
  }

  lemma {:induction false} StrLessTransitive(a: string, b: string, c: string)
    requires StrLess(a, b) && StrLess(b, c)
    ensures StrLess(a, c)
  {
    if a != [] && a[0] == b[0] && b[0] == c[0] {
      StrLessTransitive(a[1..], b[1..], c[1..]);
    }
  }

  lemma {:induction false} StrLessTotal(a: string, b: string)
    ensures StrLess(a, b) || StrLess(b, a) || a == b
  {
    if a != [] && b != [] && a[0] == b[0] {
      StrLessTotal(a[1..], b[1..]);
      if a[1..] == b[1..] {
        assert a == [a[0]] + a[1..] && b == [b[0]] + b[1..];
      }
    }
  }

  /** The key column holds only strings, or only numbers, in every row. */
  ghost predicate Homogeneous(rows: seq<Row>, key: string) {
    (forall r :: r in rows ==> Cell(r, key).Str?) || (forall r :: r in rows ==> Cell(r, key).Num?)
  }

  lemma LessTransitive(u: Value, v: Value, w: Value)
    requires Less(u, v) && Less(v, w)
    ensures Less(u, w)
  {
    if u.Str? && v.Str? && w.Str? {
      StrLessTransitive(u.s, v.s, w.s);
    }
  }

  lemma LessAsymmetric(u: Value, v: Value)
    ensures !(Less(u, v) && Less(v, u))
  {
    if u.Str? && v.Str? && Less(u, v) && Less(v, u) {
      StrLessTransitive(u.s, v.s, u.s);
      StrLessIrreflexive(u.s);
    }
  }

  lemma LessTotal(u: Value, v: Value)
    requires (u.Str? && v.Str?) || (u.Num? && v.Num?)
    ensures Less(u, v) || Less(v, u) || u == v
  {
    if u.Str? {
      StrLessTotal(u.s, v.s);
    }
  }

  /** The comparator ranks `a` no later than `b` exactly when `b`'s key does not come first. */
  lemma CompareAtMostZero(a: Row, b: Row, key: string, direction: Direction)
    ensures Compare(a, b, Some(SortConfig(key, direction))) <= 0
        <==> if direction == Asc then !Less(Cell(b, key), Cell(a, key)) else !Less(Cell(a, key), Cell(b, key))
  {
    LessAsymmetric(Cell(a, key), Cell(b, key));
  }

  /** On a homogeneous key column the comparator is a total preorder. */
  lemma ComparatorIsPreorder(rows: seq<Row>, cfg: Option<SortConfig>)
    requires cfg.Some? && Homogeneous(rows, cfg.value.key)
    ensures TotalPreorderOn(rows, Comparator(cfg))
  {
    var key, direction := cfg.value.key, cfg.value.direction;
    var cmp := Comparator(cfg);
    forall a, b | a in rows && b in rows ensures cmp(a, b) <= 0 || cmp(b, a) <= 0 {
      CompareAtMostZero(a, b, key, direction);
      CompareAtMostZero(b, a, key, direction);
      LessAsymmetric(Cell(a, key), Cell(b, key));
    }
    forall a, b, c | a in rows && b in rows && c in rows && cmp(a, b) <= 0 && cmp(b, c) <= 0
      ensures cmp(a, c) <= 0
    {
      var u, v, w := Cell(a, key), Cell(b, key), Cell(c, key);
      CompareAtMostZero(a, b, key, direction);
      CompareAtMostZero(b, c, key, direction);
      CompareAtMostZero(a, c, key, direction);
      LessTotal(u, v);
      LessTotal(v, w);
      if direction == Asc && Less(w, u) {
        if Less(u, v) { LessTransitive(w, u, v); }
      }
      if direction == Desc && Less(u, w) {
        if Less(v, u) { LessTransitive(v, u, w); }
      }
    }
  }

  /** Sorting the copy rearranges the filtered rows and drops none. */
  lemma SortRowsPermutes(rows: seq<Row>, cfg: Option<SortConfig>)
    ensures multiset(SortRows(rows, cfg)) == multiset(rows)
    ensures |SortRows(rows, cfg)| == |rows|
  {
    SortPermutes(rows, Comparator(cfg));
  }

  /** With no sort column the comparator returns 0 and the order is unchanged. */
  lemma UnsortedKeepsOrder(rows: seq<Row>)
    ensures SortRows(rows, None) == rows
  {
    SortKeepsOrder(rows, Comparator(None));
  }

  /** An ascending sort leaves no row whose key is below an earlier row's key. */
  lemma AscendingSortIsNonDecreasing(rows: seq<Row>, key: string)
    requires Homogeneous(rows, key)
    ensures var r := SortRows(rows, Some(SortConfig(key, Asc)));
      forall i, j :: 0 <= i < j < |r| ==> !Less(Cell(r[j], key), Cell(r[i], key))
  {
    var cfg := Some(SortConfig(key, Asc));
    ComparatorIsPreorder(rows, cfg);
    SortOrdered(rows, Comparator(cfg));
    var r := SortRows(rows, cfg);
    forall i, j | 0 <= i < j < |r| ensures !Less(Cell(r[j], key), Cell(r[i], key)) {
      assert Comparator(cfg)(r[i], r[j]) <= 0;
      CompareAtMostZero(r[i], r[j], key, Asc);
    }
  }

  /** A descending sort leaves no row whose key is above an earlier row's key. */
  lemma DescendingSortIsNonIncreasing(rows: seq<Row>, key: string)
    requires Homogeneous(rows, key)
    ensures var r := SortRows(rows, Some(SortConfig(key, Desc)));
      forall i, j :: 0 <= i < j < |r| ==> !Less(Cell(r[i], key), Cell(r[j], key))
  {
    var cfg := Some(SortConfig(key, Desc));
    ComparatorIsPreorder(rows, cfg);
    SortOrdered(rows, Comparator(cfg));
    var r := SortRows(rows, cfg);
    forall i, j | 0 <= i < j < |r| ensures !Less(Cell(r[i], key), Cell(r[j], key)) {
      assert Comparator(cfg)(r[i], r[j]) <= 0;
      CompareAtMostZero(r[i], r[j], key, Desc);
    }
  }

  // ---------------------------------------------------------------- sort header

  /** The next `sortConfig` after a click on the header of column `key`. */
  function NextSort(current: Option<SortConfig>, key: string): Option<SortConfig> {
    if current.None? || current.value.key != key then Some(SortConfig(key, Asc))
    else if current.value.direction == Asc then Some(SortConfig(key, Desc))
    else None
  }

  /**
   * Three clicks on one header bring the states of that column (unsorted,
   * ascending, descending) back to where they were, and any other state
   * (another column sorted) to unsorted.
   */
  lemma ThreeClicksCycle(current: Option<SortConfig>, key: string)
    ensures NextSort(NextSort(NextSort(current, key), key), key)
         == if current.Some? && current.value.key == key then current else None
  {
  }

  /** The table's state: the search term and the sort column. */
  class DataTableView {
    const columns: seq<Column>
    const data: seq<Row>
    var searchTerm: string
    var sortConfig: Option<SortConfig>

    constructor (columns: seq<Column>, data: seq<Row>)
      ensures this.columns == columns && this.data == data
      ensures searchTerm == "" && sortConfig == None
    {
      this.columns := columns;
      this.data := data;
      searchTerm := "";
      sortConfig := None;
    }

    /** The rows that survive the search. */
    function FilteredData(): seq<Row>
      reads this
    {
      FilterRows(data, columns, searchTerm)
    }

    /** The rows as displayed: the survivors, sorted. */
    function SortedData(): seq<Row>
      reads this
    {
      SortRows(FilteredData(), sortConfig)
    }

    /** Typing in the search box. */
    method SetSearchTerm(term: string)
      modifies this`searchTerm
      ensures searchTerm == term
    {
      searchTerm := term;
    }

    /** `handleSort`. */
    method HandleSort(key: string)
      modifies this`sortConfig
      ensures old(sortConfig).None? || old(sortConfig).value.key != key
              ==> sortConfig == Some(SortConfig(key, Asc))
      ensures old(sortConfig) == Some(SortConfig(key, Asc)) ==> sortConfig == Some(SortConfig(key, Desc))
      ensures old(sortConfig) == Some(SortConfig(key, Desc)) ==> sortConfig == None
      ensures sortConfig == NextSort(old(sortConfig), key)
    {
      sortConfig := NextSort(sortConfig, key);
    }

    /** A click on a header: only sortable columns react. */
    method ClickHeader(column: Column)
      requires column in columns
      modifies this`sortConfig
      ensures sortConfig == if column.sortable then NextSort(old(sortConfig), column.key) else old(sortConfig)
    {
      if column.sortable {
        HandleSort(column.key);
      }
    }
  }

  /** "Showing n of m records": the shown count never exceeds the total. */
  lemma DisplayedAtMostTotal(t: DataTableView)
    ensures |t.SortedData()| <= |t.data|
  {
    SortRowsPermutes(t.FilteredData(), t.sortConfig);
  }

  /** An empty search shows every record when the table has columns and no sort. */
  lemma FreshTableShowsAll(t: DataTableView)
    requires t.columns != [] && t.searchTerm == "" && t.sortConfig == None
    ensures t.SortedData() == t.data
  {
    EmptySearchKeepsAll(t.data, t.columns);
    UnsortedKeepsOrder(t.data);
  }
}
