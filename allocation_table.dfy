/** The cost-allocation table of the dashboard (frontend/src/components/AllocationTable.tsx):
    per-key totals and a grand total over the rows it is given, the key rows sorted
    by total cost, most expensive first, shown ten per page with previous/next
    buttons. */
module AllocationTable {
  import opened Records
  import opened Sorting
  import opened Costs

  /** One table line: the key and its five summed cost fields. */
  datatype TableRow = TableRow(ns: string, costs: Sums)

  const PageSize: nat := 10

  /** The `forEach` of the memoised aggregation: `nsTotals` per key and
      `globalTotal` over everything. */
  method Aggregate(data: seq<DailyCost>) returns (nsTotals: Record<string, Sums>, globalTotal: Sums)
    ensures nsTotals == Tally(data)
    ensures globalTotal == SumRows(data)
  {
    nsTotals := Empty();
    globalTotal := Zero;
    var i := 0;
    while i < |data|
      invariant 0 <= i <= |data|
      invariant nsTotals == Tally(data[..i])
      invariant globalTotal == SumRows(data[..i])
    {
      var d := data[i];
      var acc := if d.namespace in nsTotals.vals then nsTotals.vals[d.namespace] else Zero;
      TallyPrefixStep(data, i);
      nsTotals := nsTotals.Put(d.namespace, AddRow(acc, d));
      globalTotal := AddRow(globalTotal, d);
      i := i + 1;
    }
    assert data[..i] == data;
  }

  /** `Object.entries(nsTotals).map(([ns, costs]) => ({ ns, ...costs }))`. */
  function Entries(t: Record<string, Sums>): (rows: seq<TableRow>)
    requires t.Valid()
    ensures |rows| == |t.order|
    ensures forall i :: 0 <= i < |rows| ==> rows[i].ns == t.order[i] && rows[i].costs == t.vals[t.order[i]]
  {
    seq(|t.order|, i requires 0 <= i < |t.order| => TableRow(t.order[i], t.vals[t.order[i]]))
  }

  /** The comparator `(a, b) => b.total - a.total` does not put `b` before `a`. */
  predicate TotalGe(a: TableRow, b: TableRow) {
    a.costs.total >= b.costs.total
  }

  lemma TotalGeTotalPreorder()
    ensures TotalPreorder(TotalGe)
  {
  }

  /** The table's key rows: the entries stably sorted by total, descending. */
  function TableRows(data: seq<DailyCost>): seq<TableRow> {
    TotalGeTotalPreorder();
    SortBy(Entries(Tally(data)), TotalGe)
  }

  /** One row per distinct key of the data, each holding the sums of that key's
      rows; most expensive first; keys of equal total in first-seen order. */
  lemma TableRowsSpec(data: seq<DailyCost>)
    ensures var rows := TableRows(data);
      && |rows| == |KeysOf(data)|
      && (forall i, j :: 0 <= i < j < |rows| ==> rows[i].costs.total >= rows[j].costs.total)
      && (forall i, j :: 0 <= i < j < |rows| ==> rows[i].ns != rows[j].ns)
      && (forall k :: (exists i :: 0 <= i < |rows| && rows[i].ns == k) <==> k in KeysOf(data))
      && (forall i :: 0 <= i < |rows| ==> rows[i].costs == SumRows(RowsOf(data, rows[i].ns)))
    ensures forall z :: TiedWith(TableRows(data), TotalGe, z) == TiedWith(Entries(Tally(data)), TotalGe, z)
  {
    TotalGeTotalPreorder();
    var t := Tally(data);
    var rows := TableRows(data);
    TallyKeys(data);
    RowsAreTallies(data);
    PermKeepsKeysDistinct(Entries(t), rows, (r: TableRow) => r.ns);
    EveryKeyHasRow(data);
    forall z ensures TiedWith(rows, TotalGe, z) == TiedWith(Entries(t), TotalGe, z) {
      SortStable(Entries(t), TotalGe, z);
    }
  }

  /** Each table row is an entry of the tally: a key of the data with the sums of
      its rows. */
  lemma RowsAreTallies(data: seq<DailyCost>)
    ensures forall i :: 0 <= i < |TableRows(data)| ==>
      && TableRows(data)[i].ns in KeysOf(data)
      && TableRows(data)[i].costs == SumRows(RowsOf(data, TableRows(data)[i].ns))
  {
    var t := Tally(data);
    var e := Entries(t);
    var rows := TableRows(data);
    TallyKeys(data);
    forall i | 0 <= i < |rows|
      ensures rows[i].ns in KeysOf(data)
      ensures rows[i].costs == SumRows(RowsOf(data, rows[i].ns))
    {
      assert rows[i] in multiset(e);
      var j :| 0 <= j < |e| && e[j] == rows[i];
      KeysInOrder(t);
      TallyIsSumOfKey(data, t.order[j]);
    }
  }

  lemma EveryKeyHasRow(data: seq<DailyCost>)
    ensures forall k :: k in KeysOf(data) ==> exists i :: 0 <= i < |TableRows(data)| && TableRows(data)[i].ns == k
  {
    var t := Tally(data);
    var e := Entries(t);
    var rows := TableRows(data);
    TallyKeys(data);
    forall k | k in KeysOf(data)
      ensures exists i :: 0 <= i < |rows| && rows[i].ns == k
    {
      var j :| 0 <= j < |t.order| && t.order[j] == k;
      assert e[j] in multiset(rows);
      var i :| 0 <= i < |rows| && rows[i] == e[j];
    }
  }

  /** Field-by-field sum over table rows. */
  function SumTable(rows: seq<TableRow>): Sums {
    if rows == [] then Zero else Plus(SumTable(rows[..|rows| - 1]), rows[|rows| - 1].costs)
  }

  lemma {:induction false} SumTableAppend(a: seq<TableRow>, b: seq<TableRow>)
    ensures SumTable(a + b) == Plus(SumTable(a), SumTable(b))
  {
    if b == [] {
      assert a + b == a;
    } else {
      SumTableAppend(a, b[..|b| - 1]);
      assert (a + b)[..|a + b| - 1] == a + b[..|b| - 1];
    }
  }

  lemma SumTableRemove(s: seq<TableRow>, j: nat)
    requires j < |s|
    ensures SumTable(s) == Plus(SumTable(s[..j] + s[j + 1..]), s[j].costs)
  {
    var head, tail := s[..j], s[j + 1..];
    var front := head + [s[j]];
    SplitAround(s, j);
    SumTableAppend(front, tail);
    SumTableAppend(head, tail);
    assert SumTable(front) == Plus(SumTable(head), s[j].costs);
    PlusSwap(SumTable(head), s[j].costs, SumTable(tail));
  }

  /** The sum over table rows does not depend on their order. */
  lemma {:induction false} SumTablePerm(a: seq<TableRow>, b: seq<TableRow>)
    requires multiset(a) == multiset(b)
    ensures SumTable(a) == SumTable(b)
    decreases |a|
  {
    if a == [] {
      assert |b| == |multiset(b)| == 0;
    } else {
      var x := a[|a| - 1];
      assert x in multiset(b);
      var j :| 0 <= j < |b| && b[j] == x;
      var rest := b[..j] + b[j + 1..];
      assert b == b[..j] + [x] + b[j + 1..];
      assert multiset(b) == multiset(b[..j]) + multiset{x} + multiset(b[j + 1..]);
      assert multiset(rest) == multiset(b[..j]) + multiset(b[j + 1..]);
      assert a == a[..|a| - 1] + [x];
      assert multiset(a) == multiset(a[..|a| - 1]) + multiset{x};
      assert multiset(rest) == multiset(b) - multiset{x};
      assert multiset(a[..|a| - 1]) == multiset(a) - multiset{x};
      SumTablePerm(a[..|a| - 1], rest);
      SumTableRemove(b, j);
    }
  }

  lemma {:induction false} SumEntries(t: Record<string, Sums>, n: nat)
    requires t.Valid() && n <= |t.order|
    ensures forall k :: k in t.order[..n] ==> k in t.vals
    ensures SumTable(Entries(t)[..n]) == SumTallies(t, t.order[..n])
  {
    KeysInOrder(t);
    if n > 0 {
      SumEntries(t, n - 1);
      assert Entries(t)[..n][..n - 1] == Entries(t)[..n - 1];
      assert t.order[..n][..n - 1] == t.order[..n - 1];
    }
  }

  /** The "Totals" line is the sum of the key rows over all pages. */
  lemma TotalsLineIsSumOfRows(data: seq<DailyCost>)
    ensures SumRows(data) == SumTable(TableRows(data))
  {
    var t := Tally(data);
    TotalGeTotalPreorder();
    SumTablePerm(TableRows(data), Entries(t));
    SumEntries(t, |t.order|);
    assert Entries(t)[..|t.order|] == Entries(t);
    assert t.order[..|t.order|] == t.order;
    GrandTotalIsSumOfTallies(data);
  }

  /** `Math.ceil(n / pageSize)`. */
  function TotalPages(n: nat): (p: nat)
    ensures p * PageSize >= n
    ensures p == 0 || (p - 1) * PageSize < n
  {
    (n + PageSize - 1) / PageSize
  }

  /** `rows.slice(page * pageSize, (page + 1) * pageSize)`, the slice bounds clamped
      to the length as `slice` does. */
  function Displayed<T>(rows: seq<T>, page: nat): (shown: seq<T>)
    ensures |shown| <= PageSize
    ensures page * PageSize >= |rows| ==> shown == []
    ensures page * PageSize < |rows| ==> 0 < |shown|
    ensures forall i :: 0 <= i < |shown| ==> page * PageSize + i < |rows| && shown[i] == rows[page * PageSize + i]
  {
    var start := if page * PageSize < |rows| then page * PageSize else |rows|;
    var end := if (page + 1) * PageSize < |rows| then (page + 1) * PageSize else |rows|;
    rows[start..end]
  }

  /** The first `k` pages one after the other. */
  function Paged<T>(rows: seq<T>, k: nat): seq<T> {
    if k == 0 then [] else Paged(rows, k - 1) + Displayed(rows, k - 1)
  }

  lemma {:induction false} PagedPrefix<T>(rows: seq<T>, k: nat)
    ensures Paged(rows, k) == rows[..if k * PageSize < |rows| then k * PageSize else |rows|]
  {
    if k > 0 {
      PagedPrefix(rows, k - 1);
    }
  }

  /** Paging through every page shows each row once, in order. */
  lemma PagesCoverRows<T>(rows: seq<T>)
    ensures Paged(rows, TotalPages(|rows|)) == rows
  {
    PagedPrefix(rows, TotalPages(|rows|));
    assert rows[..|rows|] == rows;
  }

  /** The `<first>-<last> of <n>` caption. */
  function Caption(page: nat, n: nat): (c: (nat, nat))
    ensures c.0 == page * PageSize + 1
    ensures c.1 <= n && c.1 <= (page + 1) * PageSize
    ensures c.1 == n || c.1 == (page + 1) * PageSize
  {
    (page * PageSize + 1, if (page + 1) * PageSize < n then (page + 1) * PageSize else n)
  }

  /** The caption counts the shown rows (1-based, inclusive) when the page holds
      some; with no rows it reads `1-0 of 0`. */
  lemma CaptionMatchesDisplayed<T>(rows: seq<T>, page: nat)
    ensures page * PageSize < |rows| ==>
      Caption(page, |rows|).1 - Caption(page, |rows|).0 + 1 == |Displayed(rows, page)|
    ensures rows == [] ==> Caption(page, 0) == (page * PageSize + 1, 0)
  {
  }

  /** `disabled={page === 0}` and `disabled={page >= totalPages - 1}`. */
  predicate PrevEnabled(page: int) {
    page != 0
  }

  predicate NextEnabled(page: int, totalPages: nat) {
    page < totalPages - 1
  }

  /** The page the dashboard keeps for the table, with the rows it shows. */
  class Pager {
    var rows: seq<TableRow>
    var page: int

    /** The page is a valid index into the pages of `rows` (page 0 when there are
        none). */
    predicate InRange()
      reads this
    {
      0 <= page && (page < TotalPages(|rows|) || page == 0)
    }

    function Shown(): seq<TableRow>
      reads this
      requires 0 <= page
    {
      Displayed(rows, page)
    }

    /** `useState(0)` on first render. */
    constructor(data: seq<DailyCost>)
      ensures rows == TableRows(data) && page == 0
      ensures InRange()
    {
      rows := TableRows(data);
      page := 0;
    }

    /** A click on `<`: `setPage(p => Math.max(0, p - 1))`; a disabled button does
        not fire. */
    method ClickPrev()
      modifies this
      ensures rows == old(rows)
      ensures page == if PrevEnabled(old(page)) then (if old(page) - 1 < 0 then 0 else old(page) - 1) else old(page)
      ensures old(InRange()) ==> InRange()
      ensures old(0 <= page) ==> 0 <= page
    {
      if PrevEnabled(page) {
        page := if page - 1 < 0 then 0 else page - 1;
      }
    }

    /** A click on `>`: `setPage(p => Math.min(totalPages - 1, p + 1))`; a disabled
        button does not fire. */
    method ClickNext()
      modifies this
      ensures rows == old(rows)
      ensures var last := TotalPages(|rows|) - 1;
        page == if NextEnabled(old(page), TotalPages(|rows|)) then (if last < old(page) + 1 then last else old(page) + 1) else old(page)
      ensures old(InRange()) ==> InRange()
      ensures old(0 <= page) ==> 0 <= page
    {
      var totalPages := TotalPages(|rows|);
      if NextEnabled(page, totalPages) {
        page := if totalPages - 1 < page + 1 then totalPages - 1 else page + 1;
      }
    }

    /** New `data` props: the memoised rows are recomputed, the page state is kept. */
    method NewData(data: seq<DailyCost>)
      modifies this
      ensures rows == TableRows(data) && page == old(page)
    {
      rows := TableRows(data);
    }

    /** The corrected update: new rows start again at the first page. */
    method NewDataFromFirstPage(data: seq<DailyCost>)
      modifies this
      ensures rows == TableRows(data) && page == 0
      ensures InRange()
    {
      rows := TableRows(data);
      page := 0;
    }
  }

  /** With the rows shown starting at the first page, a table with rows always
      shows some of them, whatever clicks and data changes came before. */
  lemma InRangeShowsRows(rows: seq<TableRow>, page: int)
    requires 0 <= page && (page < TotalPages(|rows|) || page == 0)
    ensures rows != [] ==> |Displayed(rows, page)| > 0
  {
  }

  /** As written, a page reached on a long table outlives a switch to a short one:
      after two clicks on `>` over 21 or more keys and new data with at most ten
      keys, the table has rows but shows none of them. */
  method StalePage(long: seq<DailyCost>, short: seq<DailyCost>) returns (p: Pager)
    requires |KeysOf(long)| > 2 * PageSize && 0 < |KeysOf(short)| <= PageSize
    ensures p.rows != [] && 0 <= p.page && p.Shown() == []
    ensures !p.InRange()
    ensures p.page == 2 && Caption(p.page, |p.rows|) == (2 * PageSize + 1, |p.rows|)
  {
    TableRowsSpec(long);
    TableRowsSpec(short);
    p := new Pager(long);
    p.ClickNext();
    p.ClickNext();
    assert p.page == 2;
    p.NewData(short);
  }

  /** The corrected update keeps every reachable state in range, so a table with
      rows always shows some. */
  method FreshPage(long: seq<DailyCost>, short: seq<DailyCost>) returns (p: Pager)
    requires |KeysOf(long)| > 2 * PageSize && 0 < |KeysOf(short)| <= PageSize
    ensures p.rows != [] && p.InRange() && |p.Shown()| > 0
  {
    TableRowsSpec(long);
    TableRowsSpec(short);
    p := new Pager(long);
    p.ClickNext();
    p.ClickNext();
    p.NewDataFromFirstPage(short);
    InRangeShowsRows(p.rows, p.page);
  }
}
