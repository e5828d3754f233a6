// The paged list of containers the storage service holds (native/cloud_storage.rs).

module CloudInventory {
  import opened Prelude

  /** One container as the service lists it. */
  datatype Row = Row(name: string, displayName: string, etag: string, time: nat, size: nat)

  datatype Page = Page(rows: seq<Row>, total: nat, token: Option<string>)

  datatype Limits = Limits(pages: nat, containers: nat, blobs: nat, blobBytes: nat, totalBytes: nat)

  datatype Stop = InvalidResponse | Changed | Bounds | Transport | NotFound

  // ----- Order by name ------------------------------------------------------------------

  predicate AtMost(a: string, b: string) {
    if a == [] then true
    else if b == [] then false
    else if a[0] != b[0] then a[0] < b[0]
    else AtMost(a[1..], b[1..])
  }

  lemma {:induction false} OrderIsTotal(a: string, b: string)
    ensures AtMost(a, b) || AtMost(b, a)
  {
    if a != [] && b != [] && a[0] == b[0] {
      OrderIsTotal(a[1..], b[1..]);
    }
  }

  lemma {:induction false} OrderIsStrict(a: string, b: string)
    requires AtMost(a, b) && AtMost(b, a)
    ensures a == b
  {
    if a != [] && b != [] {
      OrderIsStrict(a[1..], b[1..]);
      assert a == [a[0]] + a[1..] && b == [b[0]] + b[1..];
    }
  }

  lemma {:induction false} OrderIsTransitive(a: string, b: string, c: string)
    requires AtMost(a, b) && AtMost(b, c)
    ensures AtMost(a, c)
  {
    if a != [] && b != [] && c != [] && a[0] == b[0] == c[0] {
      OrderIsTransitive(a[1..], b[1..], c[1..]);
    }
  }

  predicate Ordered(rows: seq<Row>) {
    forall i, j | 0 <= i < j < |rows| :: AtMost(rows[i].name, rows[j].name)
  }

  function Insert(row: Row, rows: seq<Row>): seq<Row> {
    if rows == [] || AtMost(row.name, rows[0].name) then [row] + rows
    else [rows[0]] + Insert(row, rows[1..])
  }

  function Sort(rows: seq<Row>): seq<Row> {
    if rows == [] then [] else Insert(rows[0], Sort(rows[1..]))
  }

  lemma {:induction false} InsertKeeps(row: Row, rows: seq<Row>)
    ensures multiset(Insert(row, rows)) == multiset(rows) + multiset{row}
  {
    if rows != [] && !AtMost(row.name, rows[0].name) {
      InsertKeeps(row, rows[1..]);
      assert rows == [rows[0]] + rows[1..];
    }
  }

  lemma {:induction false} InsertOrders(row: Row, rows: seq<Row>)
    requires Ordered(rows)
    ensures Ordered(Insert(row, rows))
  {
    if rows == [] {
    } else if AtMost(row.name, rows[0].name) {
      forall j | 0 <= j < |rows| ensures AtMost(row.name, rows[j].name) {
        if j > 0 {
          OrderIsTransitive(row.name, rows[0].name, rows[j].name);
        }
      }
    } else {
      InsertOrders(row, rows[1..]);
      InsertKeeps(row, rows[1..]);
      OrderIsTotal(row.name, rows[0].name);
      var rest := Insert(row, rows[1..]);
      forall j | 0 <= j < |rest| ensures AtMost(rows[0].name, rest[j].name) {
        assert rest[j] in multiset(rest);
        assert rest[j] == row || rest[j] in rows[1..];
      }
    }
  }

  lemma {:induction false} SortSorts(rows: seq<Row>)
    ensures Ordered(Sort(rows)) && multiset(Sort(rows)) == multiset(rows)
  {
    if rows != [] {
      SortSorts(rows[1..]);
      InsertOrders(rows[0], Sort(rows[1..]));
      InsertKeeps(rows[0], Sort(rows[1..]));
      assert rows == [rows[0]] + rows[1..];
    }
  }

  predicate DistinctNames(rows: seq<Row>) {
    forall i, j | 0 <= i < j < |rows| :: rows[i].name != rows[j].name
  }

  /** The first of an ordered list is before all others. */
  lemma FirstIsLeast(rows: seq<Row>, row: Row)
    requires Ordered(rows) && row in rows
    ensures AtMost(rows[0].name, row.name)
  {
    OrderIsTotal(row.name, row.name);
  }

  lemma SameName(rows: seq<Row>, a: Row, b: Row)
    requires DistinctNames(rows) && a in rows && b in rows && a.name == b.name
    ensures a == b
  {
  }

  lemma SameFirst(a: seq<Row>, b: seq<Row>)
    requires Ordered(a) && Ordered(b) && multiset(a) == multiset(b) && DistinctNames(a) && a != []
    ensures b != [] && a[0] == b[0]
  {
    hide AtMost, Ordered, DistinctNames;
    assert a[0] in multiset(b);
    assert b[0] in multiset(a);
    FirstIsLeast(a, b[0]);
    FirstIsLeast(b, a[0]);
    OrderIsStrict(a[0].name, b[0].name);
    SameName(a, a[0], b[0]);
  }

  lemma RestIsOrdered(rows: seq<Row>)
    requires rows != []
    ensures Ordered(rows) ==> Ordered(rows[1..])
    ensures DistinctNames(rows) ==> DistinctNames(rows[1..])
    ensures multiset(rows[1..]) == multiset(rows) - multiset{rows[0]}
  {
    assert rows == [rows[0]] + rows[1..];
  }

  /** Ordered lists of the same rows are the same list. */
  lemma {:induction false} OrderedIsUnique(a: seq<Row>, b: seq<Row>)
    requires Ordered(a) && Ordered(b) && multiset(a) == multiset(b) && DistinctNames(a)
    ensures a == b
  {
    hide AtMost, Ordered, DistinctNames;
    if a == [] {
      assert |b| == |multiset(b)| == 0;
    } else {
      SameFirst(a, b);
      RestIsOrdered(a);
      RestIsOrdered(b);
      OrderedIsUnique(a[1..], b[1..]);
      assert a == [a[0]] + a[1..] && b == [b[0]] + b[1..];
    }
  }

  // ----- Pages ---------------------------------------------------------------------------

  function Total(rows: seq<Row>): nat {
    if rows == [] then 0 else Total(rows[..|rows| - 1]) + rows[|rows| - 1].size
  }

  function Rows(pages: seq<Page>): seq<Row> {
    if pages == [] then [] else Rows(pages[..|pages| - 1]) + pages[|pages| - 1].rows
  }

  predicate GoodName(name: string) {
    name != "." && name != ".."
  }

  /** Rows that may stand together: names once each, and sizes within bounds. */
  predicate GoodRows(rows: seq<Row>, limits: Limits) {
    && DistinctNames(rows)
    && (forall i | 0 <= i < |rows| :: GoodName(rows[i].name))
    && Total(rows) <= limits.totalBytes
  }

  /** Pages to which more must follow. */
  predicate Unfinished(pages: seq<Page>, limits: Limits) {
    && |pages| <= limits.pages
    && (forall i | 0 <= i < |pages| ::
          pages[i].total == pages[0].total <= limits.containers && pages[i].token.Some? && pages[i].rows != [])
    && (forall i, j | 0 <= i < j < |pages| :: pages[i].token != pages[j].token)
    && (pages != [] ==> |Rows(pages)| < pages[0].total)
    && GoodRows(Rows(pages), limits)
  }

  /** A complete listing: the announced number of rows, and no page after it. */
  predicate Complete(pages: seq<Page>, limits: Limits) {
    && 0 < |pages| <= limits.pages
    && var before, last := pages[..|pages| - 1], pages[|pages| - 1];
       && Unfinished(before, limits)
       && last.token.None?
       && last.total <= limits.containers && (before != [] ==> last.total == before[0].total)
       && |Rows(pages)| == last.total
       && GoodRows(Rows(pages), limits)
  }

  lemma {:induction false} TotalGrows(a: seq<Row>, b: seq<Row>)
    ensures Total(a) <= Total(a + b)
  {
    if b != [] {
      var all := a + b;
      assert all[..|all| - 1] == a + b[..|b| - 1];
      TotalGrows(a, b[..|b| - 1]);
    } else {
      assert a + b == a;
    }
  }

  lemma GoodPrefix(a: seq<Row>, b: seq<Row>, limits: Limits)
    requires GoodRows(a + b, limits)
    ensures GoodRows(a, limits)
  {
    TotalGrows(a, b);
    forall i, j | 0 <= i < j < |a| ensures a[i].name != a[j].name {
      assert (a + b)[i].name != (a + b)[j].name;
    }
    forall i | 0 <= i < |a| ensures GoodName(a[i].name) {
      assert GoodName((a + b)[i].name);
    }
  }

  lemma RowsSoFar(pages: seq<Page>, k: nat)
    requires k < |pages|
    ensures Rows(pages[..k + 1]) == Rows(pages[..k]) + pages[k].rows
  {
    assert pages[..k + 1][..k] == pages[..k];
  }

  lemma {:induction false} RowsGrow(pages: seq<Page>, k: nat, n: nat)
    requires k <= n <= |pages|
    ensures Rows(pages[..k]) <= Rows(pages[..n])
  {
    if k < n {
      RowsGrow(pages, k, n - 1);
      RowsSoFar(pages, n - 1);
    }
  }

  /** What any complete listing says of its page number `k`. */
  lemma CompleteSays(pages: seq<Page>, n: nat, k: nat, limits: Limits)
    requires k < n <= |pages| && Complete(pages[..n], limits)
    ensures n <= limits.pages && pages[k].total <= limits.containers && pages[k].total == pages[0].total
    ensures |Rows(pages[..k + 1])| <= pages[k].total && GoodRows(Rows(pages[..k + 1]), limits)
    ensures pages[k].token.None? <==> k == n - 1
    ensures k == n - 1 ==> |Rows(pages[..k + 1])| == pages[k].total
    ensures k < n - 1 ==> pages[k].rows != [] && |Rows(pages[..k + 1])| < pages[k].total
    ensures k < n - 1 ==> forall i | 0 <= i < k :: pages[i].token != pages[k].token
  {
    hide GoodRows, Rows;
    var before := pages[..n][..n - 1];
    assert before == pages[..n - 1];
    assert forall i | 0 <= i < n - 1 :: before[i] == pages[i];
    RowsGrow(pages, k + 1, n);
    var rest := Rows(pages[..n])[|Rows(pages[..k + 1])|..];
    assert Rows(pages[..n]) == Rows(pages[..k + 1]) + rest;
    GoodPrefix(Rows(pages[..k + 1]), rest, limits);
    if k < n - 1 {
      RowsGrow(pages, k + 1, n - 1);
    }
  }

  /** An unfinished listing is completed by later pages only. */
  lemma CompletedLater(pages: seq<Page>, n: nat, k: nat, limits: Limits)
    requires k <= |pages| && n <= |pages| && Unfinished(pages[..k], limits) && Complete(pages[..n], limits)
    ensures k < n
  {
    LastHasNoToken(pages, n, limits);
    if n <= k {
      UnfinishedHasTokens(pages, k, n - 1, limits);
    }
  }

  lemma LastHasNoToken(pages: seq<Page>, n: nat, limits: Limits)
    requires n <= |pages| && Complete(pages[..n], limits)
    ensures n > 0 && pages[n - 1].token.None?
  {
  }

  lemma UnfinishedHasTokens(pages: seq<Page>, k: nat, i: nat, limits: Limits)
    requires i < k <= |pages| && Unfinished(pages[..k], limits)
    ensures pages[i].token.Some?
  {
    assert pages[..k][i] == pages[i];
  }

  /** The pages end in a complete listing after `n` of them. */
  predicate EndsAfter(pages: seq<Page>, n: nat, limits: Limits) {
    n <= |pages| && Complete(pages[..n], limits)
  }

  /** What page `k` must be like for the listing to be completed. */
  predicate Fits(pages: seq<Page>, k: nat, limits: Limits) {
    && k < |pages| && k < limits.pages
    && pages[k].total <= limits.containers && pages[k].total == pages[0].total
    && |Rows(pages[..k + 1])| <= pages[k].total && GoodRows(Rows(pages[..k + 1]), limits)
    && (if pages[k].token.None? then |Rows(pages[..k + 1])| == pages[k].total
        else
          && pages[k].rows != [] && |Rows(pages[..k + 1])| < pages[k].total
          && forall i | 0 <= i < k :: pages[i].token != pages[k].token)
  }

  lemma AnyLater(pages: seq<Page>, k: nat, limits: Limits)
    requires k <= |pages| && Unfinished(pages[..k], limits)
    ensures (exists m: nat :: EndsAfter(pages, m, limits)) ==> Fits(pages, k, limits)
  {
    hide Complete, Unfinished, GoodRows, Rows;
    if m: nat :| EndsAfter(pages, m, limits) {
      CompletedLater(pages, m, k, limits);
      CompleteSays(pages, m, k, limits);
    }
  }

  lemma NothingRead(pages: seq<Page>, limits: Limits)
    ensures Unfinished(pages[..0], limits) && Rows(pages[..0]) == [] && Total([]) == 0 && GoodRows([], limits)
  {
  }

  lemma OneMorePage(pages: seq<Page>, k: nat, limits: Limits)
    requires k < |pages| && Unfinished(pages[..k], limits) && Fits(pages, k, limits) && pages[k].token.Some?
    ensures Unfinished(pages[..k + 1], limits)
  {
    hide GoodRows, Rows;
    assert forall i | 0 <= i < k :: pages[..k][i] == pages[i] == pages[..k + 1][i];
  }

  lemma LastPage(pages: seq<Page>, k: nat, limits: Limits)
    requires k < |pages| && Unfinished(pages[..k], limits) && Fits(pages, k, limits) && pages[k].token.None?
    ensures EndsAfter(pages, k + 1, limits)
    ensures var rows := Rows(pages[..k + 1]); Ordered(Sort(rows)) && DistinctNames(Sort(rows))
  {
    hide Ordered, Sort, Rows, DistinctNames;
    assert pages[..k + 1][..k] == pages[..k];
    SortSorts(Rows(pages[..k + 1]));
    SortKeepsDistinct(Rows(pages[..k + 1]));
  }

  predicate HasName(rows: seq<Row>, name: string) {
    exists i :: 0 <= i < |rows| && rows[i].name == name
  }

  lemma {:induction false} InsertKeepsDistinct(row: Row, rows: seq<Row>)
    requires DistinctNames(rows) && !HasName(rows, row.name)
    ensures DistinctNames(Insert(row, rows))
    ensures forall x :: HasName(Insert(row, rows), x) <==> x == row.name || HasName(rows, x)
  {
    var all := Insert(row, rows);
    if rows == [] || AtMost(row.name, rows[0].name) {
      FirstName(all);
    } else {
      FirstName(rows);
      InsertKeepsDistinct(row, rows[1..]);
      FirstName(all);
    }
  }

  /** The names of a list are the first one's and the others'. */
  lemma FirstName(rows: seq<Row>)
    requires rows != []
    ensures forall x :: HasName(rows, x) <==> x == rows[0].name || HasName(rows[1..], x)
    ensures DistinctNames(rows) <==> DistinctNames(rows[1..]) && !HasName(rows[1..], rows[0].name)
  {
    var rest := rows[1..];
    forall x ensures HasName(rows, x) <==> x == rows[0].name || HasName(rest, x) {
      if i :| 0 <= i < |rest| && rest[i].name == x {
        assert rows[i + 1].name == x;
      }
      if i :| 0 < i < |rows| && rows[i].name == x {
        assert rest[i - 1].name == x;
      }
    }
    if DistinctNames(rest) && !HasName(rest, rows[0].name) {
      forall i, j | 0 <= i < j < |rows| ensures rows[i].name != rows[j].name {
        assert rows[j] == rest[j - 1];
        if i > 0 {
          assert rows[i] == rest[i - 1];
        }
      }
    }
    if DistinctNames(rows) {
      forall i | 0 <= i < |rest| ensures rest[i].name != rows[0].name {
        assert rest[i] == rows[i + 1];
      }
    }
  }

  lemma {:induction false} SortKeepsDistinct(rows: seq<Row>)
    requires DistinctNames(rows)
    ensures DistinctNames(Sort(rows)) && forall x :: HasName(Sort(rows), x) <==> HasName(rows, x)
  {
    if rows != [] {
      FirstName(rows);
      SortKeepsDistinct(rows[1..]);
      InsertKeepsDistinct(rows[0], Sort(rows[1..]));
    }
  }

  /** Add one page's rows to those already read. */
  method AddRows(result: seq<Row>, names: set<string>, size: nat, rows: seq<Row>, limits: Limits)
    returns (r: Result<seq<Row>, Stop>, allNames: set<string>, allSize: nat)
    requires GoodRows(result, limits) && size == Total(result) && forall x :: x in names <==> exists i :: 0 <= i < |result| && result[i].name == x
    ensures r.Ok? <==> GoodRows(result + rows, limits)
    ensures r.Ok? ==> r.value == result + rows && allSize == Total(r.value)
    ensures r.Ok? ==> forall x :: x in allNames <==> exists i :: 0 <= i < |r.value| && r.value[i].name == x
  {
    hide GoodRows, GoodName, Total;
    var all := result;
    allNames, allSize := names, size;
    for i: nat := 0 to |rows|
      invariant all == result + rows[..i]
      invariant GoodRows(all, limits) && allSize == Total(all)
      invariant forall x :: x in allNames <==> exists j :: 0 <= j < |all| && all[j].name == x
    {
      var row := rows[i];
      var more := all + [row];
      assert more == result + rows[..i + 1];
      assert more[..|more| - 1] == all;
      OneMoreRow(all, row, limits);
      if !GoodName(row.name) || row.name in allNames || allSize + row.size > limits.totalBytes {
        assert rows == rows[..i + 1] + rows[i + 1..];
        assert result + rows == more + rows[i + 1..];
        if GoodRows(result + rows, limits) {
          GoodPrefix(more, rows[i + 1..], limits);
        }
        return Err(InvalidResponse), allNames, allSize;
      }
      NamesGrow(all, row, allNames);
      all, allNames, allSize := more, allNames + {row.name}, allSize + row.size;
    }
    assert rows[..|rows|] == rows;
    r := Ok(all);
  }

  lemma OneMoreName(rows: seq<Row>, row: Row)
    requires DistinctNames(rows)
    ensures DistinctNames(rows + [row]) <==> !exists i :: 0 <= i < |rows| && rows[i].name == row.name
  {
    var more := rows + [row];
    if i :| 0 <= i < |rows| && rows[i].name == row.name {
      assert more[i].name == more[|rows|].name;
    }
  }

  lemma OneMoreRow(rows: seq<Row>, row: Row, limits: Limits)
    requires GoodRows(rows, limits)
    ensures Total(rows + [row]) == Total(rows) + row.size
    ensures GoodRows(rows + [row], limits) <==>
            GoodName(row.name) && Total(rows) + row.size <= limits.totalBytes
            && !exists i :: 0 <= i < |rows| && rows[i].name == row.name
  {
    hide DistinctNames, GoodName;
    var more := rows + [row];
    assert more[..|more| - 1] == rows && more[|rows|] == row;
    OneMoreName(rows, row);
  }

  lemma NamesGrow(rows: seq<Row>, row: Row, names: set<string>)
    requires forall x :: x in names <==> exists i :: 0 <= i < |rows| && rows[i].name == x
    ensures forall x :: x in names + {row.name} <==> exists i :: 0 <= i < |rows + [row]| && (rows + [row])[i].name == x
  {
    var more := rows + [row];
    forall x ensures x in names + {row.name} <==> exists i :: 0 <= i < |more| && more[i].name == x {
      if x in names {
        var i :| 0 <= i < |rows| && rows[i].name == x;
        assert more[i].name == x;
      }
      assert more[|rows|].name == row.name;
    }
  }

  /**
   * Read the list page by page; `pages` are the service's answers in turn, and when they
   * run out the connection fails. Exactly a complete listing is accepted.
   */
  method Inventory(pages: seq<Page>, limits: Limits) returns (r: Result<seq<Row>, Stop>, ghost n: nat)
    ensures r.Ok? <==> exists m: nat :: EndsAfter(pages, m, limits)
    ensures r.Ok? ==> EndsAfter(pages, n, limits) && r.value == Sort(Rows(pages[..n]))
    ensures r.Ok? ==> Ordered(r.value) && DistinctNames(r.value)
  {
    hide Complete, Unfinished, GoodRows, Ordered, DistinctNames, Sort, EndsAfter;
    n := 0;
    var result: seq<Row>, names: set<string>, tokens: set<string>, size := [], {}, {}, 0;
    var expected: Option<nat> := None;
    NothingRead(pages, limits);
    for k: nat := 0 to limits.pages
      invariant k <= |pages| && Unfinished(pages[..k], limits)
      invariant result == Rows(pages[..k]) && size == Total(result) && GoodRows(result, limits)
      invariant forall x :: x in names <==> exists i :: 0 <= i < |result| && result[i].name == x
      invariant expected == if k == 0 then None else Some(pages[0].total)
      invariant forall x :: x in tokens <==> exists i :: 0 <= i < k && pages[i].token == Some(x)
    {
      AnyLater(pages, k, limits);
      if k == |pages| {
        return Err(Transport), n;
      }
      var page := pages[k];
      RowsSoFar(pages, k);
      if page.total > limits.containers || (expected.Some? && expected.value != page.total) {
        return Err(Changed), n;
      }
      expected := Some(page.total);
      if |result| + |page.rows| > page.total {
        return Err(InvalidResponse), n;
      }
      var added;
      added, names, size := AddRows(result, names, size, page.rows, limits);
      if added.Err? {
        return Err(added.error), n;
      }
      result := added.value;
      if page.token.None? {
        if |result| != page.total {
          return Err(InvalidResponse), n;
        }
        n := k + 1;
        LastPage(pages, k, limits);
        return Ok(Sort(result)), n;
      }
      if page.rows == [] || |result| >= page.total || page.token.value in tokens {
        return Err(InvalidResponse), n;
      }
      tokens := tokens + {page.token.value};
      OneMorePage(pages, k, limits);
    }
    AnyLater(pages, limits.pages, limits);
    return Err(Bounds), n;
  }

  /** However a service splits the same rows into pages, the result is the same. */
  lemma SplitsAgree(p: seq<Page>, q: seq<Page>, limits: Limits, others: Limits)
    requires Complete(p, limits) && Complete(q, others)
    requires multiset(Rows(p)) == multiset(Rows(q))
    ensures Sort(Rows(p)) == Sort(Rows(q))
  {
    hide Rows, Sort, Ordered, DistinctNames;
    SortSorts(Rows(p));
    SortSorts(Rows(q));
    SortKeepsDistinct(Rows(p));
    OrderedIsUnique(Sort(Rows(p)), Sort(Rows(q)));
  }
}
