/** The usage pivots and the model-by-client matrix: nothing is counted twice, lost, or ordered by chance. */
module Usage {
  import opened Wrappers
  import opened Rankings

  datatype UsageRow = UsageRow(client: string, model: string, server: string, requests: int, failed: int, busyMs: int,
                               promptTokens: int, outputTokens: int, queueMsAvg: int, lastUsed: nat)

  const ANONYMOUS := "(anonymous)"
  const NO_SERVER := "\U{2014}"

  function ClientLabel(name: string): string {
    if name == "" then ANONYMOUS else name
  }

  function ServerLabel(name: string): string {
    if name == "" then NO_SERVER else name
  }

  // ---------------------------------------------------------------- sums over some of the rows

  datatype Field = Requests | Failed | BusyMs | PromptTokens | OutputTokens | QueueWeighted

  function Amount(r: UsageRow, f: Field): int {
    match f
    case Requests => r.requests
    case Failed => r.failed
    case BusyMs => r.busyMs
    case PromptTokens => r.promptTokens
    case OutputTokens => r.outputTokens
    case QueueWeighted => r.requests * r.queueMsAvg
  }

  datatype Key = Model | Client | Server

  function NameOf(r: UsageRow, k: Key): string {
    match k
    case Model => r.model
    case Client => ClientLabel(r.client)
    case Server => ServerLabel(r.server)
  }

  /** Which rows to look at: those with the given names, where one is given. */
  datatype Pick = Pick(model: Option<string>, client: Option<string>, server: Option<string>)

  const ALL := Pick(None, None, None)

  predicate Fits(name: string, wanted: Option<string>) {
    wanted.None? || wanted.value == name
  }

  predicate Picked(r: UsageRow, p: Pick) {
    Fits(r.model, p.model) && Fits(ClientLabel(r.client), p.client) && Fits(ServerLabel(r.server), p.server)
  }

  function Wanted(p: Pick, k: Key): Option<string> {
    match k
    case Model => p.model
    case Client => p.client
    case Server => p.server
  }

  function Also(p: Pick, k: Key, name: string): Pick {
    match k
    case Model => p.(model := Some(name))
    case Client => p.(client := Some(name))
    case Server => p.(server := Some(name))
  }

  lemma AlsoPicks(r: UsageRow, p: Pick, k: Key, name: string)
    ensures Fits(name, Wanted(p, k)) ==> (Picked(r, Also(p, k, name)) <==> Picked(r, p) && NameOf(r, k) == name)
  {
  }

  function Sum(rows: seq<UsageRow>, p: Pick, f: Field): int {
    if rows == [] then 0
    else Sum(rows[..|rows| - 1], p, f) + if Picked(rows[|rows| - 1], p) then Amount(rows[|rows| - 1], f) else 0
  }

  function LastUsed(rows: seq<UsageRow>, p: Pick): nat {
    if rows == [] then 0
    else
      var before, r := LastUsed(rows[..|rows| - 1], p), rows[|rows| - 1];
      if Picked(r, p) && r.lastUsed > before then r.lastUsed else before
  }

  /** Requests per name, within the picked rows. */
  function Table(rows: seq<UsageRow>, p: Pick, k: Key): map<string, int> {
    if rows == [] then map[]
    else
      var t, r := Table(rows[..|rows| - 1], p, k), rows[|rows| - 1];
      if Picked(r, p) then t[NameOf(r, k) := (if NameOf(r, k) in t then t[NameOf(r, k)] else 0) + r.requests] else t
  }

  // ---------------------------------------------------------------- counting by name loses nothing

  predicate Distinct(names: seq<string>) {
    forall i, j | 0 <= i < j < |names| :: names[i] != names[j]
  }

  /** The sums of the names one by one, added up. */
  function Across(rows: seq<UsageRow>, p: Pick, k: Key, names: seq<string>, f: Field): int {
    if names == [] then 0 else Sum(rows, Also(p, k, names[0]), f) + Across(rows, p, k, names[1..], f)
  }

  /** A further row adds to the sum of its own name and to no other. */
  lemma {:induction false} AcrossOneMore(rows: seq<UsageRow>, r: UsageRow, p: Pick, k: Key, names: seq<string>, f: Field)
    requires Distinct(names) && Wanted(p, k) == None
    ensures Across(rows + [r], p, k, names, f)
            == Across(rows, p, k, names, f) + if Picked(r, p) && NameOf(r, k) in names then Amount(r, f) else 0
    decreases |names|
  {
    if names != [] {
      var n, rest := names[0], names[1..];
      AcrossOneMore(rows, r, p, k, rest, f);
      assert (rows + [r])[..|rows|] == rows;
      AlsoPicks(r, p, k, n);
      assert names == [n] + rest;
      assert forall i | 0 <= i < |rest| :: rest[i] == names[i + 1];
    }
  }

  lemma {:induction false} NothingAcross(p: Pick, k: Key, names: seq<string>, f: Field)
    ensures Across([], p, k, names, f) == 0
  {
    if names != [] {
      NothingAcross(p, k, names[1..], f);
    }
  }

  /** With every name listed once, the parts add up to the whole. */
  lemma {:induction false} AcrossIsWhole(rows: seq<UsageRow>, p: Pick, k: Key, names: seq<string>, f: Field)
    requires Distinct(names) && Wanted(p, k) == None
    requires forall i | 0 <= i < |rows| :: Picked(rows[i], p) ==> NameOf(rows[i], k) in names
    ensures Across(rows, p, k, names, f) == Sum(rows, p, f)
    decreases |rows|
  {
    if rows == [] {
      NothingAcross(p, k, names, f);
    } else {
      var rest, r := rows[..|rows| - 1], rows[|rows| - 1];
      AcrossIsWhole(rest, p, k, names, f);
      AcrossOneMore(rest, r, p, k, names, f);
      assert rows == rest + [r];
    }
  }

  // ---------------------------------------------------------------- a table lists every name with its sum

  lemma {:induction false} TableIs(rows: seq<UsageRow>, p: Pick, k: Key, name: string)
    requires Fits(name, Wanted(p, k))
    ensures name in Table(rows, p, k) <==> exists i | 0 <= i < |rows| :: Picked(rows[i], p) && NameOf(rows[i], k) == name
    ensures name in Table(rows, p, k) ==> Table(rows, p, k)[name] == Sum(rows, Also(p, k, name), Requests)
    ensures name !in Table(rows, p, k) ==> Sum(rows, Also(p, k, name), Requests) == 0
    decreases |rows|
  {
    if rows != [] {
      var rest, r := rows[..|rows| - 1], rows[|rows| - 1];
      TableIs(rest, p, k, name);
      AlsoPicks(r, p, k, name);
      assert forall i | 0 <= i < |rest| :: rest[i] == rows[i];
      if name in Table(rest, p, k) {
        var i :| 0 <= i < |rest| && Picked(rest[i], p) && NameOf(rest[i], k) == name;
        assert Picked(rows[i], p) && NameOf(rows[i], k) == name;
      }
    }
  }

  lemma {:induction false} TableFits(rows: seq<UsageRow>, p: Pick, k: Key)
    ensures forall name | name in Table(rows, p, k) :: Fits(name, Wanted(p, k))
    decreases |rows|
  {
    if rows != [] {
      TableFits(rows[..|rows| - 1], p, k);
    }
  }

  // ---------------------------------------------------------------- the order of the rows does not matter

  lemma {:induction false} SumSplit(a: seq<UsageRow>, b: seq<UsageRow>, p: Pick, f: Field)
    ensures Sum(a + b, p, f) == Sum(a, p, f) + Sum(b, p, f)
  {
    if b == [] {
      assert a + b == a;
    } else {
      assert (a + b)[..|a + b| - 1] == a + b[..|b| - 1];
      SumSplit(a, b[..|b| - 1], p, f);
    }
  }

  lemma {:induction false} LastUsedSplit(a: seq<UsageRow>, b: seq<UsageRow>, p: Pick)
    ensures var x, y := LastUsed(a, p), LastUsed(b, p);
            LastUsed(a + b, p) == if y > x then y else x
  {
    if b == [] {
      assert a + b == a;
    } else {
      assert (a + b)[..|a + b| - 1] == a + b[..|b| - 1];
      LastUsedSplit(a, b[..|b| - 1], p);
    }
  }

  /** One row out of the middle. */
  lemma OneOut(b: seq<UsageRow>, i: nat, p: Pick, f: Field)
    requires i < |b|
    ensures Sum(b, p, f) == Sum(b[..i] + b[i + 1..], p, f) + Sum([b[i]], p, f)
    ensures var x, y := LastUsed(b[..i] + b[i + 1..], p), LastUsed([b[i]], p);
            LastUsed(b, p) == if y > x then y else x
  {
    assert b == b[..i] + ([b[i]] + b[i + 1..]);
    SumSplit(b[..i], [b[i]] + b[i + 1..], p, f);
    SumSplit([b[i]], b[i + 1..], p, f);
    SumSplit(b[..i], b[i + 1..], p, f);
    LastUsedSplit(b[..i], [b[i]] + b[i + 1..], p);
    LastUsedSplit([b[i]], b[i + 1..], p);
    LastUsedSplit(b[..i], b[i + 1..], p);
  }

  /** The rows of one are the rows of the other, in some order. */
  ghost predicate Permuted(a: seq<UsageRow>, b: seq<UsageRow>) {
    multiset(a) == multiset(b)
  }

  lemma TakenOut(a: seq<UsageRow>, b: seq<UsageRow>) returns (i: nat)
    requires Permuted(a, b) && a != []
    ensures i < |b| && b[i] == a[|a| - 1] && Permuted(a[..|a| - 1], b[..i] + b[i + 1..])
  {
    var r := a[|a| - 1];
    assert a == a[..|a| - 1] + [r];
    assert r in multiset(b);
    i :| 0 <= i < |b| && b[i] == r;
    assert b == b[..i] + [r] + b[i + 1..];
    assert multiset(b) == multiset(b[..i] + b[i + 1..]) + multiset{r};
    assert multiset(a) == multiset(a[..|a| - 1]) + multiset{r};
    assert multiset(a[..|a| - 1]) == multiset(a) - multiset{r};
  }

  lemma {:induction false} SamePermuted(a: seq<UsageRow>, b: seq<UsageRow>, p: Pick, f: Field)
    requires Permuted(a, b)
    ensures Sum(a, p, f) == Sum(b, p, f) && LastUsed(a, p) == LastUsed(b, p)
    decreases |a|
  {
    if a == [] {
      assert |multiset(b)| == |b|;
    } else {
      var i := TakenOut(a, b);
      OneOut(b, i, p, f);
      OneOut(a, |a| - 1, p, f);
      assert a[..|a| - 1] + a[|a|..] == a[..|a| - 1];
      SamePermuted(a[..|a| - 1], b[..i] + b[i + 1..], p, f);
    }
  }

  lemma TableSubset(a: seq<UsageRow>, b: seq<UsageRow>, p: Pick, k: Key, name: string)
    requires Permuted(a, b) && name in Table(a, p, k)
    ensures name in Table(b, p, k) && Table(a, p, k)[name] == Table(b, p, k)[name]
  {
    TableFits(a, p, k);
    TableIs(a, p, k, name);
    TableIs(b, p, k, name);
    var i :| 0 <= i < |a| && Picked(a[i], p) && NameOf(a[i], k) == name;
    assert a[i] in multiset(a) && a[i] in multiset(b);
    SamePermuted(a, b, Also(p, k, name), Requests);
  }

  lemma SameTable(a: seq<UsageRow>, b: seq<UsageRow>, p: Pick, k: Key)
    requires Permuted(a, b)
    ensures Table(a, p, k) == Table(b, p, k)
  {
    forall name | name in Table(a, p, k) ensures name in Table(b, p, k) && Table(a, p, k)[name] == Table(b, p, k)[name] {
      TableSubset(a, b, p, k, name);
    }
    forall name | name in Table(b, p, k) ensures name in Table(a, p, k) {
      TableSubset(b, a, p, k, name);
    }
  }

  // ---------------------------------------------------------------- the matrix

  datatype UsageMatrix = UsageMatrix(models: seq<string>, clients: seq<string>, cells: seq<seq<int>>,
                                     rowTotals: seq<int>, colTotals: seq<int>, max: int)

  function Cell(rows: seq<UsageRow>, model: string, client: string): int {
    Sum(rows, Pick(Some(model), Some(client), None), Requests)
  }

  function Zipped(names: seq<string>, counts: seq<int>): (r: seq<NameCount>)
    requires |names| == |counts|
    ensures |r| == |names|
  {
    seq(|names|, i requires 0 <= i < |names| => NameCount(names[i], counts[i]))
  }

  /** The largest cell, and zero when no cell is positive. */
  predicate IsMax(cells: seq<seq<int>>, max: int) {
    && max >= 0
    && (forall i, j | 0 <= i < |cells| && 0 <= j < |cells[i]| :: cells[i][j] <= max)
    && (max > 0 ==> exists i, j | 0 <= i < |cells| && 0 <= j < |cells[i]| :: cells[i][j] == max)
  }

  predicate MatrixOf(rows: seq<UsageRow>, mx: UsageMatrix) {
    && |mx.rowTotals| == |mx.models| && |mx.colTotals| == |mx.clients| && |mx.cells| == |mx.models|
    && RankingOf(Zipped(mx.models, mx.rowTotals), Table(rows, ALL, Model))
    && RankingOf(Zipped(mx.clients, mx.colTotals), Table(rows, ALL, Client))
    && (forall i | 0 <= i < |mx.models| :: |mx.cells[i]| == |mx.clients|)
    && (forall i, j | 0 <= i < |mx.models| && 0 <= j < |mx.clients| :: mx.cells[i][j] == Cell(rows, mx.models[i], mx.clients[j]))
    && IsMax(mx.cells, mx.max)
  }

  function SumOf(xs: seq<int>): int {
    if xs == [] then 0 else xs[0] + SumOf(xs[1..])
  }

  lemma RankedNames(names: seq<string>, counts: seq<int>, rows: seq<UsageRow>, p: Pick, k: Key)
    requires |names| == |counts| && RankingOf(Zipped(names, counts), Table(rows, p, k)) && Wanted(p, k) == None
    ensures Distinct(names)
    ensures forall i | 0 <= i < |rows| :: Picked(rows[i], p) ==> NameOf(rows[i], k) in names
    ensures forall i | 0 <= i < |names| :: counts[i] == Sum(rows, Also(p, k, names[i]), Requests)
  {
    var t, es := Table(rows, p, k), Zipped(names, counts);
    forall i, j | 0 <= i < j < |names| ensures names[i] != names[j] {
      assert es[i].name in t && es[j].name in t && Goes(es[i], es[j]);
      GoesOneWay(es[i], es[j]);
    }
    forall i | 0 <= i < |rows| && Picked(rows[i], p) ensures NameOf(rows[i], k) in names {
      TableIs(rows, p, k, NameOf(rows[i], k));
      var e := NameCount(NameOf(rows[i], k), t[NameOf(rows[i], k)]);
      assert e in es;
      var x :| 0 <= x < |es| && es[x] == e;
      assert names[x] == NameOf(rows[i], k);
    }
    forall i | 0 <= i < |names| ensures counts[i] == Sum(rows, Also(p, k, names[i]), Requests) {
      assert es[i].name in t && t[es[i].name] == es[i].count;
      TableIs(rows, p, k, names[i]);
    }
  }

  lemma {:induction false} SumOfAcross(xs: seq<int>, rows: seq<UsageRow>, p: Pick, k: Key, names: seq<string>)
    requires |xs| == |names| && forall i | 0 <= i < |xs| :: xs[i] == Sum(rows, Also(p, k, names[i]), Requests)
    ensures SumOf(xs) == Across(rows, p, k, names, Requests)
  {
    if xs != [] {
      assert forall i | 0 <= i < |xs[1..]| :: xs[1..][i] == xs[i + 1] && names[1..][i] == names[i + 1];
      SumOfAcross(xs[1..], rows, p, k, names[1..]);
    }
  }

  function Column(mx: UsageMatrix, j: nat): seq<int>
    requires forall i | 0 <= i < |mx.cells| :: j < |mx.cells[i]|
  {
    seq(|mx.cells|, i requires 0 <= i < |mx.cells| => mx.cells[i][j])
  }

  /** Each row of the matrix adds up to its total, each column to its own, and both totals to all requests. */
  lemma MatrixConserves(rows: seq<UsageRow>, mx: UsageMatrix)
    requires MatrixOf(rows, mx)
    ensures forall i | 0 <= i < |mx.models| :: SumOf(mx.cells[i]) == mx.rowTotals[i]
    ensures forall j | 0 <= j < |mx.clients| :: SumOf(Column(mx, j)) == mx.colTotals[j]
    ensures SumOf(mx.rowTotals) == Sum(rows, ALL, Requests) == SumOf(mx.colTotals)
  {
    RankedNames(mx.models, mx.rowTotals, rows, ALL, Model);
    RankedNames(mx.clients, mx.colTotals, rows, ALL, Client);
    forall i | 0 <= i < |mx.models| ensures SumOf(mx.cells[i]) == mx.rowTotals[i] {
      var p := Also(ALL, Model, mx.models[i]);
      SumOfAcross(mx.cells[i], rows, p, Client, mx.clients);
      forall x | 0 <= x < |rows| && Picked(rows[x], p) ensures NameOf(rows[x], Client) in mx.clients {
        assert Picked(rows[x], ALL);
      }
      AcrossIsWhole(rows, p, Client, mx.clients, Requests);
    }
    forall j | 0 <= j < |mx.clients| ensures SumOf(Column(mx, j)) == mx.colTotals[j] {
      var p := Also(ALL, Client, mx.clients[j]);
      SumOfAcross(Column(mx, j), rows, p, Model, mx.models);
      forall x | 0 <= x < |rows| && Picked(rows[x], p) ensures NameOf(rows[x], Model) in mx.models {
        assert Picked(rows[x], ALL);
      }
      AcrossIsWhole(rows, p, Model, mx.models, Requests);
    }
    SumOfAcross(mx.rowTotals, rows, ALL, Model, mx.models);
    AcrossIsWhole(rows, ALL, Model, mx.models, Requests);
    SumOfAcross(mx.colTotals, rows, ALL, Client, mx.clients);
    AcrossIsWhole(rows, ALL, Client, mx.clients, Requests);
  }

  lemma MaxIsUnique(cells: seq<seq<int>>, m: int, n: int)
    requires IsMax(cells, m) && IsMax(cells, n)
    ensures m == n
  {
  }

  lemma EntriesInjective(a: seq<string>, x: seq<int>, b: seq<string>, y: seq<int>)
    requires |a| == |x| && |b| == |y| && Zipped(a, x) == Zipped(b, y)
    ensures a == b && x == y
  {
    assert |a| == |b|;
    forall i | 0 <= i < |a| ensures a[i] == b[i] && x[i] == y[i] {
      assert Zipped(a, x)[i] == Zipped(b, y)[i];
    }
  }

  /** Rows in another order give the very same matrix, order of models and clients included. */
  lemma MatrixIgnoresOrder(a: seq<UsageRow>, b: seq<UsageRow>, mx: UsageMatrix, my: UsageMatrix)
    requires Permuted(a, b) && MatrixOf(a, mx) && MatrixOf(b, my)
    ensures mx == my
  {
    SameTable(a, b, ALL, Model);
    SameTable(a, b, ALL, Client);
    RankingIsUnique(Zipped(mx.models, mx.rowTotals), Zipped(my.models, my.rowTotals), Table(a, ALL, Model));
    RankingIsUnique(Zipped(mx.clients, mx.colTotals), Zipped(my.clients, my.colTotals), Table(a, ALL, Client));
    EntriesInjective(mx.models, mx.rowTotals, my.models, my.rowTotals);
    EntriesInjective(mx.clients, mx.colTotals, my.clients, my.colTotals);
    forall i | 0 <= i < |mx.models| ensures mx.cells[i] == my.cells[i] {
      forall j | 0 <= j < |mx.clients| ensures mx.cells[i][j] == my.cells[i][j] {
        SamePermuted(a, b, Pick(Some(mx.models[i]), Some(mx.clients[j]), None), Requests);
      }
    }
    MaxIsUnique(mx.cells, mx.max, my.max);
  }
}
