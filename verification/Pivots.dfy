/** The pivots and the matrix as the dashboard computes them: accumulators filled row by row. */
module Pivots {
  import opened Wrappers
  import opened Rankings
  import opened Usage

  function NamesOf(r: seq<NameCount>): (names: seq<string>)
    ensures |names| == |r|
  {
    seq(|r|, i requires 0 <= i < |r| => r[i].name)
  }

  function CountsOf(r: seq<NameCount>): (counts: seq<int>)
    ensures |counts| == |r|
  {
    seq(|r|, i requires 0 <= i < |r| => r[i].count)
  }

  lemma EntriesOfRanking(r: seq<NameCount>)
    ensures Zipped(NamesOf(r), CountsOf(r)) == r
  {
  }

  function CountIn(t: map<string, int>, name: string): int {
    if name in t then t[name] else 0
  }

  // ---------------------------------------------------------------- one aggregate

  datatype UsageAgg = UsageAgg(name: string, requests: int, failed: int, busyMs: int, promptTokens: int, outputTokens: int,
                               queueMsAvg: int, lastUsed: nat, servers: seq<string>, clients: seq<string>, topModels: seq<NameCount>)

  /** Rounded half up, as the conversion of a non-negative float plus one half. */
  function RoundedAvg(sum: int, n: int): int {
    if n > 0 then (sum as real / n as real + 0.5).Floor else 0
  }

  /** The average is off by half a millisecond at most. */
  lemma AverageIsClose(sum: int, n: int)
    requires n > 0
    ensures -1.0 <= 2.0 * (RoundedAvg(sum, n) as real - sum as real / n as real) <= 1.0
  {
  }

  /** Rows that all waited alike have that average, however many requests each stands for. */
  lemma {:induction false} AlikeAverage(rows: seq<UsageRow>, p: Pick, q: int)
    requires forall i | 0 <= i < |rows| && Picked(rows[i], p) :: rows[i].queueMsAvg == q
    ensures Sum(rows, p, QueueWeighted) == q * Sum(rows, p, Requests)
    ensures Sum(rows, p, Requests) > 0 ==> RoundedAvg(Sum(rows, p, QueueWeighted), Sum(rows, p, Requests)) == q
  {
    if rows != [] {
      var rest, r := rows[..|rows| - 1], rows[|rows| - 1];
      AlikeAverage(rest, p, q);
      Distribute(q, Sum(rest, p, Requests), r.requests);
    }
    if Sum(rows, p, Requests) > 0 { WholeAverage(q, Sum(rows, p, Requests)); }
  }

  lemma Distribute(q: int, a: int, b: int)
    ensures q * (a + b) == q * a + q * b && b * q == q * b
  {
  }

  lemma WholeAverage(q: int, n: int)
    requires n > 0
    ensures RoundedAvg(q * n, n) == q
  {
    assert (q * n) as real == q as real * n as real;
    assert (q * n) as real / n as real == q as real;
  }

  function AggAmount(a: UsageAgg, f: Field): int {
    match f
    case Requests => a.requests
    case Failed => a.failed
    case BusyMs => a.busyMs
    case PromptTokens => a.promptTokens
    case OutputTokens => a.outputTokens
    case QueueWeighted => 0
  }

  ghost predicate NamesRanked(names: seq<string>, t: map<string, int>) {
    exists r: seq<NameCount> | RankingOf(r, t) :: names == NamesOf(r)
  }

  ghost predicate AggOf(rows: seq<UsageRow>, p: Pick, name: string, a: UsageAgg) {
    && a.name == name && (forall f: Field | f != QueueWeighted :: AggAmount(a, f) == Sum(rows, p, f))
    && a.queueMsAvg == RoundedAvg(Sum(rows, p, QueueWeighted), Sum(rows, p, Requests))
    && a.lastUsed == LastUsed(rows, p)
    && NamesRanked(a.servers, Table(rows, p, Server)) && NamesRanked(a.clients, Table(rows, p, Client))
    && RankingOf(a.topModels, Table(rows, p, Model))
  }

  lemma NamesRankedUnique(a: seq<string>, b: seq<string>, t: map<string, int>)
    requires NamesRanked(a, t) && NamesRanked(b, t)
    ensures a == b
  {
    var r: seq<NameCount> :| RankingOf(r, t) && a == NamesOf(r);
    var s: seq<NameCount> :| RankingOf(s, t) && b == NamesOf(s);
    RankingIsUnique(r, s, t);
  }

  lemma AggIgnoresOrder(x: seq<UsageRow>, y: seq<UsageRow>, p: Pick, name: string, a: UsageAgg, b: UsageAgg)
    requires Permuted(x, y) && AggOf(x, p, name, a) && AggOf(y, p, name, b)
    ensures a == b
  {
    forall f: Field ensures Sum(x, p, f) == Sum(y, p, f) && LastUsed(x, p) == LastUsed(y, p) { SamePermuted(x, y, p, f); }
    forall k: Key ensures Table(x, p, k) == Table(y, p, k) { SameTable(x, y, p, k); }
    assert forall f: Field | f != QueueWeighted :: AggAmount(a, f) == AggAmount(b, f);
    assert AggAmount(a, Requests) == AggAmount(b, Requests) && AggAmount(a, Failed) == AggAmount(b, Failed);
    assert AggAmount(a, BusyMs) == AggAmount(b, BusyMs) && AggAmount(a, PromptTokens) == AggAmount(b, PromptTokens);
    assert AggAmount(a, OutputTokens) == AggAmount(b, OutputTokens);
    NamesRankedUnique(a.servers, b.servers, Table(x, p, Server));
    NamesRankedUnique(a.clients, b.clients, Table(x, p, Client));
    RankingIsUnique(a.topModels, b.topModels, Table(x, p, Model));
  }

  /** What an accumulator holds. */
  datatype Totals = Totals(requests: int, failed: int, busyMs: int, promptTokens: int, outputTokens: int, queueSum: int,
                           lastUsed: nat, servers: map<string, int>, clients: map<string, int>, models: map<string, int>)

  function TotalsOf(rows: seq<UsageRow>, p: Pick): Totals {
    Totals(Sum(rows, p, Requests), Sum(rows, p, Failed), Sum(rows, p, BusyMs), Sum(rows, p, PromptTokens),
           Sum(rows, p, OutputTokens), Sum(rows, p, QueueWeighted), LastUsed(rows, p),
           Table(rows, p, Server), Table(rows, p, Client), Table(rows, p, Model))
  }

  function Bumped(t: map<string, int>, name: string, n: int): map<string, int> {
    t[name := CountIn(t, name) + n]
  }

  function Added(t: Totals, r: UsageRow): Totals {
    Totals(t.requests + r.requests, t.failed + r.failed, t.busyMs + r.busyMs, t.promptTokens + r.promptTokens,
           t.outputTokens + r.outputTokens, t.queueSum + Amount(r, QueueWeighted),
           if r.lastUsed > t.lastUsed then r.lastUsed else t.lastUsed,
           Bumped(t.servers, NameOf(r, Server), r.requests), Bumped(t.clients, NameOf(r, Client), r.requests),
           Bumped(t.models, NameOf(r, Model), r.requests))
  }

  /** A row counts where it is picked and nowhere else. */
  lemma OneMoreRow(rows: seq<UsageRow>, r: UsageRow, p: Pick)
    ensures TotalsOf(rows + [r], p) == if Picked(r, p) then Added(TotalsOf(rows, p), r) else TotalsOf(rows, p)
  {
    assert (rows + [r])[..|rows|] == rows;
  }

  class UsageAccum {
    const name: string
    var requests: int
    var failed: int
    var busyMs: int
    var promptTokens: int
    var outputTokens: int
    var queueSum: int
    var lastUsed: nat
    var servers: map<string, int>
    var clients: map<string, int>
    var models: map<string, int>

    constructor (name: string)
      ensures this.name == name && State() == Totals(0, 0, 0, 0, 0, 0, 0, map[], map[], map[])
    {
      this.name := name;
      requests, failed, busyMs, promptTokens, outputTokens, queueSum, lastUsed := 0, 0, 0, 0, 0, 0, 0;
      servers, clients, models := map[], map[], map[];
    }

    ghost function State(): Totals
      reads this
    {
      Totals(requests, failed, busyMs, promptTokens, outputTokens, queueSum, lastUsed, servers, clients, models)
    }

    method Add(r: UsageRow)
      modifies this
      ensures State() == Added(old(State()), r)
    {
      AddAmounts(r);
      AddNames(ServerLabel(r.server), ClientLabel(r.client), r.model, r.requests);
    }

    method AddAmounts(r: UsageRow)
      modifies this`requests, this`failed, this`busyMs, this`promptTokens, this`outputTokens, this`queueSum, this`lastUsed
      ensures requests == old(requests) + r.requests && failed == old(failed) + r.failed && busyMs == old(busyMs) + r.busyMs
      ensures promptTokens == old(promptTokens) + r.promptTokens && outputTokens == old(outputTokens) + r.outputTokens
      ensures queueSum == old(queueSum) + Amount(r, QueueWeighted)
      ensures lastUsed == if r.lastUsed > old(lastUsed) then r.lastUsed else old(lastUsed)
    {
      requests, failed, busyMs := requests + r.requests, failed + r.failed, busyMs + r.busyMs;
      promptTokens, outputTokens := promptTokens + r.promptTokens, outputTokens + r.outputTokens;
      queueSum := queueSum + r.requests * r.queueMsAvg;
      if r.lastUsed > lastUsed {
        lastUsed := r.lastUsed;
      }
    }

    method AddNames(server: string, client: string, model: string, n: int)
      modifies this`servers, this`clients, this`models
      ensures servers == Bumped(old(servers), server, n) && clients == Bumped(old(clients), client, n) && models == Bumped(old(models), model, n)
    {
      servers := servers[server := CountIn(servers, server) + n];
      clients := clients[client := CountIn(clients, client) + n];
      models := models[model := CountIn(models, model) + n];
    }

    method Finish(ghost rows: seq<UsageRow>, ghost p: Pick) returns (a: UsageAgg)
      requires State() == TotalsOf(rows, p)
      ensures AggOf(rows, p, name, a)
    {
      var avg := RoundedAvg(queueSum, requests);
      var s := SortedCounts(servers);
      var c := SortedCounts(clients);
      var m := SortedCounts(models);
      a := UsageAgg(name, requests, failed, busyMs, promptTokens, outputTokens, avg, lastUsed, NamesOf(s), NamesOf(c), m);
    }
  }

  // ---------------------------------------------------------------- the pivot

  ghost predicate PivotOf(rows: seq<UsageRow>, k: Key, out: seq<UsageAgg>) {
    && RankingOf(RequestsOf(out), Table(rows, ALL, k))
    && forall i | 0 <= i < |out| :: AggOf(rows, Also(ALL, k, out[i].name), out[i].name, out[i])
  }

  function RequestsOf(out: seq<UsageAgg>): (r: seq<NameCount>)
    ensures |r| == |out|
  {
    seq(|out|, i requires 0 <= i < |out| => NameCount(out[i].name, out[i].requests))
  }

  function SumOfField(out: seq<UsageAgg>, f: Field): int {
    if out == [] then 0 else AggAmount(out[0], f) + SumOfField(out[1..], f)
  }

  lemma {:induction false} SumOfFieldAcross(out: seq<UsageAgg>, rows: seq<UsageRow>, k: Key, f: Field)
    requires f != QueueWeighted
    requires forall i | 0 <= i < |out| :: AggOf(rows, Also(ALL, k, out[i].name), out[i].name, out[i])
    ensures SumOfField(out, f) == Across(rows, ALL, k, NamesOf(RequestsOf(out)), f)
  {
    if out != [] {
      assert NamesOf(RequestsOf(out))[1..] == NamesOf(RequestsOf(out[1..]));
      assert forall i | 0 <= i < |out[1..]| :: out[1..][i] == out[i + 1];
      SumOfFieldAcross(out[1..], rows, k, f);
    }
  }

  /** A pivot's aggregates add up to all rows, in every summed field. */
  lemma PivotConserves(rows: seq<UsageRow>, k: Key, out: seq<UsageAgg>, f: Field)
    requires PivotOf(rows, k, out) && f != QueueWeighted
    ensures SumOfField(out, f) == Sum(rows, ALL, f)
  {
    var r := RequestsOf(out);
    EntriesOfRanking(r);
    RankedNames(NamesOf(r), CountsOf(r), rows, ALL, k);
    SumOfFieldAcross(out, rows, k, f);
    AcrossIsWhole(rows, ALL, k, NamesOf(r), f);
  }

  lemma {:induction false} PickedHasName(rows: seq<UsageRow>, k: Key, i: nat)
    requires i < |rows|
    ensures NameOf(rows[i], k) in Table(rows, ALL, k)
    decreases |rows|
  {
    if i < |rows| - 1 {
      PickedHasName(rows[..|rows| - 1], k, i);
    }
  }

  /** A row counts under its own name; without a client under "(anonymous)", without a server under a dash. */
  lemma EveryRowIsShown(rows: seq<UsageRow>, k: Key, out: seq<UsageAgg>, i: nat)
    requires PivotOf(rows, k, out) && i < |rows|
    ensures var r := rows[i];
            var name := match k
                        case Model => r.model
                        case Client => if r.client != "" then r.client else "(anonymous)"
                        case Server => if r.server != "" then r.server else "\U{2014}";
            exists a :: a in out && a.name == name
  {
    PickedHasName(rows, k, i);
    var x := RequestsOf(out);
    assert RankingOf(x, Table(rows, ALL, k));
    var n :| 0 <= n < |x| && x[n].name == NameOf(rows[i], k);
    assert out[n].name == NameOf(rows[i], k);
  }

  /** Rows in another order give the very same pivot. */
  lemma PivotIgnoresOrder(x: seq<UsageRow>, y: seq<UsageRow>, k: Key, a: seq<UsageAgg>, b: seq<UsageAgg>)
    requires Permuted(x, y) && PivotOf(x, k, a) && PivotOf(y, k, b)
    ensures a == b
  {
    SameTable(x, y, ALL, k);
    RankingIsUnique(RequestsOf(a), RequestsOf(b), Table(x, ALL, k));
    assert |a| == |b|;
    forall i | 0 <= i < |a| ensures a[i] == b[i] {
      assert RequestsOf(a)[i] == RequestsOf(b)[i];
      AggIgnoresOrder(x, y, Also(ALL, k, a[i].name), a[i].name, a[i], b[i]);
    }
  }

  lemma {:induction false} UnseenIsEmpty(rows: seq<UsageRow>, k: Key, name: string)
    requires forall i | 0 <= i < |rows| :: NameOf(rows[i], k) != name
    ensures TotalsOf(rows, Also(ALL, k, name)) == Totals(0, 0, 0, 0, 0, 0, 0, map[], map[], map[])
  {
    if rows != [] {
      var rest, r := rows[..|rows| - 1], rows[|rows| - 1];
      UnseenIsEmpty(rest, k, name);
      assert rows == rest + [r];
      OneMoreRow(rest, r, Also(ALL, k, name));
      AlsoPicks(r, ALL, k, name);
    }
  }

  predicate Seen(rows: seq<UsageRow>, k: Key, n: string) {
    exists i | 0 <= i < |rows| :: NameOf(rows[i], k) == n
  }

  /** Each accumulator holds the totals of the rows of its name. */
  ghost predicate HoldAll(rows: seq<UsageRow>, k: Key, accs: map<string, UsageAccum>)
    reads accs.Values
  {
    forall n | n in accs :: accs[n].name == n && accs[n].State() == TotalsOf(rows, Also(ALL, k, n))
  }

  predicate Apart(accs: map<string, UsageAccum>) {
    forall m, n | m in accs && n in accs && m != n :: accs[m] != accs[n]
  }

  predicate NamesSeen(rows: seq<UsageRow>, k: Key, accs: map<string, UsageAccum>) {
    (forall n | n in accs :: Seen(rows, k, n)) && forall i | 0 <= i < |rows| :: NameOf(rows[i], k) in accs
  }

  const NOTHING := Totals(0, 0, 0, 0, 0, 0, 0, map[], map[], map[])

  /** The row goes to the accumulator of its name, new or not. */
  method AddTo(accs: map<string, UsageAccum>, name: string, r: UsageRow) returns (accs': map<string, UsageAccum>)
    requires Apart(accs) && forall n | n in accs :: accs[n].name == n
    modifies accs.Values
    ensures accs'.Keys == accs.Keys + {name} && Apart(accs')
    ensures forall n | n in accs' :: accs'[n].name == n && (if n in accs then accs'[n] == accs[n] else fresh(accs'[n]))
    ensures forall n | n in accs && n != name :: accs[n].State() == old(accs[n].State())
    ensures accs'[name].State() == Added(if name in accs then old(accs[name].State()) else NOTHING, r)
  {
    accs' := accs;
    if name !in accs {
      var a := new UsageAccum(name);
      accs' := accs[name := a];
    }
    accs'[name].Add(r);
  }

  lemma AccumulatedMore(rows: seq<UsageRow>, r: UsageRow, k: Key, n: string)
    ensures var p := Also(ALL, k, n);
            TotalsOf(rows + [r], p) == if NameOf(r, k) == n then Added(TotalsOf(rows, p), r) else TotalsOf(rows, p)
  {
    OneMoreRow(rows, r, Also(ALL, k, n));
    AlsoPicks(r, ALL, k, n);
  }

  lemma SeenMore(rows: seq<UsageRow>, r: UsageRow, k: Key, n: string)
    requires Seen(rows, k, n)
    ensures Seen(rows + [r], k, n)
  {
    var i :| 0 <= i < |rows| && NameOf(rows[i], k) == n;
    assert NameOf((rows + [r])[i], k) == n;
  }

  lemma NamesSeenMore(rows: seq<UsageRow>, r: UsageRow, k: Key, accs: map<string, UsageAccum>, accs': map<string, UsageAccum>)
    requires NamesSeen(rows, k, accs) && accs'.Keys == accs.Keys + {NameOf(r, k)}
    ensures NamesSeen(rows + [r], k, accs')
  {
    forall n | n in accs' ensures Seen(rows + [r], k, n) {
      if n in accs { SeenMore(rows, r, k, n); } else { assert NameOf((rows + [r])[|rows|], k) == n; }
    }
  }

  method TakeRow(ghost rows: seq<UsageRow>, r: UsageRow, k: Key, accs: map<string, UsageAccum>) returns (accs': map<string, UsageAccum>)
    requires NamesSeen(rows, k, accs) && HoldAll(rows, k, accs) && Apart(accs)
    modifies accs.Values
    ensures NamesSeen(rows + [r], k, accs') && HoldAll(rows + [r], k, accs') && Apart(accs')
    ensures forall n | n in accs' :: (n in accs && accs'[n] == accs[n]) || fresh(accs'[n])
  {
    var name := NameOf(r, k);
    if name !in accs {
      UnseenIsEmpty(rows, k, name);
    }
    accs' := AddTo(accs, name, r);
    NamesSeenMore(rows, r, k, accs, accs');
    forall n | n in accs' ensures accs'[n].State() == TotalsOf(rows + [r], Also(ALL, k, n)) {
      AccumulatedMore(rows, r, k, n);
      if n != name {
        assert n in accs && accs'[n] == accs[n];
        assert accs'[n].State() == old(accs[n].State());
      }
    }
  }

  method Accumulate(rows: seq<UsageRow>, k: Key) returns (accs: map<string, UsageAccum>)
    ensures NamesSeen(rows, k, accs) && HoldAll(rows, k, accs)
  {
    accs := map[];
    for i := 0 to |rows|
      invariant NamesSeen(rows[..i], k, accs) && HoldAll(rows[..i], k, accs) && Apart(accs)
      invariant forall n | n in accs :: fresh(accs[n])
    {
      assert rows[..i + 1] == rows[..i] + [rows[i]];
      accs := TakeRow(rows[..i], rows[i], k, accs);
    }
    assert rows[..|rows|] == rows;
  }

  method PivotUsage(rows: seq<UsageRow>, k: Key) returns (out: seq<UsageAgg>)
    ensures PivotOf(rows, k, out)
  {
    var accs := Accumulate(rows, k);
    var counts := map n | n in accs :: accs[n].requests;
    TableOfAccs(rows, k, accs, counts);
    var order := SortedCounts(counts);
    out := FinishAll(rows, k, accs, order);
  }

  method FinishAll(ghost rows: seq<UsageRow>, ghost k: Key, accs: map<string, UsageAccum>, order: seq<NameCount>)
    returns (out: seq<UsageAgg>)
    requires HoldAll(rows, k, accs)
    requires forall i | 0 <= i < |order| :: order[i].name in accs && order[i].count == Sum(rows, Also(ALL, k, order[i].name), Requests)
    ensures RequestsOf(out) == order
    ensures forall x | 0 <= x < |out| :: AggOf(rows, Also(ALL, k, out[x].name), out[x].name, out[x])
  {
    out := [];
    for i := 0 to |order|
      invariant |out| == i && RequestsOf(out) == order[..i]
      invariant forall x | 0 <= x < i :: AggOf(rows, Also(ALL, k, out[x].name), out[x].name, out[x])
    {
      var name := order[i].name;
      var a := FinishOne(rows, k, name, accs[name]);
      out := out + [a];
      assert RequestsOf(out) == order[..i] + [order[i]];
    }
    assert order[..|order|] == order;
  }

  method FinishOne(ghost rows: seq<UsageRow>, ghost k: Key, name: string, acc: UsageAccum) returns (a: UsageAgg)
    requires acc.name == name && acc.State() == TotalsOf(rows, Also(ALL, k, name))
    ensures AggOf(rows, Also(ALL, k, name), name, a) && a.name == name && a.requests == Sum(rows, Also(ALL, k, name), Requests)
  {
    a := acc.Finish(rows, Also(ALL, k, name));
    assert AggAmount(a, Requests) == a.requests;
  }

  lemma AccIsEntry(rows: seq<UsageRow>, k: Key, accs: map<string, UsageAccum>, n: string)
    requires NamesSeen(rows, k, accs) && HoldAll(rows, k, accs) && n in accs
    ensures n in Table(rows, ALL, k) && accs[n].requests == Table(rows, ALL, k)[n] == Sum(rows, Also(ALL, k, n), Requests)
  {
    assert accs[n].State().requests == Sum(rows, Also(ALL, k, n), Requests);
    var i :| 0 <= i < |rows| && NameOf(rows[i], k) == n;
    assert Picked(rows[i], ALL);
    TableIs(rows, ALL, k, n);
  }

  lemma TableOfAccs(rows: seq<UsageRow>, k: Key, accs: map<string, UsageAccum>, counts: map<string, int>)
    requires NamesSeen(rows, k, accs) && HoldAll(rows, k, accs)
    requires counts.Keys == accs.Keys && forall n | n in accs :: counts[n] == accs[n].requests
    ensures counts == Table(rows, ALL, k)
    ensures forall n | n in counts :: counts[n] == Sum(rows, Also(ALL, k, n), Requests)
  {
    forall n | n in counts ensures n in Table(rows, ALL, k) && counts[n] == Table(rows, ALL, k)[n] == Sum(rows, Also(ALL, k, n), Requests) {
      AccIsEntry(rows, k, accs, n);
    }
    forall n | n in Table(rows, ALL, k) ensures n in counts {
      TableIs(rows, ALL, k, n);
    }
  }

  // ---------------------------------------------------------------- the matrix

  function CellIn(cell: map<(string, string), int>, m: string, c: string): int {
    if (m, c) in cell then cell[(m, c)] else 0
  }

  lemma CellMore(rows: seq<UsageRow>, r: UsageRow, m: string, c: string)
    ensures Cell(rows + [r], m, c) == Cell(rows, m, c) + if r.model == m && ClientLabel(r.client) == c then r.requests else 0
  {
    assert (rows + [r])[..|rows|] == rows;
  }

  lemma TableMore(rows: seq<UsageRow>, r: UsageRow, k: Key)
    ensures Table(rows + [r], ALL, k) == Bumped(Table(rows, ALL, k), NameOf(r, k), r.requests)
  {
    assert (rows + [r])[..|rows|] == rows;
  }

  lemma CellBumped(cell: map<(string, string), int>, m: string, c: string, n: int, x: string, y: string)
    ensures CellIn(cell[(m, c) := CellIn(cell, m, c) + n], x, y) == CellIn(cell, x, y) + if x == m && y == c then n else 0
  {
  }

  method CountCells(rows: seq<UsageRow>) returns (cell: map<(string, string), int>, rowT: map<string, int>, colT: map<string, int>)
    ensures forall m, c :: CellIn(cell, m, c) == Cell(rows, m, c)
    ensures rowT == Table(rows, ALL, Model) && colT == Table(rows, ALL, Client)
  {
    cell, rowT, colT := map[], map[], map[];
    for i := 0 to |rows|
      invariant forall m, c :: CellIn(cell, m, c) == Cell(rows[..i], m, c)
      invariant rowT == Table(rows[..i], ALL, Model) && colT == Table(rows[..i], ALL, Client)
    {
      var r := rows[i];
      assert rows[..i + 1] == rows[..i] + [r];
      TableMore(rows[..i], r, Model);
      TableMore(rows[..i], r, Client);
      var c := ClientLabel(r.client);
      var cell' := cell[(r.model, c) := CellIn(cell, r.model, c) + r.requests];
      forall x, y ensures CellIn(cell', x, y) == Cell(rows[..i + 1], x, y) {
        CellMore(rows[..i], r, x, y);
        CellBumped(cell, r.model, c, r.requests, x, y);
      }
      cell := cell';
      rowT := Bumped(rowT, r.model, r.requests);
      colT := Bumped(colT, c, r.requests);
    }
    assert rows[..|rows|] == rows;
  }

  method BuildMatrix(rows: seq<UsageRow>) returns (mx: UsageMatrix)
    ensures MatrixOf(rows, mx)
  {
    var cell, rowT, colT := CountCells(rows);
    var models := SortedCounts(rowT);
    var clients := SortedCounts(colT);
    EntriesOfRanking(models);
    EntriesOfRanking(clients);
    var cells, max := FillCells(cell, NamesOf(models), NamesOf(clients));
    mx := UsageMatrix(NamesOf(models), NamesOf(clients), cells, CountsOf(models), CountsOf(clients), max);
  }

  method FillCells(cell: map<(string, string), int>, models: seq<string>, clients: seq<string>)
    returns (cells: seq<seq<int>>, max: int)
    ensures |cells| == |models| && forall i | 0 <= i < |models| :: |cells[i]| == |clients|
    ensures forall i, j | 0 <= i < |models| && 0 <= j < |clients| :: cells[i][j] == CellIn(cell, models[i], clients[j])
    ensures IsMax(cells, max)
  {
    cells, max := [], 0;
    for i := 0 to |models|
      invariant |cells| == i && forall x | 0 <= x < i :: |cells[x]| == |clients|
      invariant forall x, y | 0 <= x < i && 0 <= y < |clients| :: cells[x][y] == CellIn(cell, models[x], clients[y])
      invariant IsMax(cells, max)
    {
      var row: seq<int> := [];
      ghost var before := max;
      for j := 0 to |clients|
        invariant |row| == j && forall y | 0 <= y < j :: row[y] == CellIn(cell, models[i], clients[y])
        invariant before <= max && (forall y | 0 <= y < j :: row[y] <= max)
        invariant max == before || exists y | 0 <= y < j :: row[y] == max
      {
        var v := CellIn(cell, models[i], clients[j]);
        row := row + [v];
        assert row[j] == v;
        if v > max {
          max := v;
        }
      }
      ghost var was := cells;
      cells := cells + [row];
      MaxGrows(was, row, before, max);
    }
  }

  lemma MaxGrows(cells: seq<seq<int>>, row: seq<int>, before: int, max: int)
    requires IsMax(cells, before) && before <= max && (forall y | 0 <= y < |row| :: row[y] <= max)
    requires max == before || exists y | 0 <= y < |row| :: row[y] == max
    ensures IsMax(cells + [row], max)
  {
    var more := cells + [row];
    assert more[|cells|] == row;
    if max > 0 {
      if max == before {
        var i, j :| 0 <= i < |cells| && 0 <= j < |cells[i]| && cells[i][j] == max;
        assert more[i][j] == max;
      } else {
        var y :| 0 <= y < |row| && row[y] == max;
        assert more[|cells|][y] == max;
      }
    }
  }
}
