/**
 The performance buffers and their table: what a live tracker holds, what the table holds after any trims,
 and that a restart gives the buffers back.
 */
module Persistence {
  import opened Wrappers
  import opened Ridge

  const MAX_OBSERVATIONS: nat := 1000
  const ENQUEUE_CAP: nat := 1024

  datatype Key = Key(server: string, model: string, endpoint: string)

  datatype Row = Row(key: Key, obs: Obs)

  /** A row of the table; ids are given out in order and never reused. */
  datatype Stored = Stored(id: nat, row: Row)

  // ---------------------------------------------------------------- specification

  /** The newest `n` of a sequence. */
  function LastN<T>(s: seq<T>, n: nat): (r: seq<T>)
    ensures |r| == if |s| > n then n else |s|
  {
    if |s| > n then s[|s| - n..] else s
  }

  lemma LastNTwice<T>(s: seq<T>, t: seq<T>, m: nat, n: nat)
    requires n <= m
    ensures LastN(LastN(s, m) + t, n) == LastN(s + t, n)
  {
    if |s| > m && |s| + |t| > n {
      assert LastN(s, m) + t == (s + t)[|s| - m..];
    }
  }

  /** The observation that Record keeps, if it keeps any. */
  function Accepted(inTok: int, outTok: int, totalMs: int, loaded: bool): Option<Obs> {
    if totalMs <= 0 || outTok <= 0 then None else Some(Obs(if inTok < 0 then 0 else inTok, outTok, totalMs, loaded))
  }

  function Slot(m: map<Key, seq<Obs>>, k: Key): seq<Obs> {
    if k in m then m[k] else []
  }

  function Recorded(m: map<Key, seq<Obs>>, k: Key, o: Obs): map<Key, seq<Obs>> {
    m[k := LastN(Slot(m, k) + [o], MAX_OBSERVATIONS)]
  }

  /** The observations of one key, oldest first. */
  function Of(rows: seq<Row>, k: Key): seq<Obs> {
    if rows == [] then []
    else Of(rows[..|rows| - 1], k) + if rows[|rows| - 1].key == k then [rows[|rows| - 1].obs] else []
  }

  function RowsOf(table: seq<Stored>): (r: seq<Row>)
    ensures |r| == |table|
  {
    seq(|table|, i requires 0 <= i < |table| => table[i].row)
  }

  /** The table in the order of its ids, all below the next one. */
  predicate InIdOrder(table: seq<Stored>, nextId: nat) {
    && (forall i, j | 0 <= i < j < |table| :: table[i].id < table[j].id)
    && (forall i | 0 <= i < |table| :: table[i].id < nextId)
  }

  /** How many rows of the same key have a greater id. */
  function Newer(table: seq<Stored>, p: Stored): nat {
    if table == [] then 0
    else Newer(table[..|table| - 1], p)
         + if table[|table| - 1].row.key == p.row.key && table[|table| - 1].id > p.id then 1 else 0
  }

  /** Delete every row that has at least `cap` newer ones of its key among `all`. */
  function Kept(all: seq<Stored>, part: seq<Stored>, cap: nat): seq<Stored> {
    if part == [] then []
    else Kept(all, part[..|part| - 1], cap) + if Newer(all, part[|part| - 1]) >= cap then [] else [part[|part| - 1]]
  }

  function Trimmed(table: seq<Stored>, cap: int): seq<Stored> {
    if cap <= 0 then table else Kept(table, table, cap)
  }

  // ---------------------------------------------------------------- trimming keeps the newest of each key

  lemma {:induction false} OfConcat(s: seq<Row>, t: seq<Row>, k: Key)
    ensures Of(s + t, k) == Of(s, k) + Of(t, k)
  {
    if t == [] {
      assert s + t == s;
    } else {
      OfConcat(s, t[..|t| - 1], k);
      assert (s + t)[..|s + t| - 1] == s + t[..|t| - 1];
    }
  }

  lemma {:induction false} NewerIs(table: seq<Stored>, i: nat, nextId: nat)
    requires InIdOrder(table, nextId) && i < |table|
    ensures Newer(table, table[i]) == |Of(RowsOf(table[i + 1..]), table[i].row.key)|
    decreases |table|
  {
    var rest, last := table[..|table| - 1], table[|table| - 1];
    if i == |table| - 1 {
      NoneNewer(rest, last, nextId);
      assert table[i + 1..] == [];
    } else {
      NewerIs(rest, i, nextId);
      assert table[i + 1..] == rest[i + 1..] + [last];
      assert RowsOf(table[i + 1..])[..|table[i + 1..]| - 1] == RowsOf(rest[i + 1..]);
    }
  }

  lemma {:induction false} NoneNewer(rest: seq<Stored>, p: Stored, nextId: nat)
    requires forall j | 0 <= j < |rest| :: rest[j].id <= p.id
    ensures Newer(rest, p) == 0
  {
    if rest != [] {
      NoneNewer(rest[..|rest| - 1], p, nextId);
    }
  }

  function OneOf(row: Row, k: Key): seq<Obs> {
    if row.key == k then [row.obs] else []
  }

  lemma SplitAt(table: seq<Stored>, n: nat, k: Key)
    requires n < |table|
    ensures Of(RowsOf(table[..n + 1]), k) == Of(RowsOf(table[..n]), k) + OneOf(table[n].row, k)
    ensures Of(RowsOf(table[n..]), k) == OneOf(table[n].row, k) + Of(RowsOf(table[n + 1..]), k)
  {
    assert RowsOf(table[..n + 1]) == RowsOf(table[..n]) + [table[n].row];
    OfConcat(RowsOf(table[..n]), [table[n].row], k);
    assert RowsOf(table[n..]) == [table[n].row] + RowsOf(table[n + 1..]);
    OfConcat([table[n].row], RowsOf(table[n + 1..]), k);
    assert Of([table[n].row], k) == OneOf(table[n].row, k) by { assert [table[n].row][..0] == []; }
  }

  lemma KeptNext(table: seq<Stored>, n: nat, cap: nat, k: Key)
    requires n < |table|
    ensures var p := table[n];
            Of(RowsOf(Kept(table, table[..n + 1], cap)), k)
            == Of(RowsOf(Kept(table, table[..n], cap)), k) + if Newer(table, p) >= cap then [] else OneOf(p.row, k)
  {
    assert table[..n + 1][..n] == table[..n];
    var kept := Kept(table, table[..n], cap);
    if Newer(table, table[n]) < cap {
      SplitAt(kept + [table[n]], |kept|, k);
      assert (kept + [table[n]])[..|kept|] == kept && (kept + [table[n]])[..|kept| + 1] == kept + [table[n]];
    } else {
      assert kept + [] == kept;
    }
  }

  /** What of `s` is among the newest `cap` of `s` and `later` more. */
  function Surviving<T>(s: seq<T>, cap: nat, later: nat): seq<T> {
    if later >= cap then [] else LastN(s, cap - later)
  }

  lemma SurvivingNext<T>(s: seq<T>, x: T, cap: nat, later: nat)
    requires cap > 0
    ensures Surviving(s + [x], cap, later) == Surviving(s, cap, later + 1) + if later >= cap then [] else [x]
  {
    if later < cap && |s| + 1 > cap - later {
      assert (s + [x])[|s| + 1 - (cap - later)..] == s[|s| + 1 - (cap - later)..] + [x];
    }
  }

  /** Of the first `n` rows, a trim keeps for key `k` those that are among the newest `cap` of all. */
  lemma {:induction false} KeptOf(table: seq<Stored>, n: nat, cap: nat, k: Key, nextId: nat)
    requires InIdOrder(table, nextId) && n <= |table| && cap > 0
    ensures Of(RowsOf(Kept(table, table[..n], cap)), k)
            == Surviving(Of(RowsOf(table[..n]), k), cap, |Of(RowsOf(table[n..]), k)|)
    decreases n
  {
    if n > 0 {
      var m := n - 1;
      KeptOf(table, m, cap, k, nextId);
      KeptOfNext(table, m, cap, k, nextId);
    }
  }

  lemma KeptOfNext(table: seq<Stored>, m: nat, cap: nat, k: Key, nextId: nat)
    requires InIdOrder(table, nextId) && m < |table| && cap > 0
    requires Of(RowsOf(Kept(table, table[..m], cap)), k) == Surviving(Of(RowsOf(table[..m]), k), cap, |Of(RowsOf(table[m..]), k)|)
    ensures Of(RowsOf(Kept(table, table[..m + 1], cap)), k)
            == Surviving(Of(RowsOf(table[..m + 1]), k), cap, |Of(RowsOf(table[m + 1..]), k)|)
  {
    SplitAt(table, m, k);
    KeptNext(table, m, cap, k);
    NewerIs(table, m, nextId);
    var before, kept, later := Of(RowsOf(table[..m]), k), Of(RowsOf(Kept(table, table[..m], cap)), k), |Of(RowsOf(table[m + 1..]), k)|;
    if table[m].row.key == k {
      SurvivingNext(before, table[m].row.obs, cap, later);
      assert kept == Surviving(before, cap, later + 1);
    } else {
      assert before + [] == before && kept + [] == kept;
    }
  }

  lemma TrimKeepsLast(table: seq<Stored>, cap: int, k: Key, nextId: nat)
    requires InIdOrder(table, nextId)
    ensures cap > 0 ==> Of(RowsOf(Trimmed(table, cap)), k) == LastN(Of(RowsOf(table), k), cap)
    ensures cap <= 0 ==> Trimmed(table, cap) == table
  {
    if cap > 0 {
      KeptOf(table, |table|, cap, k, nextId);
      assert table[..|table|] == table;
    }
  }

  lemma {:induction false} KeptIsPart(all: seq<Stored>, part: seq<Stored>, cap: nat, nextId: nat)
    requires InIdOrder(part, nextId)
    ensures InIdOrder(Kept(all, part, cap), nextId)
    ensures part != [] ==> forall i | 0 <= i < |Kept(all, part, cap)| :: Kept(all, part, cap)[i].id <= part[|part| - 1].id
  {
    if part != [] {
      var rest := part[..|part| - 1];
      KeptIsPart(all, rest, cap, nextId);
    }
  }

  // ---------------------------------------------------------------- runs of a daemon

  /** The live buffers, the table, and the rows still on their way to it. */
  datatype Sys = Sys(live: map<Key, seq<Obs>>, table: seq<Stored>, nextId: nat, ch: seq<Row>)

  datatype Op =
    | Record(key: Key, inTok: int, outTok: int, totalMs: int, loaded: bool)
    | Write
    | Trim(cap: int)
    | Restart

  const FRESH := Sys(map[], [], 1, [])

  function Enqueued(ch: seq<Row>, row: Row): seq<Row> {
    if |ch| < ENQUEUE_CAP then ch + [row] else ch
  }

  function Restored(rows: seq<Row>): map<Key, seq<Obs>> {
    map k | k in (set i | 0 <= i < |rows| :: rows[i].key) :: LastN(Of(rows, k), MAX_OBSERVATIONS)
  }

  function Do(s: Sys, op: Op): Sys {
    match op
    case Record(k, inTok, outTok, totalMs, loaded) =>
      (match Accepted(inTok, outTok, totalMs, loaded)
       case None => s
       case Some(o) => s.(live := Recorded(s.live, k, o), ch := Enqueued(s.ch, Row(k, o))))
    case Write =>
      if s.ch == [] then s
      else s.(table := s.table + [Stored(s.nextId, s.ch[0])], nextId := s.nextId + 1, ch := s.ch[1..])
    case Trim(cap) => s.(table := Trimmed(s.table, cap))
    case Restart =>
      var table := Trimmed(s.table, MAX_OBSERVATIONS);
      Sys(Restored(RowsOf(table)), table, s.nextId, [])
  }

  function Run(ops: seq<Op>): Sys {
    if ops == [] then FRESH else Do(Run(ops[..|ops| - 1]), ops[|ops| - 1])
  }

  /** Everything Record ever kept for key `k`. */
  function Observed(ops: seq<Op>, k: Key): seq<Obs> {
    if ops == [] then []
    else
      var op := ops[|ops| - 1];
      Observed(ops[..|ops| - 1], k)
      + if op.Record? && op.key == k && Accepted(op.inTok, op.outTok, op.totalMs, op.loaded).Some? then
          [Accepted(op.inTok, op.outTok, op.totalMs, op.loaded).value]
        else []
  }

  /** Every accepted observation is written: no full channel, no restart with rows on their way; trims leave the newest thousand. */
  predicate Lossless(ops: seq<Op>) {
    ops == [] ||
    (var before, op := Run(ops[..|ops| - 1]), ops[|ops| - 1];
     && Lossless(ops[..|ops| - 1])
     && (op.Record? ==> |before.ch| < ENQUEUE_CAP)
     && (op.Restart? ==> before.ch == [])
     && (op.Trim? ==> op.cap <= 0 || op.cap >= MAX_OBSERVATIONS))
  }

  /** Table and channel together end with the newest thousand of what was observed. */
  predicate Tracks(s: Sys, k: Key, seen: seq<Obs>) {
    && InIdOrder(s.table, s.nextId)
    && Slot(s.live, k) == LastN(seen, MAX_OBSERVATIONS)
    && LastN(Of(RowsOf(s.table) + s.ch, k), MAX_OBSERVATIONS) == LastN(seen, MAX_OBSERVATIONS)
  }

  lemma OfOne(row: Row, k: Key)
    ensures Of([row], k) == OneOf(row, k)
  {
    assert [row][..0] == [];
  }

  lemma SameNewest<T>(s: seq<T>, t: seq<T>, x: seq<T>, n: nat)
    requires LastN(s, n) == LastN(t, n)
    ensures LastN(s + x, n) == LastN(t + x, n)
  {
    LastNTwice(s, x, n, n);
    LastNTwice(t, x, n, n);
  }

  lemma RecordedSlot(live: map<Key, seq<Obs>>, row: Row, k: Key, seen: seq<Obs>)
    requires Slot(live, k) == LastN(seen, MAX_OBSERVATIONS)
    ensures Slot(Recorded(live, row.key, row.obs), k) == LastN(seen + OneOf(row, k), MAX_OBSERVATIONS)
  {
    if row.key == k {
      LastNTwice(seen, [row.obs], MAX_OBSERVATIONS, MAX_OBSERVATIONS);
    } else {
      assert seen + [] == seen;
    }
  }

  lemma RecordTracks(s: Sys, k: Key, seen: seq<Obs>, row: Row)
    requires Tracks(s, k, seen) && |s.ch| < ENQUEUE_CAP
    ensures Tracks(s.(live := Recorded(s.live, row.key, row.obs), ch := Enqueued(s.ch, row)), k, seen + OneOf(row, k))
  {
    var rows := RowsOf(s.table) + s.ch;
    assert RowsOf(s.table) + (s.ch + [row]) == rows + [row];
    OfConcat(rows, [row], k);
    OfOne(row, k);
    SameNewest(Of(rows, k), seen, OneOf(row, k), MAX_OBSERVATIONS);
    RecordedSlot(s.live, row, k, seen);
  }

  lemma WriteTracks(s: Sys, k: Key, seen: seq<Obs>)
    requires Tracks(s, k, seen)
    ensures Tracks(Do(s, Write), k, seen)
  {
    if s.ch != [] {
      assert RowsOf(s.table + [Stored(s.nextId, s.ch[0])]) + s.ch[1..] == RowsOf(s.table) + s.ch;
    }
  }

  lemma TrimTracks(s: Sys, k: Key, seen: seq<Obs>, cap: int)
    requires Tracks(s, k, seen) && (cap <= 0 || cap >= MAX_OBSERVATIONS)
    ensures Tracks(Do(s, Trim(cap)), k, seen)
  {
    if cap > 0 {
      var table' := Trimmed(s.table, cap);
      KeptIsPart(s.table, s.table, cap, s.nextId);
      TrimKeepsLast(s.table, cap, k, s.nextId);
      OfConcat(RowsOf(s.table), s.ch, k);
      OfConcat(RowsOf(table'), s.ch, k);
      LastNTwice(Of(RowsOf(s.table), k), Of(s.ch, k), cap, MAX_OBSERVATIONS);
    }
  }

  lemma {:induction false} OfAbsent(rows: seq<Row>, k: Key)
    requires forall i | 0 <= i < |rows| :: rows[i].key != k
    ensures Of(rows, k) == []
  {
    if rows != [] {
      OfAbsent(rows[..|rows| - 1], k);
    }
  }

  lemma RestoredSlot(rows: seq<Row>, k: Key)
    ensures Slot(Restored(rows), k) == LastN(Of(rows, k), MAX_OBSERVATIONS)
  {
    if k !in Restored(rows) { OfAbsent(rows, k); }
  }

  /** What a restart leaves in the buffer of `k`: the newest thousand of the table. */
  lemma RestartGives(s: Sys, k: Key)
    requires InIdOrder(s.table, s.nextId)
    ensures Slot(Do(s, Restart).live, k) == LastN(Of(RowsOf(s.table), k), MAX_OBSERVATIONS)
    ensures InIdOrder(Do(s, Restart).table, s.nextId)
    ensures LastN(Of(RowsOf(Do(s, Restart).table), k), MAX_OBSERVATIONS) == LastN(Of(RowsOf(s.table), k), MAX_OBSERVATIONS)
  {
    RestoredSlot(RowsOf(Trimmed(s.table, MAX_OBSERVATIONS)), k);
    TrimKeepsLast(s.table, MAX_OBSERVATIONS, k, s.nextId);
    KeptIsPart(s.table, s.table, MAX_OBSERVATIONS, s.nextId);
  }

  lemma RestartTracks(s: Sys, k: Key, seen: seq<Obs>)
    requires Tracks(s, k, seen) && s.ch == []
    ensures Tracks(Do(s, Restart), k, seen)
  {
    RestartGives(s, k);
    assert RowsOf(s.table) + [] == RowsOf(s.table);
    assert RowsOf(Do(s, Restart).table) + [] == RowsOf(Do(s, Restart).table);
  }

  /** Over every lossless run each live buffer is the newest thousand accepted observations, and the table has them too. */
  lemma {:induction false} LiveIsNewest(ops: seq<Op>, k: Key)
    requires Lossless(ops)
    ensures Tracks(Run(ops), k, Observed(ops, k))
  {
    if ops != [] {
      var rest, op := ops[..|ops| - 1], ops[|ops| - 1];
      var s, seen := Run(rest), Observed(rest, k);
      LiveIsNewest(rest, k);
      match op
      case Record(key, inTok, outTok, totalMs, loaded) =>
        var a := Accepted(inTok, outTok, totalMs, loaded);
        if a.Some? {
          RecordTracks(s, k, seen, Row(key, a.value));
        }
      case Write => WriteTracks(s, k, seen);
      case Trim(cap) => TrimTracks(s, k, seen, cap);
      case Restart => RestartTracks(s, k, seen);
    }
  }

  /** A restart is invisible: after it every buffer is what it was, and what it would be without any restart or trim. */
  lemma RestartIsInvisible(ops: seq<Op>, k: Key)
    requires Lossless(ops + [Restart])
    ensures Slot(Run(ops + [Restart]).live, k) == Slot(Run(ops).live, k) == LastN(Observed(ops, k), MAX_OBSERVATIONS)
  {
    assert (ops + [Restart])[..|ops|] == ops;
    LiveIsNewest(ops, k);
    LiveIsNewest(ops + [Restart], k);
  }

  // ---------------------------------------------------------------- what a buffer can hold

  /** Times and output tokens are positive, input tokens not negative. */
  predicate Measured(o: Obs) {
    o.inTok >= 0 && o.outTok > 0 && o.totalMs > 0
  }

  predicate AllMeasured(obs: seq<Obs>) {
    forall i | 0 <= i < |obs| :: Measured(obs[i])
  }

  predicate RowsMeasured(rows: seq<Row>) {
    forall i | 0 <= i < |rows| :: Measured(rows[i].obs)
  }

  lemma {:induction false} OfMeasured(rows: seq<Row>, k: Key)
    requires RowsMeasured(rows)
    ensures AllMeasured(Of(rows, k))
  {
    if rows != [] {
      OfMeasured(rows[..|rows| - 1], k);
    }
  }

  lemma {:induction false} KeptMeasured(all: seq<Stored>, part: seq<Stored>, cap: nat)
    requires forall i | 0 <= i < |part| :: Measured(part[i].row.obs)
    ensures forall i | 0 <= i < |Kept(all, part, cap)| :: Measured(Kept(all, part, cap)[i].row.obs)
  {
    if part != [] {
      KeptMeasured(all, part[..|part| - 1], cap);
    }
  }

  /** Whatever is recorded, written, dropped, trimmed or restored: buffers, table and channel hold measurements only. */
  lemma {:induction false} OnlyMeasurements(ops: seq<Op>)
    ensures var s := Run(ops);
            && (forall k :: AllMeasured(Slot(s.live, k)))
            && (forall i | 0 <= i < |s.table| :: Measured(s.table[i].row.obs)) && RowsMeasured(s.ch)
    decreases |ops|
  {
    if ops != [] {
      OnlyMeasurements(ops[..|ops| - 1]);
      MeasuredStep(Run(ops[..|ops| - 1]), ops[|ops| - 1]);
    }
  }

  lemma MeasuredStep(s: Sys, op: Op)
    requires forall k :: AllMeasured(Slot(s.live, k))
    requires (forall i | 0 <= i < |s.table| :: Measured(s.table[i].row.obs)) && RowsMeasured(s.ch)
    ensures var s' := Do(s, op);
            && (forall k :: AllMeasured(Slot(s'.live, k)))
            && (forall i | 0 <= i < |s'.table| :: Measured(s'.table[i].row.obs)) && RowsMeasured(s'.ch)
  {
    match op
    case Record(key, inTok, outTok, totalMs, loaded) =>
      var a := Accepted(inTok, outTok, totalMs, loaded);
      if a.Some? {
        assert Measured(a.value);
        forall k ensures AllMeasured(Slot(Recorded(s.live, key, a.value), k)) {
          assert AllMeasured(Slot(s.live, k)) && AllMeasured(Slot(s.live, key));
        }
      }
    case Write =>
    case Trim(cap) => if cap > 0 { KeptMeasured(s.table, s.table, cap); }
    case Restart =>
      KeptMeasured(s.table, s.table, MAX_OBSERVATIONS);
      var table := Trimmed(s.table, MAX_OBSERVATIONS);
      forall k ensures AllMeasured(Slot(Restored(RowsOf(table)), k)) {
        OfMeasured(RowsOf(table), k);
      }
  }

  // ---------------------------------------------------------------- the objects

  class PerfStore {
    var table: seq<Stored>
    var nextId: nat
    var ch: seq<Row>

    constructor ()
      ensures table == [] && nextId == 1 && ch == []
    {
      table, nextId, ch := [], 1, [];
    }

    /** A send that gives up when the channel is full. */
    method Enqueue(row: Row)
      modifies this`ch
      ensures ch == if |old(ch)| < 1024 then old(ch) + [row] else old(ch)
      ensures ch == Enqueued(old(ch), row)
    {
      if |ch| < ENQUEUE_CAP {
        ch := ch + [row];
      }
    }

    /** One turn of the writer's loop: what a run of the daemon calls a write. */
    method WriteOne()
      requires ch != []
      modifies this
      ensures forall live :: Sys(live, table, nextId, ch) == Do(Sys(live, old(table), old(nextId), old(ch)), Write)
    {
      var row := ch[0];
      ch := ch[1..];
      table, nextId := table + [Stored(nextId, row)], nextId + 1;
    }

    method CountNewer(p: Stored) returns (n: nat)
      ensures n == Newer(table, p)
    {
      n := 0;
      for i := 0 to |table|
        invariant n == Newer(table[..i], p)
      {
        assert table[..i + 1][..i] == table[..i];
        if table[i].row.key == p.row.key && table[i].id > p.id {
          n := n + 1;
        }
      }
      assert table[..|table|] == table;
    }

    method Trim(perKeyCap: int) returns (deleted: nat)
      modifies this`table
      ensures perKeyCap <= 0 ==> table == old(table)
      ensures table == Trimmed(old(table), perKeyCap)
      ensures |table| + deleted == |old(table)|
    {
      if perKeyCap <= 0 { return 0; }
      var kept: seq<Stored> := [];
      deleted := 0;
      for i := 0 to |table|
        invariant table == old(table) && |kept| + deleted == i
        invariant kept == Kept(table, table[..i], perKeyCap)
      {
        assert table[..i + 1][..i] == table[..i];
        var n := CountNewer(table[i]);
        if n >= perKeyCap {
          deleted := deleted + 1;
        } else {
          kept := kept + [table[i]];
        }
      }
      assert table[..|table|] == table;
      table := kept;
    }

    /** Grouped by key, oldest first. */
    method LoadAll() returns (out: map<Key, seq<Obs>>)
      ensures forall k :: Slot(out, k) == Of(RowsOf(table), k)
      ensures forall k | k in out :: out[k] != []
    {
      out := map[];
      for i := 0 to |table|
        invariant forall k :: Slot(out, k) == Of(RowsOf(table)[..i], k)
        invariant forall k | k in out :: out[k] != []
      {
        assert RowsOf(table)[..i + 1][..i] == RowsOf(table)[..i];
        var row := table[i].row;
        out := out[row.key := Slot(out, row.key) + [row.obs]];
      }
      assert RowsOf(table)[..|table|] == RowsOf(table);
    }
  }

  class PerfTracker {
    var bySlot: map<Key, seq<Obs>>
    var sink: PerfStore?

    constructor ()
      ensures bySlot == map[] && sink == null
    {
      bySlot, sink := map[], null;
    }

    method Record(k: Key, inTok: int, outTok: int, totalMs: int, loaded: bool)
      modifies this`bySlot, if sink != null then {sink} else {}
      ensures totalMs <= 0 || outTok <= 0 ==> bySlot == old(bySlot)
      ensures totalMs > 0 && outTok > 0 ==>
                var before, o := old(Slot(bySlot, k)), Obs(if inTok > 0 then inTok else 0, outTok, totalMs, loaded);
                Slot(bySlot, k) == if |before| < 1000 then before + [o] else before[|before| - 999..] + [o]
      ensures forall other | other != k :: Slot(bySlot, other) == old(Slot(bySlot, other))
      ensures var a := Accepted(inTok, outTok, totalMs, loaded);
              && bySlot == (if a.Some? then Recorded(old(bySlot), k, a.value) else old(bySlot))
              && (sink != null ==>
                    && sink.ch == (if a.Some? then Enqueued(old(sink.ch), Row(k, a.value)) else old(sink.ch))
                    && sink.table == old(sink.table) && sink.nextId == old(sink.nextId))
    {
      if totalMs <= 0 || outTok <= 0 { return; }
      var tokens := if inTok < 0 then 0 else inTok;
      var obs := Slot(bySlot, k) + [Obs(tokens, outTok, totalMs, loaded)];
      if |obs| > MAX_OBSERVATIONS {
        obs := obs[|obs| - MAX_OBSERVATIONS..];
      }
      bySlot := bySlot[k := obs];
      if sink != null {
        sink.Enqueue(Row(k, Obs(tokens, outTok, totalMs, loaded)));
      }
    }

    /** Restored points join the buffer without going to the sink. */
    method Load(k: Key, obs: seq<Obs>)
      modifies this`bySlot
      ensures Slot(bySlot, k) == if obs == [] then old(Slot(bySlot, k)) else LastN(old(Slot(bySlot, k)) + obs, MAX_OBSERVATIONS)
      ensures forall other | other != k :: Slot(bySlot, other) == old(Slot(bySlot, other))
    {
      if |obs| == 0 { return; }
      var all := Slot(bySlot, k) + obs;
      if |all| > MAX_OBSERVATIONS {
        all := all[|all| - MAX_OBSERVATIONS..];
      }
      bySlot := bySlot[k := all];
    }
  }

  /** Every restored group goes into an empty tracker. */
  method LoadInto(tracker: PerfTracker, loaded: map<Key, seq<Obs>>)
    requires tracker.bySlot == map[]
    modifies tracker`bySlot
    ensures forall k :: Slot(tracker.bySlot, k) == LastN(Slot(loaded, k), MAX_OBSERVATIONS)
  {
    var keys := loaded.Keys;
    while keys != {}
      invariant keys <= loaded.Keys
      invariant forall k :: Slot(tracker.bySlot, k) == if k in keys then [] else LastN(Slot(loaded, k), MAX_OBSERVATIONS)
      decreases |keys|
    {
      var k :| k in keys;
      tracker.Load(k, loaded[k]);
      assert [] + loaded[k] == loaded[k];
      keys := keys - {k};
    }
  }

  /** The daemon starts over the table it finds: trim, load, and only then attach the sink. */
  method StartUp(store: PerfStore) returns (tracker: PerfTracker)
    modifies store`table
    ensures fresh(tracker) && tracker.sink == store && store.table == Trimmed(old(store.table), MAX_OBSERVATIONS)
    ensures forall k :: Slot(tracker.bySlot, k) == Slot(Restored(RowsOf(store.table)), k)
  {
    var deleted := store.Trim(MAX_OBSERVATIONS);
    tracker := new PerfTracker();
    var loaded := store.LoadAll();
    LoadInto(tracker, loaded);
    tracker.sink := store;
    forall k ensures Slot(tracker.bySlot, k) == Slot(Restored(RowsOf(store.table)), k) {
      RestoredSlot(RowsOf(store.table), k);
    }
  }
}
