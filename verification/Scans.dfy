/** The idle scan of the machine, when nothing changes meanwhile, picks the server that `PickIdleByPriority` picks. */
module Scans {
  import opened Wrappers
  import opened Selection
  import opened Machine

  predicate IdleAt(ss: seq<Srv>, j: JobRec, s: ServerId) {
    s < |ss| && ss[s].healthy && !ss[s].inFlight && s !in j.visited && j.model in ss[s].models
  }

  /** What the scan acts of a call come to, from server `i` on. */
  function ScanFrom(ss: seq<Srv>, j: JobRec, i: nat, best: Option<ServerId>): Option<ServerId>
    decreases |ss| - i
  {
    if i >= |ss| then best else ScanFrom(ss, j, i + 1, Scanned(ss, j, i, best))
  }

  /** Of the first `n` servers: none is idle, or `best` is the first of the idle ones with the least priority value. */
  predicate BestOf(ss: seq<Srv>, j: JobRec, n: nat, best: Option<ServerId>) {
    match best
    case None => forall s: ServerId | s < n :: !IdleAt(ss, j, s)
    case Some(b) =>
      && b < n && IdleAt(ss, j, b)
      && (forall s: ServerId | s < n && IdleAt(ss, j, s) :: ss[b].priority <= ss[s].priority)
      && (forall s: ServerId | s < b && IdleAt(ss, j, s) :: ss[b].priority < ss[s].priority)
  }

  lemma {:induction false} ScanKeepsBest(ss: seq<Srv>, j: JobRec, i: nat, best: Option<ServerId>)
    requires i <= |ss| && BestOf(ss, j, i, best)
    ensures BestOf(ss, j, |ss|, ScanFrom(ss, j, i, best))
    decreases |ss| - i
  {
    if i < |ss| {
      ScanKeepsBest(ss, j, i + 1, Scanned(ss, j, i, best));
    }
  }

  lemma ScanPicksIdle(ss: seq<Srv>, j: JobRec)
    ensures BestOf(ss, j, |ss|, ScanFrom(ss, j, 0, None))
  {
    ScanKeepsBest(ss, j, 0, None);
  }

  /** A call in the middle of the scan takes the next of its acts, and wakes the best at the end. */
  lemma ScanActs(c: Config, ss: seq<Srv>, now: Nanos, j: JobRec)
    requires j.pc.Scanning?
    ensures JobMove(c, ss, now, j, Scan).Some?
    ensures var j' := JobMove(c, ss, now, j, Scan).value;
            if j.pc.next < |ss| then
              j'.pc.Scanning? && ScanFrom(ss, j', j'.pc.next, j'.pc.best) == ScanFrom(ss, j, j.pc.next, j.pc.best)
            else if ScanFrom(ss, j, j.pc.next, j.pc.best).Some? then
              j'.pc == Nudging(None, ScanFrom(ss, j, j.pc.next, j.pc.best).value)
            else j'.pc == Waiting(None)
  {
    if j.pc.next < |ss| { SameScan(ss, j, JobMove(c, ss, now, j, Scan).value, j.pc.next + 1, Scanned(ss, j, j.pc.next, j.pc.best)); }
  }

  lemma {:induction false} SameScan(ss: seq<Srv>, j: JobRec, j': JobRec, i: nat, best: Option<ServerId>)
    requires j'.model == j.model && j'.visited == j.visited
    ensures ScanFrom(ss, j', i, best) == ScanFrom(ss, j, i, best)
    decreases |ss| - i
  {
    if i < |ss| {
      SameScan(ss, j, j', i + 1, Scanned(ss, j, i, best));
    }
  }
}
