/**
 A response that had started can be produced twice, in every mode: Run writes to the client and panics, the guard
 forgets what was written, and the call goes on. Shown on one server.
 */
module Reruns {
  import opened Wrappers
  import opened Selection
  import opened Machine
  import opened Order
  import opened Stranding
  import opened Guarantees

  /** Where a job waits: at the server in push mode, in the pool otherwise. */
  function There(c: Config): Option<ServerId> {
    if c.mode.Push? then Some(0) else None
  }

  /** Push mode counts an attempt when the server is chosen, the pool modes when its result is there. */
  function Tried(c: Config): nat {
    if c.mode.Push? then 1 else 0
  }

  /** One healthy server and its line; a job in line excludes nobody. */
  predicate Stage(c: Config, st: State, line: seq<JobId>, worker: Worker) {
    && |st.servers| == 1 && |st.jobs| == 2 && !st.stopping && st.servers[0].healthy && MODEL in st.servers[0].models
    && Line(c, st, 0) == line && st.servers[0].worker == worker
    && st.jobs[0].model == MODEL && (line != [] && !c.mode.Push? ==> st.jobs[0].visited == {})
  }

  predicate CallAt(st: State, pc: Submitter, slot: Option<Result>) {
    |st.jobs| == 2 && st.jobs[0].pc == pc && st.jobs[0].slot == slot
  }

  const PANIC := Guarded(Panicked(true), 0)

  // ---------------------------------------------------------------- the first attempt

  /** The first act of a call in push mode. */
  lemma PushQueued(c: Config, R: State -> bool) returns (st: State)
    requires c.mode.Push? && Closed(c, R) && R(Opening(0))
    ensures R(st) && Stage(c, st, [0], Asleep) && st.servers[0].token && CallAt(st, Waiting(There(c)), None) && st.jobs[0].total <= Tried(c)
  {
    st := FirstQueued(c, R, 0);
  }

  /** And in the pool modes: the model is there, the job goes into the pool, the idle server is woken. */
  lemma PullPlaced(c: Config, R: State -> bool) returns (st: State)
    requires !c.mode.Push? && Closed(c, R) && R(Opening(0))
    ensures R(st) && Stage(c, st, [0], Asleep) && !st.servers[0].inFlight
    ensures CallAt(st, Scanning(0, None), None) && st.jobs[0].total == 0
  {
    st := JobMoves(c, R, Opening(0), 0, Submit);
    assert CandidateAt(st.servers, 0, MODEL, {});
    st := JobMoves(c, R, st, 0, Look);
    st := PlacesJob(c, R, st, 0);
  }

  lemma PullQueued(c: Config, R: State -> bool) returns (st: State)
    requires !c.mode.Push? && Closed(c, R) && R(Opening(0))
    ensures R(st) && Stage(c, st, [0], Asleep) && st.servers[0].token && CallAt(st, Waiting(There(c)), None) && st.jobs[0].total <= Tried(c)
  {
    st := PullPlaced(c, R);
    st := JobMoves(c, R, st, 0, Scan);
    assert CallAt(st, Scanning(1, Some(0)), None);
    st := JobMoves(c, R, st, 0, Scan);
    assert CallAt(st, Nudging(None, 0), None) && Stage(c, st, [0], Asleep);
    st := NudgesServer(c, R, st, 0);
  }

  /** Whatever the rule, the only job in line is taken. */
  lemma TakesOnly(c: Config, st: State)
    requires |st.servers| == 1 && st.servers[0].worker.Looking? && Line(c, st, 0) == [0] && |st.jobs| == 2
    requires st.servers[0].worker.view.self == 0 && MODEL in st.servers[0].worker.view.allowed
    requires st.jobs[0].model == MODEL && (!c.mode.Push? ==> st.jobs[0].visited == {})
    ensures Choice(c, st, 0, false) == Some(0)
  {
    var es := Entries(st.jobs, Line(c, st, 0));
    assert es[0] == EntryOf(st.jobs, 0);
    assert !c.mode.Push? ==> Takeable(es[0], st.servers[0].worker.view);
  }

  lemma Starts(c: Config, R: State -> bool, st0: State) returns (st: State)
    requires Closed(c, R) && R(st0) && Stage(c, st0, [0], Awake)
    ensures R(st) && Stage(c, st, [], Marked(0)) && st.jobs == st0.jobs
  {
    st := SrvMoves(c, R, st0, 0, LookIn);
    TakesOnly(c, st);
    st := Pops(c, R, st, 0);
    assert Stage(c, st, [], Holding(0));
    st := SrvMoves(c, R, st, 0, Start);
  }

  lemma FirstAttempt(c: Config, R: State -> bool) returns (st: State)
    requires Closed(c, R) && R(Opening(0))
    ensures R(st) && Stage(c, st, [], Marked(0)) && CallAt(st, Waiting(There(c)), None) && st.jobs[0].total <= Tried(c)
  {
    if c.mode.Push? { st := PushQueued(c, R); } else { st := PullQueued(c, R); }
    st := SrvMoves(c, R, st, 0, WakeUp);
    st := Starts(c, R, st);
  }

  // ---------------------------------------------------------------- bytes, a panic, an error without the bytes

  lemma PanicsAfterWriting(c: Config, R: State -> bool, st0: State) returns (st: State)
    requires Closed(c, R) && R(st0) && Stage(c, st0, [], Marked(0)) && CallAt(st0, Waiting(There(c)), None) && st0.jobs[0].total <= Tried(c)
    ensures R(st) && Stage(c, st, [], Sending(0, PANIC)) && CallAt(st, Waiting(There(c)), None)
    ensures st.jobs[0].total <= Tried(c) && st.jobs[0].log.wrote
  {
    st := Runs(c, R, st0, 0, Panicked(true));
  }

  lemma HearsOfPanic(c: Config, R: State -> bool, st0: State) returns (st: State)
    requires Closed(c, R) && R(st0) && Stage(c, st0, [], Sending(0, PANIC)) && CallAt(st0, Waiting(There(c)), None)
    requires st0.jobs[0].total <= Tried(c) && st0.jobs[0].log.wrote
    ensures R(st) && Stage(c, st, [], Awake) && CallAt(st, Waiting(There(c)), Some(PANIC))
    ensures st.jobs[0].total <= Tried(c) && st.jobs[0].log.wrote
  {
    st := Delivers(c, R, st0, 0);
    assert Stage(c, st, [], Releasing);
    st := SrvMoves(c, R, st, 0, Release);
  }

  // ---------------------------------------------------------------- the second attempt

  lemma Resumes(c: Config, R: State -> bool, st0: State) returns (st: State)
    requires Closed(c, R) && R(st0) && Stage(c, st0, [], Awake) && st0.jobs[0].log.wrote
    requires CallAt(st0, Pausing(There(c)), None) || CallAt(st0, Placing(There(c)), None)
    ensures R(st) && Stage(c, st, [], Awake) && CallAt(st, Placing(There(c)), None) && st.jobs[0].log.wrote
    ensures st.jobs[0].visited == st0.jobs[0].visited
  {
    st := st0;
    if st.jobs[0].pc.Pausing? { st := JobMoves(c, R, st, 0, Resume); }
  }

  lemma PushFindsNone(c: Config, R: State -> bool, st0: State) returns (st: State)
    requires c.mode.Push? && Closed(c, R) && R(st0) && Stage(c, st0, [], Awake) && CallAt(st0, Choosing([], false), None)
    requires st0.jobs[0].lastFailed == Some(0) && st0.jobs[0].log.wrote
    ensures R(st) && Stage(c, st, [], Awake) && CallAt(st, Choosing([], true), None) && st.jobs[0].log.wrote
  {
    st := JobMoves(c, R, st0, 0, Look);
    assert CallAt(st, Choosing([false], false), None);
    st := JobMoves(c, R, st, 0, PickAgain);
  }

  lemma PushPicksAgain(c: Config, R: State -> bool, st0: State) returns (st: State)
    requires c.mode.Push? && Closed(c, R) && R(st0) && Stage(c, st0, [], Awake) && CallAt(st0, Choosing([], true), None)
    requires st0.jobs[0].log.wrote
    ensures R(st) && Stage(c, st, [], Awake) && st.jobs[0].log.wrote
    ensures CallAt(st, Pausing(There(c)), None) || CallAt(st, Placing(There(c)), None)
  {
    st := Picks(c, R, st0, 0, 0);
  }

  lemma PullLifts(c: Config, R: State -> bool, st0: State) returns (st: State)
    requires !c.mode.Push? && Closed(c, R) && R(st0) && Stage(c, st0, [], Awake) && CallAt(st0, Excluding([]), None)
    requires st0.jobs[0].visited == {0} && st0.jobs[0].log.wrote
    ensures R(st) && Stage(c, st, [], Awake) && st.jobs[0].visited == {} && st.jobs[0].log.wrote
    ensures CallAt(st, Pausing(There(c)), None) || CallAt(st, Placing(There(c)), None)
  {
    st := JobMoves(c, R, st0, 0, Look);
    assert CallAt(st, Excluding([false]), None);
    st := JobMoves(c, R, st, 0, Lift);
  }

  lemma TriesAgain(c: Config, R: State -> bool, st0: State) returns (st: State)
    requires c.maxAttempts >= 2 && Closed(c, R) && R(st0) && Stage(c, st0, [], Awake)
    requires CallAt(st0, Waiting(There(c)), Some(PANIC)) && st0.jobs[0].log.wrote
    requires st0.jobs[0].total <= Tried(c)
    ensures R(st) && Stage(c, st, [], Awake) && CallAt(st, Placing(There(c)), None) && st.jobs[0].log.wrote
    ensures !c.mode.Push? ==> st.jobs[0].visited == {}
  {
    st := JobMoves(c, R, st0, 0, Receive);
    assert Stage(c, st, [], Awake);
    if c.mode.Push? {
      st := PushFindsNone(c, R, st);
      st := PushPicksAgain(c, R, st);
    } else {
      st := PullLifts(c, R, st);
    }
    st := Resumes(c, R, st);
  }

  lemma RunsAgain(c: Config, R: State -> bool, st0: State) returns (st: State)
    requires Closed(c, R) && R(st0) && Stage(c, st0, [], Awake) && CallAt(st0, Placing(There(c)), None) && st0.jobs[0].log.wrote
    requires !c.mode.Push? ==> st0.jobs[0].visited == {}
    ensures R(st) && RerunsWritten(st)
  {
    st := PlacesJob(c, R, st0, 0);
    assert Stage(c, st, [0], Awake) && st.jobs[0].log.wrote;
    st := Starts(c, R, st);
  }

  lemma WholeRun(c: Config, R: State -> bool) returns (st: State)
    requires c.maxAttempts >= 2 && Closed(c, R) && R(Opening(0))
    ensures R(st) && RerunsWritten(st)
  {
    st := FirstAttempt(c, R);
    st := PanicsAfterWriting(c, R, st);
    st := HearsOfPanic(c, R, st);
    st := TriesAgain(c, R, st);
    st := RunsAgain(c, R, st);
  }

  /** In every mode a response that had started can be produced twice exactly when a second attempt is allowed at all. */
  lemma RerunsWrittenIff(c: Config)
    ensures (exists st: State :: Reachable(c, st) && RerunsWritten(st)) <==> c.maxAttempts >= 2
  {
    if c.maxAttempts >= 2 {
      var R := (st: State) => Reachable(c, st);
      forall st: State, a: Action | R(st) && Step(c, st, a).Some? ensures R(Step(c, st, a).value) {
        StepReachable(c, st, a);
      }
      InitReachable(c, Opening(0));
      var st := WholeRun(c, R);
    } else {
      forall st: State | Reachable(c, st) && RerunsWritten(st) ensures false {
        RerunNeedsAttempts(c, st);
      }
    }
  }
}
