/**
 When push mode can strand work. Every run is safe exactly when no server with a configured model list
 can answer a poll in another shape than OpenAI's: that path alone stores health without a wake.
 */
module Stranding {
  import opened Wrappers
  import opened Selection
  import opened Machine
  import opened Conservation
  import opened Order
  import opened Attendance

  /** The servers whose poller may take the path that stores health after a separate load. */
  function Odd(c: Config): set<ServerId> {
    c.explicit * c.oddShape
  }

  ghost predicate NeverStrands(c: Config) {
    forall st: State :: Reachable(c, st) ==> NoStranding(c, st)
  }

  // ---------------------------------------------------------------- without such servers

  predicate JudgedOdd(c: Config, st: State) {
    forall s | 0 <= s < |st.servers| :: st.servers[s].poller.Judged? ==> s in Odd(c)
  }

  lemma WorkKeepsPollers(c: Config, st: State, s: ServerId, a: WorkAct, st': State)
    requires WorkStep(c, st, s, a) == Some(st')
    ensures OnlyServer(st, s, st') && s < |st.servers| && st'.servers[s].poller == st.servers[s].poller
  {
  }

  lemma SubmitKeepsPollers(c: Config, st: State, k: JobId, a: SubmitAct, st': State)
    requires SubmitStep(c, st, k, a) == Some(st')
    ensures |st'.servers| == |st.servers| && forall s | 0 <= s < |st.servers| :: st'.servers[s].poller == st.servers[s].poller
  {
  }

  lemma JudgedOddStep(c: Config, st: State, a: Action, st': State)
    requires JudgedOdd(c, st) && Step(c, st, a) == Some(st')
    ensures JudgedOdd(c, st')
  {
    match a
    case Sub(k, sub) => SubmitKeepsPollers(c, st, k, sub, st');
    case Work(s, work) => WorkKeepsPollers(c, st, s, work, st');
    case Poll(s, poll) => assert PollMove(c, s, st.servers[s], poll) == Some(st'.servers[s]);
    case Shutdown =>
    case Tick(_) =>
  }

  lemma {:induction false} AttendedAfter(c: Config, st0: State, acts: seq<Action>, st: State)
    requires Odd(c) == {} && Init(st0) && After(c, st0, acts) == Some(st)
    ensures NoStranding(c, st) && JudgedOdd(c, st)
    decreases |acts|
  {
    if acts == [] {
      AttendanceInit(c, st0);
    } else {
      var mid := After(c, st0, acts[..|acts| - 1]).value;
      AttendedAfter(c, st0, acts[..|acts| - 1], mid);
      SafeAfter(c, st0, acts[..|acts| - 1], mid);
      JudgedOddStep(c, mid, acts[|acts| - 1], st);
      AttendanceStep(c, mid, acts[|acts| - 1], st);
    }
  }

  // ---------------------------------------------------------------- with such a server

  const MODEL: string := "m"

  function NewJob(): JobRec {
    JobRec(MODEL, {}, None, Fresh, 0, None, 0, false, 0, 0, EMPTY_LOG)
  }

  function NewSrv(): Srv {
    Srv(true, NO_MODEL, {MODEL}, [], false, false, NO_MODEL, 0, 0, Asleep, Idle, 0)
  }

  /** `R` holds of everything one step after a state it holds of, as reachability does. */
  ghost predicate Closed(c: Config, R: State -> bool) {
    forall st: State, a: Action | R(st) && Step(c, st, a).Some? :: R(Step(c, st, a).value)
  }

  lemma JobMoves(c: Config, R: State -> bool, st: State, k: JobId, a: SubmitAct) returns (st': State)
    requires Closed(c, R) && R(st) && k < |st.jobs| && JobMove(c, st.servers, st.now, st.jobs[k], a).Some?
    ensures R(st')
    ensures st' == PutJob(st, k, JobMove(c, st.servers, st.now, st.jobs[k], a).value)
  {
    assert Step(c, st, Sub(k, a)).Some?;
    st' := SubmitStep(c, st, k, a).value;
  }

  /** What a search through all servers finds while nothing else happens. */
  function AllLooks(ss: seq<Srv>, j: JobRec, again: bool): (r: seq<bool>)
    ensures |r| == |ss|
  {
    seq(|ss|, i requires 0 <= i < |ss| => CandidateAt(ss, i, j.model, LeftOut(j, again)))
  }

  lemma {:induction false} Searches(c: Config, R: State -> bool, st: State, k: JobId) returns (st': State)
    requires Closed(c, R) && R(st) && k < |st.jobs| && st.jobs[k].pc.Choosing?
    requires st.jobs[k].pc.looks <= AllLooks(st.servers, st.jobs[k], st.jobs[k].pc.again)
    ensures R(st')
    ensures st' == PutJob(st, k, st.jobs[k].(pc := Choosing(AllLooks(st.servers, st.jobs[k], st.jobs[k].pc.again), st.jobs[k].pc.again)))
    decreases |st.servers| - |st.jobs[k].pc.looks|
  {
    var j, all := st.jobs[k], AllLooks(st.servers, st.jobs[k], st.jobs[k].pc.again);
    if |j.pc.looks| == |all| {
      st' := st;
      assert j.pc.looks == all;
      assert st.jobs[k := j.(pc := Choosing(all, j.pc.again))] == st.jobs;
    } else {
      var mid := JobMoves(c, R, st, k, Look);
      assert all[..|j.pc.looks| + 1] == all[..|j.pc.looks|] + [all[|j.pc.looks|]];
      assert AllLooks(mid.servers, mid.jobs[k], j.pc.again) == all;
      st' := Searches(c, R, mid, k);
    }
  }

  lemma Picks(c: Config, R: State -> bool, st: State, k: JobId, s: ServerId) returns (st': State)
    requires Closed(c, R) && R(st) && k < |st.jobs| && st.jobs[k].pc.Choosing? && st.jobs[k].pc.looks == []
    requires CandidateAt(st.servers, s, st.jobs[k].model, LeftOut(st.jobs[k], st.jobs[k].pc.again))
    ensures R(st')
    ensures var j := st.jobs[k];
            st' == PutJob(st, k, Chosen(c, j.(pc := Choosing(AllLooks(st.servers, j, j.pc.again), j.pc.again)), s))
  {
    st' := Searches(c, R, st, k);
    st' := JobMoves(c, R, st', k, Choose(s));
  }

  lemma PlacesJob(c: Config, R: State -> bool, st: State, k: JobId) returns (st': State)
    requires Closed(c, R) && R(st) && k < |st.jobs| && PlaceStep(st, k).Some?
    ensures R(st') && PlaceStep(st, k) == Some(st')
  {
    assert Step(c, st, Sub(k, Place)).Some?;
    st' := PlaceStep(st, k).value;
  }

  lemma NudgesServer(c: Config, R: State -> bool, st: State, k: JobId) returns (st': State)
    requires Closed(c, R) && R(st) && k < |st.jobs| && NudgeStep(st, k).Some?
    ensures R(st') && NudgeStep(st, k) == Some(st')
  {
    assert Step(c, st, Sub(k, Nudge)).Some?;
    st' := NudgeStep(st, k).value;
  }

  lemma SrvMoves(c: Config, R: State -> bool, st: State, s: ServerId, a: WorkAct) returns (st': State)
    requires Closed(c, R) && R(st) && s < |st.servers| && SrvMove(c, st.jobs, st.stopping, st.servers[s], s, a).Some?
    ensures R(st')
    ensures st' == PutSrv(st, s, SrvMove(c, st.jobs, st.stopping, st.servers[s], s, a).value)
  {
    assert Step(c, st, Work(s, a)).Some?;
    st' := WorkStep(c, st, s, a).value;
  }

  lemma Pops(c: Config, R: State -> bool, st: State, s: ServerId) returns (st': State)
    requires Closed(c, R) && R(st) && s < |st.servers| && st.servers[s].worker.Looking?
    ensures R(st') && st' == Took(c, st, s, Choice(c, st, s, false))
  {
    assert Step(c, st, Work(s, Pop(false))).Some?;
    st' := WorkStep(c, st, s, Pop(false)).value;
  }

  lemma Runs(c: Config, R: State -> bool, st: State, s: ServerId, out: Outcome) returns (st': State)
    requires Closed(c, R) && R(st) && s < |st.servers|
    requires BeginStep(c, st, s).Some? && FinishStep(BeginStep(c, st, s).value, s, out).Some?
    ensures R(st') && st' == FinishStep(BeginStep(c, st, s).value, s, out).value
  {
    assert Step(c, st, Work(s, Begin)).Some?;
    assert Step(c, BeginStep(c, st, s).value, Work(s, Finish(out))).Some?;
    st' := FinishStep(BeginStep(c, st, s).value, s, out).value;
  }

  lemma Delivers(c: Config, R: State -> bool, st: State, s: ServerId) returns (st': State)
    requires Closed(c, R) && R(st) && s < |st.servers| && DeliverStep(st, s).Some?
    ensures R(st') && DeliverStep(st, s) == Some(st')
  {
    assert Step(c, st, Work(s, Deliver)).Some?;
    st' := DeliverStep(st, s).value;
  }

  lemma PollMoves(c: Config, R: State -> bool, st: State, s: ServerId, a: PollAct) returns (st': State)
    requires Closed(c, R) && R(st) && s < |st.servers| && PollMove(c, s, st.servers[s], a).Some?
    ensures R(st') && st' == PutSrv(st, s, PollMove(c, s, st.servers[s], a).value)
  {
    assert Step(c, st, Poll(s, a)).Some?;
    st' := PollStep(c, st, s, a).value;
  }

  function Opening(s: ServerId): State {
    State(seq(s + 1, _ => NewSrv()), [NewJob(), NewJob()], [], false, 0)
  }

  predicate Scene(st: State, s: ServerId, queue: seq<JobId>, worker: Worker, token: bool, pc0: Submitter, pc1: Submitter) {
    && |st.servers| == s + 1 && |st.jobs| == 2 && !st.stopping
    && st.servers[s].queue == queue && st.servers[s].worker == worker && st.servers[s].token == token
    && MODEL in st.servers[s].models
    && st.jobs[0].pc == pc0 && st.jobs[1].pc == pc1
    && st.jobs[0].model == MODEL && st.jobs[1].model == MODEL && st.jobs[0].slot.None?
    && st.jobs[0].total <= 1 && st.jobs[1].total <= 1 && st.jobs[0].lastFailed.None? && st.jobs[1].lastFailed.None?
    && (pc1.Fresh? ==> st.jobs[1].total == 0)
  }

  /** The first job is queued at `s`. */
  lemma FirstQueued(c: Config, R: State -> bool, s: ServerId) returns (st: State)
    requires c.mode.Push? && Closed(c, R) && R(Opening(s))
    ensures R(st) && Scene(st, s, [0], Asleep, true, Waiting(Some(s)), Fresh)
    ensures st.servers[s].healthy && st.servers[s].poller == Idle
  {
    st := Opening(s);
    st := JobMoves(c, R, st, 0, Submit);
    assert CandidateAt(st.servers, s, MODEL, {});
    st := Picks(c, R, st, 0, s);
    assert st.jobs[0].pc == Placing(Some(s));
    st := PlacesJob(c, R, st, 0);
    st := NudgesServer(c, R, st, 0);
  }

  /** It runs, while the second call has already chosen `s`. */
  lemma FirstRuns(c: Config, R: State -> bool, s: ServerId, st0: State) returns (st: State)
    requires c.mode.Push? && Closed(c, R) && R(st0) && Scene(st0, s, [0], Asleep, true, Waiting(Some(s)), Fresh)
    requires st0.servers[s].healthy && st0.servers[s].poller == Idle
    ensures R(st) && Scene(st, s, [], Marked(0), false, Waiting(Some(s)), Fresh)
    ensures st.servers[s].healthy && st.servers[s].poller == Idle
  {
    st := SrvMoves(c, R, st0, s, WakeUp);
    st := SrvMoves(c, R, st, s, LookIn);
    assert st.servers[s].worker.Looking?;
    assert Choice(c, st, s, false) == Some(0);
    st := Pops(c, R, st, s);
    st := SrvMoves(c, R, st, s, Start);
  }

  /** Server `s` is down, its poller is about to store good health, and the first call waits. */
  predicate Down(st: State, s: ServerId, queue: seq<JobId>, worker: Worker, token: bool, pc1: Submitter) {
    && s < |st.servers| && |st.jobs| == 2 && !st.stopping
    && st.servers[s].queue == queue && st.servers[s].worker == worker && st.servers[s].token == token
    && !st.servers[s].healthy && st.servers[s].poller == Judged(false)
    && st.jobs[0].pc == Waiting(Some(s)) && st.jobs[1].pc == pc1
  }

  lemma SecondChooses(c: Config, R: State -> bool, s: ServerId, st0: State) returns (st: State)
    requires c.mode.Push? && Closed(c, R) && R(st0) && Scene(st0, s, [], Marked(0), false, Waiting(Some(s)), Fresh)
    requires st0.servers[s].healthy && st0.servers[s].poller == Idle
    ensures R(st) && Scene(st, s, [], Marked(0), false, Waiting(Some(s)), Placing(Some(s)))
    ensures st.servers[s].healthy && st.servers[s].poller == Idle
  {
    st := JobMoves(c, R, st0, 1, Submit);
    assert CandidateAt(st.servers, s, MODEL, {});
    st := Picks(c, R, st, 1, s);
    assert st.jobs[1].pc == Placing(Some(s));
  }

  /** The poller reads good health, then the run ends with a connection error. */
  lemma FirstCrashes(c: Config, R: State -> bool, s: ServerId, st0: State) returns (st: State, res: Result)
    requires c.mode.Push? && Closed(c, R) && R(st0) && Scene(st0, s, [], Marked(0), false, Waiting(Some(s)), Placing(Some(s)))
    requires st0.servers[s].healthy && st0.servers[s].poller == Idle && s in Odd(c)
    ensures R(st) && Down(st, s, [], Crashing(0, res), false, Placing(Some(s))) && st.jobs[0].slot.None?
  {
    st := PollMoves(c, R, st0, s, ShapeLoad);
    st := Runs(c, R, st, s, Finished(Failed, false, true));
    res := Guarded(Finished(Failed, false, true), s);
  }

  lemma EmptiesHands(c: Config, R: State -> bool, s: ServerId, st0: State, res: Result) returns (st: State)
    requires Closed(c, R) && R(st0) && Down(st0, s, [], Crashing(0, res), false, Placing(Some(s))) && st0.jobs[0].slot.None?
    ensures R(st) && Down(st, s, [], Awake, false, Placing(Some(s)))
  {
    st := SrvMoves(c, R, st0, s, TakeQueue);
    st := SrvMoves(c, R, st, s, Unwind);
    assert Down(st, s, [], Sending(0, res), false, Placing(Some(s)));
    st := Delivers(c, R, st, s);
    assert Down(st, s, [], Releasing, false, Placing(Some(s)));
    st := SrvMoves(c, R, st, s, Release);
  }

  lemma SecondQueued(c: Config, R: State -> bool, s: ServerId, st0: State) returns (st: State)
    requires Closed(c, R) && R(st0) && Down(st0, s, [], Awake, false, Placing(Some(s)))
    ensures R(st) && Down(st, s, [1], Awake, true, Waiting(Some(s)))
  {
    st := PlacesJob(c, R, st0, 1);
    assert Down(st, s, [1], Awake, false, Nudging(Some(s), s));
    st := NudgesServer(c, R, st, 1);
  }

  /** The worker finds the server down twice and sleeps over the queued job. */
  lemma SleepsOverJob(c: Config, R: State -> bool, s: ServerId, st0: State) returns (st: State)
    requires Closed(c, R) && R(st0) && Down(st0, s, [1], Awake, true, Waiting(Some(s)))
    ensures R(st) && Down(st, s, [1], Asleep, false, Waiting(Some(s)))
  {
    st := SrvMoves(c, R, st0, s, LookIn);
    assert Down(st, s, [1], Asleep, true, Waiting(Some(s)));
    st := SrvMoves(c, R, st, s, WakeUp);
    assert Down(st, s, [1], Awake, false, Waiting(Some(s)));
    st := SrvMoves(c, R, st, s, LookIn);
  }

  /** The store makes the server healthy and wakes nobody. */
  lemma HealedUnseen(c: Config, R: State -> bool, s: ServerId, st0: State) returns (st: State)
    requires Closed(c, R) && R(st0) && Down(st0, s, [1], Asleep, false, Waiting(Some(s)))
    ensures R(st) && !st.stopping && s < |st.servers|
    ensures st.servers[s].healthy && st.servers[s].queue == [1] && !Attended(st, s)
  {
    st := PollMoves(c, R, st0, s, ShapeStore);
    assert !Stirred(st.servers[s]);
    assert !Nudges(st.jobs[0], s) && !Nudges(st.jobs[1], s);
  }

  lemma OddStrands(c: Config, s: ServerId) returns (st: State)
    requires c.mode.Push? && s in Odd(c)
    ensures Reachable(c, st) && !NoStranding(c, st)
  {
    var R := (st: State) => Reachable(c, st);
    forall st: State, a: Action | R(st) && Step(c, st, a).Some? ensures R(Step(c, st, a).value) {
      StepReachable(c, st, a);
    }
    InitReachable(c, Opening(s));
    st := FirstQueued(c, R, s);
    st := FirstRuns(c, R, s, st);
    var res;
    st := SecondChooses(c, R, s, st);
    st, res := FirstCrashes(c, R, s, st);
    st := EmptiesHands(c, R, s, st, res);
    st := SecondQueued(c, R, s, st);
    st := SleepsOverJob(c, R, s, st);
    st := HealedUnseen(c, R, s, st);
  }

  /** Push mode keeps every queue attended in every run exactly when no server is odd. */
  lemma NeverStrandsIffNoneOdd(c: Config)
    requires c.mode.Push?
    ensures NeverStrands(c) <==> Odd(c) == {}
  {
    if Odd(c) == {} {
      forall st: State | Reachable(c, st) ensures NoStranding(c, st) {
        var st0: State, acts: seq<Action> :| Init(st0) && After(c, st0, acts) == Some(st);
        AttendedAfter(c, st0, acts, st);
      }
    } else {
      var s :| s in Odd(c);
      var st := OddStrands(c, s);
    }
  }
}
