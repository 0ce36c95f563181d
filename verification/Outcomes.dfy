/**
 What a Submit call is told and what it does then: results are those of the runs, and the call goes on to a further
 attempt exactly when it should.
 */
module Outcomes {
  import opened Wrappers
  import opened Selection
  import opened Machine
  import opened Conservation
  import opened Order
  import opened Attempts
  import opened Finality
  import opened Failover
  import opened Guarantees

  /** What is told of the end of a run: the error and both flags, or for a panic an error without them. */
  predicate Reports(out: Outcome, s: ServerId, res: Result) {
    && res.server == Some(s)
    && match out
       case Finished(err, started, connection) => res.err == err && res.started == started && res.connection == connection
       case Panicked(_) => res.err == Failed && !res.started && !res.connection
  }

  /** The result is that of the job's last run. */
  predicate LastReported(j: JobRec, res: Result) {
    j.log.spans != [] && res.server.Some? && Reports(j.log.spans[|j.log.spans| - 1].out, res.server.value, res)
  }

  /** The last run ended without an error. */
  predicate Succeeded(j: JobRec) {
    j.log.spans != [] && j.log.spans[|j.log.spans| - 1].out.Finished? && j.log.spans[|j.log.spans| - 1].out.err == NoError
  }

  /** A run after which nothing is to follow: no error, or a response that had started. */
  predicate Conclusive(out: Outcome) {
    out.Finished? && (out.err == NoError || out.started)
  }

  ghost predicate FinalTrue(j: JobRec) {
    j.log.final <==> exists i :: 0 <= i < |j.log.spans| && Conclusive(j.log.spans[i].out)
  }

  /** Of the last run, or of a server that went down with the job in its queue, or of a shutdown. */
  predicate SlotTrue(c: Config, stopping: bool, j: JobRec) {
    j.slot.Some? ==>
      || LastReported(j, j.slot.value)
      || (c.mode.Push? && To(j.pc).Some? && j.slot.value == Result(Failed, false, false, To(j.pc)))
      || (stopping && j.slot.value == Result(Cancelled, false, false, None))
  }

  predicate ReturnTrue(c: Config, j: JobRec) {
    j.pc.Returned? ==>
      && (j.pc.err == NoError ==> Succeeded(j))
      && (Succeeded(j) ==> j.pc.err == NoError || (!c.mode.Push? && j.pc.err == Cancelled))
  }

  predicate HandTrue(jobs: seq<JobRec>, s: ServerId, w: Worker) {
    w.Crashing? || w.Failing? || w.Sending? ==>
      w.job < |jobs| && w.res.server == Some(s) && LastReported(jobs[w.job], w.res)
  }

  ghost predicate JobTrue(c: Config, stopping: bool, j: JobRec) {
    SlotTrue(c, stopping, j) && ReturnTrue(c, j) && FinalTrue(j)
  }

  ghost predicate Truthful(c: Config, st: State) {
    && (forall k: JobId | k < |st.jobs| :: JobTrue(c, st.stopping, st.jobs[k]))
    && (forall s: ServerId | s < |st.servers| :: HandTrue(st.jobs, s, st.servers[s].worker))
  }

  // ---------------------------------------------------------------- a call's own acts

  lemma SucceededIsFinal(j: JobRec)
    requires FinalTrue(j) && Succeeded(j)
    ensures j.log.final
  {
    assert Conclusive(j.log.spans[|j.log.spans| - 1].out);
  }

  lemma ReceiveTrue(c: Config, ss: seq<Srv>, now: Nanos, stopping: bool, j: JobRec, j': JobRec)
    requires JobMove(c, ss, now, j, Receive) == Some(j') && JobTrue(c, stopping, j) && JobFinal(j) && JobOrderly(c, |ss|, j)
    ensures JobTrue(c, stopping, j')
  {
    JobMoveKeepsLog(c, ss, now, j, Receive, j');
    if Succeeded(j) { SucceededIsFinal(j); }
  }

  lemma OwnActTrue(c: Config, ss: seq<Srv>, now: Nanos, stopping: bool, j: JobRec, a: SubmitAct, j': JobRec)
    requires JobMove(c, ss, now, j, a) == Some(j') && !a.Receive?
    requires JobTrue(c, stopping, j) && JobFinal(j) && JobOrderly(c, |ss|, j) && (j.slot.Some? ==> Out(j.pc))
    ensures JobTrue(c, stopping, j')
  {
    JobMoveKeepsLog(c, ss, now, j, a, j');
    if Succeeded(j) { SucceededIsFinal(j); }
  }

  lemma DeliveredIsOut(st: State, k: JobId)
    requires Balanced(st) && k < |st.jobs| && st.jobs[k].slot.Some?
    ensures Out(st.jobs[k].pc)
  {
    BalanceAt(st, k);
  }

  lemma MoveTrue(c: Config, st: State, k: JobId, a: SubmitAct, j': JobRec)
    requires Sound(c, st) && Truthful(c, st) && k < |st.jobs| && JobMove(c, st.servers, st.now, st.jobs[k], a) == Some(j')
    ensures Truthful(c, PutJob(st, k, j'))
  {
    MovedJobTrue(c, st, k, a, j');
    JobMoveKeepsLog(c, st.servers, st.now, st.jobs[k], a, j');
    OneJobTrue(c, st, k, PutJob(st, k, j'));
  }

  lemma MovedJobTrue(c: Config, st: State, k: JobId, a: SubmitAct, j': JobRec)
    requires Sound(c, st) && Truthful(c, st) && k < |st.jobs| && JobMove(c, st.servers, st.now, st.jobs[k], a) == Some(j')
    ensures JobTrue(c, st.stopping, j')
  {
    assert JobFinal(st.jobs[k]) && JobOrderly(c, |st.servers|, st.jobs[k]) && JobTrue(c, st.stopping, st.jobs[k]);
    if a.Receive? {
      ReceiveTrue(c, st.servers, st.now, st.stopping, st.jobs[k], j');
    } else {
      if st.jobs[k].slot.Some? { DeliveredIsOut(st, k); }
      OwnActTrue(c, st.servers, st.now, st.stopping, st.jobs[k], a, j');
    }
  }

  /** Nothing told, nothing run, nobody returned: the rest may change. */
  predicate Quiet(st: State, st': State) {
    && st'.stopping == st.stopping && |st'.jobs| == |st.jobs| && |st'.servers| == |st.servers|
    && (forall k: JobId | k < |st.jobs| ::
          && st'.jobs[k].slot == st.jobs[k].slot && st'.jobs[k].log.spans == st.jobs[k].log.spans
          && st'.jobs[k].log.final == st.jobs[k].log.final && To(st'.jobs[k].pc) == To(st.jobs[k].pc)
          && (st'.jobs[k].pc.Returned? ==> st'.jobs[k].pc == st.jobs[k].pc))
    && (forall s: ServerId | s < |st.servers| ::
          var w, w' := st.servers[s].worker, st'.servers[s].worker;
          w'.Crashing? || w'.Failing? || w'.Sending? ==>
            (w.Crashing? || w.Failing? || w.Sending?) && w'.job == w.job && w'.res == w.res)
  }

  lemma QuietTrue(c: Config, st: State, st': State)
    requires Truthful(c, st) && Quiet(st, st')
    ensures Truthful(c, st')
  {
    forall k: JobId | k < |st'.jobs| ensures JobTrue(c, st'.stopping, st'.jobs[k]) {
      assert JobTrue(c, st.stopping, st.jobs[k]);
    }
    forall s: ServerId | s < |st'.servers| ensures HandTrue(st'.jobs, s, st'.servers[s].worker) {
      assert HandTrue(st.jobs, s, st.servers[s].worker);
    }
  }

  lemma PlaceQuiet(st: State, k: JobId, st': State)
    requires k < |st.jobs| && PlaceStep(st, k) == Some(st')
    ensures Quiet(st, st')
  {
  }

  lemma NudgeQuiet(st: State, k: JobId, st': State)
    requires k < |st.jobs| && NudgeStep(st, k) == Some(st')
    ensures Quiet(st, st')
  {
  }

  /** When only job `k` changed and no hand did, its own truth is enough. */
  lemma OneJobTrue(c: Config, st: State, k: JobId, st': State)
    requires Truthful(c, st) && k < |st.jobs| && |st'.jobs| == |st.jobs| && st'.stopping == st.stopping
    requires forall x: JobId | x < |st.jobs| && x != k :: st'.jobs[x] == st.jobs[x]
    requires st'.jobs[k].log.spans == st.jobs[k].log.spans && JobTrue(c, st.stopping, st'.jobs[k])
    requires |st'.servers| == |st.servers| && forall s: ServerId | s < |st.servers| :: st'.servers[s].worker == st.servers[s].worker
    ensures Truthful(c, st')
  {
    forall s: ServerId | s < |st'.servers| ensures HandTrue(st'.jobs, s, st'.servers[s].worker) {
      assert HandTrue(st.jobs, s, st.servers[s].worker);
    }
  }

  lemma WithdrawShape(st: State, k: JobId, st': State)
    requires k < |st.jobs| && WithdrawStep(st, k) == Some(st')
    ensures |st'.jobs| == |st.jobs| && st'.stopping == st.stopping && |st'.servers| == |st.servers|
    ensures forall x: JobId | x < |st.jobs| && x != k :: st'.jobs[x] == st.jobs[x]
    ensures st'.jobs[k] == st.jobs[k].(pc := st'.jobs[k].pc)
    ensures st'.jobs[k].pc == Returned(Cancelled) || (st'.jobs[k].pc.Forced? && To(st'.jobs[k].pc) == To(st.jobs[k].pc))
    ensures forall s: ServerId | s < |st.servers| :: st'.servers[s].worker == st.servers[s].worker
  {
  }

  /** A job that is withdrawn has not succeeded, since it was still in line. */
  lemma WithdrawTrue(c: Config, st: State, k: JobId, st': State)
    requires Sound(c, st) && Truthful(c, st) && k < |st.jobs| && WithdrawStep(st, k) == Some(st')
    ensures Truthful(c, st')
  {
    var j := st.jobs[k];
    WithdrawShape(st, k, st');
    assert JobTrue(c, st.stopping, j);
    if st'.jobs[k].pc.Returned? {
      WithdrawnNotFinal(c, st, k, st');
      if Succeeded(j) { SucceededIsFinal(j); }
      WithdrawnJobTrue(c, st.stopping, j, st'.jobs[k]);
    }
    OneJobTrue(c, st, k, st');
  }

  lemma WithdrawnJobTrue(c: Config, stopping: bool, j: JobRec, j': JobRec)
    requires JobTrue(c, stopping, j) && !Succeeded(j) && j.slot.None? && j' == j.(pc := Returned(Cancelled))
    ensures JobTrue(c, stopping, j')
  {
  }

  lemma WithdrawnNotFinal(c: Config, st: State, k: JobId, st': State)
    requires Sound(c, st) && k < |st.jobs| && WithdrawStep(st, k) == Some(st') && st'.jobs[k].pc.Returned?
    ensures !st.jobs[k].log.final && st.jobs[k].slot.None? && st'.jobs[k] == st.jobs[k].(pc := Returned(Cancelled))
  {
    var to := st.jobs[k].pc.to;
    if to.None? {
      CountMember(st.pool, IndexOf(st.pool, k).value);
      PooledAlone(st, k);
      assert FinalOf(st.jobs, k) ==> Count(st.pool, k) == 0;
    } else {
      var s := to.value;
      CountMember(st.servers[s].queue, IndexOf(st.servers[s].queue, k).value);
      assert At(st, s, k);
      HeldAlone(st, s, k);
      QueuedIsNotCarried(st, s, k);
    }
  }

  /** A job in the queue is not in the hands. */
  lemma QueuedIsNotCarried(st: State, s: ServerId, k: JobId)
    requires Balanced(st) && s < |st.servers| && Count(st.servers[s].queue, k) > 0
    ensures !CarriesFinal(st.servers[s].worker, k)
  {
    HeldAlone(st, s, k);
  }

  // ---------------------------------------------------------------- a worker's steps

  lemma FinishTrue(c: Config, st: State, s: ServerId, out: Outcome, st': State)
    requires Sound(c, st) && Truthful(c, st) && s < |st.servers| && FinishStep(st, s, out) == Some(st')
    ensures Truthful(c, st')
  {
    var k := st.servers[s].worker.job;
    assert At(st, s, k);
    HeldAlone(st, s, k);
    assert JobTrue(c, st.stopping, st.jobs[k]);
    RanFinal(st.jobs[k], st.servers[s].worker.since, st.now, s, out);
    forall t: ServerId | t < |st'.servers| ensures HandTrue(st'.jobs, t, st'.servers[t].worker) {
      if t != s { OthersHand(st, s, k, st', t); } else { FinishHand(st, s, out, st'); }
    }
  }

  lemma FinishHand(st: State, s: ServerId, out: Outcome, st': State)
    requires s < |st.servers| && FinishStep(st, s, out) == Some(st')
    ensures HandTrue(st'.jobs, s, st'.servers[s].worker)
  {
  }

  lemma OthersHand(st: State, s: ServerId, k: JobId, st': State, t: ServerId)
    requires t < |st.servers| && t < |st'.servers| && st'.servers[t] == st.servers[t] && Part(All, st.servers[t], k) == 0
    requires |st'.jobs| == |st.jobs| && (forall x: JobId | x < |st.jobs| && x != k :: st'.jobs[x] == st.jobs[x])
    requires HandTrue(st.jobs, t, st.servers[t].worker)
    ensures HandTrue(st'.jobs, t, st'.servers[t].worker)
  {
    assert Held(st.servers[t].worker, k) <= Part(All, st.servers[t], k);
  }

  lemma RanFinal(j: JobRec, since: Nanos, now: Nanos, s: ServerId, out: Outcome)
    requires FinalTrue(j)
    ensures FinalTrue(Ran(j, since, now, s, out))
  {
    var j' := Ran(j, since, now, s, out);
    var n := |j.log.spans|;
    assert j'.log.spans[n].out == out && forall i | 0 <= i < n :: j'.log.spans[i] == j.log.spans[i];
    if j.log.final {
      var i :| 0 <= i < n && Conclusive(j.log.spans[i].out);
      assert Conclusive(j'.log.spans[i].out);
    } else if Conclusive(out) {
      assert Conclusive(j'.log.spans[n].out);
    }
  }

  /** What a worker hands over is true of the job that gets it. */
  lemma ParcelTrue(c: Config, st: State, s: ServerId, p: Parcel)
    requires Sound(c, st) && Truthful(c, st) && s < |st.servers| && NextParcel(st.servers[s].worker, s) == Some(p)
    ensures p.job < |st.jobs| && st.jobs[p.job].slot.None? && SlotTrue(c, st.stopping, st.jobs[p.job].(slot := Some(p.res)))
  {
    assert At(st, s, p.job);
    HeldAlone(st, s, p.job);
    assert SrvOrderly(c, st.stopping, st.servers[s], s) && HandTrue(st.jobs, s, st.servers[s].worker);
    if c.mode.Push? { assert SentTo(st.jobs, p.job, s); }
  }

  lemma DeliverShape(st: State, s: ServerId, st': State, p: Parcel)
    requires s < |st.servers| && DeliverStep(st, s) == Some(st') && NextParcel(st.servers[s].worker, s) == Some(p)
    requires p.job < |st.jobs| && st.jobs[p.job].slot.None?
    ensures st' == PutSrv(st, s, st.servers[s].(worker := p.worker)).(jobs := st.jobs[p.job := st.jobs[p.job].(slot := Some(p.res))])
    ensures var w, w' := st.servers[s].worker, p.worker;
            w'.Crashing? || w'.Failing? || w'.Sending? ==>
              (w.Crashing? || w.Failing? || w.Sending?) && w'.job == w.job && w'.res == w.res
  {
  }

  lemma DeliverTrue(c: Config, st: State, s: ServerId, st': State)
    requires Sound(c, st) && Truthful(c, st) && s < |st.servers| && DeliverStep(st, s) == Some(st')
    ensures Truthful(c, st')
  {
    var p := NextParcel(st.servers[s].worker, s).value;
    ParcelTrue(c, st, s, p);
    DeliverShape(st, s, st', p);
    TookParcel(c, st.stopping, st.jobs[p.job], p.res);
    forall t: ServerId | t < |st'.servers| ensures HandTrue(st'.jobs, t, st'.servers[t].worker) {
      SlotUnseen(st.jobs, st'.jobs, t, st.servers[t].worker, st'.servers[t].worker);
    }
  }

  lemma TookParcel(c: Config, stopping: bool, j: JobRec, res: Result)
    requires JobTrue(c, stopping, j) && SlotTrue(c, stopping, j.(slot := Some(res)))
    ensures JobTrue(c, stopping, j.(slot := Some(res)))
  {
  }

  /** What hands say does not depend on the slots. */
  lemma SlotUnseen(jobs: seq<JobRec>, jobs': seq<JobRec>, s: ServerId, w: Worker, w': Worker)
    requires |jobs'| == |jobs| && forall k: JobId | k < |jobs| :: jobs'[k].log.spans == jobs[k].log.spans
    requires w'.Crashing? || w'.Failing? || w'.Sending? ==>
               (w.Crashing? || w.Failing? || w.Sending?) && w'.job == w.job && w'.res == w.res
    requires HandTrue(jobs, s, w)
    ensures HandTrue(jobs', s, w')
  {
  }

  lemma SrvMoveQuiet(c: Config, jobs: seq<JobRec>, stopping: bool, sv: Srv, s: ServerId, a: WorkAct, sv': Srv)
    requires SrvMove(c, jobs, stopping, sv, s, a) == Some(sv')
    ensures var w, w' := sv.worker, sv'.worker;
            w'.Crashing? || w'.Failing? || w'.Sending? ==>
              (w.Crashing? || w.Failing? || w.Sending?) && w'.job == w.job && w'.res == w.res
  {
  }

  lemma WorkQuiet(c: Config, st: State, s: ServerId, a: WorkAct, st': State)
    requires WorkStep(c, st, s, a) == Some(st') && !a.Finish? && !a.Deliver?
    ensures Quiet(st, st')
  {
    if !a.Pop? && !a.Begin? && !a.DrainPool? {
      SrvMoveQuiet(c, st.jobs, st.stopping, st.servers[s], s, a, st'.servers[s]);
    }
  }

  lemma WorkTrue(c: Config, st: State, s: ServerId, a: WorkAct, st': State)
    requires Sound(c, st) && Truthful(c, st) && WorkStep(c, st, s, a) == Some(st')
    ensures Truthful(c, st')
  {
    if a.Finish? {
      FinishTrue(c, st, s, a.out, st');
    } else if a.Deliver? {
      DeliverTrue(c, st, s, st');
    } else {
      WorkQuiet(c, st, s, a, st');
      QuietTrue(c, st, st');
    }
  }

  // ---------------------------------------------------------------- runs

  lemma SubmitTrue(c: Config, st: State, k: JobId, a: SubmitAct, st': State)
    requires Sound(c, st) && Truthful(c, st) && SubmitStep(c, st, k, a) == Some(st')
    ensures Truthful(c, st')
  {
    match a
    case Place => PlaceQuiet(st, k, st'); QuietTrue(c, st, st');
    case Nudge => NudgeQuiet(st, k, st'); QuietTrue(c, st, st');
    case Withdraw => WithdrawTrue(c, st, k, st');
    case _ => MoveTrue(c, st, k, a, st'.jobs[k]);
  }

  lemma TruthfulStep(c: Config, st: State, a: Action, st': State)
    requires Sound(c, st) && Truthful(c, st) && Step(c, st, a) == Some(st')
    ensures Truthful(c, st')
  {
    match a
    case Sub(k, sub) => SubmitTrue(c, st, k, sub, st');
    case Work(s, work) => WorkTrue(c, st, s, work, st');
    case Poll(s, _) => QuietTrue(c, st, st');
    case Shutdown =>
      forall k: JobId | k < |st'.jobs| ensures JobTrue(c, st'.stopping, st'.jobs[k]) {
        assert JobTrue(c, st.stopping, st.jobs[k]);
      }
    case Tick(_) => QuietTrue(c, st, st');
  }

  lemma TruthfulInit(c: Config, st: State)
    requires Init(st)
    ensures Truthful(c, st)
  {
    forall k: JobId | k < |st.jobs| ensures JobTrue(c, st.stopping, st.jobs[k]) {
      assert InitJob(st.jobs[k]);
    }
  }

  lemma {:induction false} TruthfulAfter(c: Config, st0: State, acts: seq<Action>, st: State)
    requires Init(st0) && After(c, st0, acts) == Some(st)
    ensures Truthful(c, st)
    decreases |acts|
  {
    if acts == [] {
      TruthfulInit(c, st0);
    } else {
      var mid := After(c, st0, acts[..|acts| - 1]).value;
      TruthfulAfter(c, st0, acts[..|acts| - 1], mid);
      SoundAfter(c, st0, acts[..|acts| - 1], mid);
      TruthfulStep(c, mid, acts[|acts| - 1], st);
    }
  }

  lemma TruthfulReachable(c: Config, st: State)
    requires Reachable(c, st)
    ensures Truthful(c, st)
  {
    var st0: State, acts: seq<Action> :| Init(st0) && After(c, st0, acts) == Some(st);
    TruthfulAfter(c, st0, acts, st);
  }

  /** A result on its way to a call is that of the last run, or a server's that went down, or a shutdown's. */
  lemma ResultsAreTrue(c: Config, st: State, k: JobId)
    requires Reachable(c, st) && k < |st.jobs| && st.jobs[k].slot.Some?
    ensures var j, res := st.jobs[k], st.jobs[k].slot.value;
            || (exists i, s :: i == |j.log.spans| - 1 && i >= 0 && Reports(j.log.spans[i].out, s, res))
            || (c.mode.Push? && res == Result(Failed, false, false, To(j.pc)))
            || (st.stopping && res == Result(Cancelled, false, false, None))
  {
    TruthfulReachable(c, st);
    var j, res := st.jobs[k], st.jobs[k].slot.value;
    assert SlotTrue(c, st.stopping, j);
    if LastReported(j, res) {
      var i, s := |j.log.spans| - 1, res.server.value;
      assert Reports(j.log.spans[i].out, s, res);
    }
  }

  /** A call reports success exactly when its last run succeeded; only a cancelled pull call says so instead. */
  lemma SuccessIsTold(c: Config, st: State, k: JobId)
    requires Reachable(c, st) && k < |st.jobs| && st.jobs[k].pc.Returned?
    ensures st.jobs[k].pc.err == NoError ==> Succeeded(st.jobs[k])
    ensures Succeeded(st.jobs[k]) ==> st.jobs[k].pc.err == NoError || (!c.mode.Push? && st.jobs[k].pc.err == Cancelled)
  {
    TruthfulReachable(c, st);
    assert JobTrue(c, st.stopping, st.jobs[k]);
  }

  /** No run follows one that succeeded or whose response had started. */
  lemma NothingAfterConclusive(c: Config, st: State, s: ServerId, i: nat)
    requires Reachable(c, st) && s < |st.servers| && st.servers[s].worker.Marked? && st.servers[s].worker.job < |st.jobs|
    requires i < |st.jobs[st.servers[s].worker.job].log.spans|
    ensures !Conclusive(st.jobs[st.servers[s].worker.job].log.spans[i].out)
  {
    TruthfulReachable(c, st);
    AboutToRun(c, st, s);
    assert JobTrue(c, st.stopping, st.jobs[st.servers[s].worker.job]);
  }

  // ---------------------------------------------------------------- when a call goes on

  /** An error, no response started, no cancelled context, and attempts left. */
  predicate GoesOn(c: Config, placed: nat, res: Result) {
    res.err != NoError && !res.started && res.err != Cancelled && placed < c.maxAttempts
  }

  lemma PlacedAreTries(c: Config, st: State, k: JobId)
    requires Sound(c, st) && k < |st.jobs| && Out(st.jobs[k].pc)
    ensures st.jobs[k].log.placed == if c.mode.Push? then st.jobs[k].total else st.jobs[k].total + 1
  {
    assert Counted(c, st.jobs[k]);
  }

  /** Whoever waits and has a result can take it. */
  lemma CanReceive(c: Config, st: State, k: JobId)
    requires k < |st.jobs| && (st.jobs[k].pc.Waiting? || st.jobs[k].pc.Forced?) && st.jobs[k].slot.Some?
    ensures Step(c, st, Sub(k, Receive)).Some?
  {
  }

  /**
   After a result a call goes on to another attempt exactly when it has an error, no response had started, no context
   was cancelled, and fewer than MaxAttempts attempts were made; it then avoids the server of the attempt. Otherwise
   it returns the error of the result. A pull call that was cancelled returns that.
   */
  lemma AfterResult(c: Config, st: State, k: JobId, st': State)
    requires Reachable(c, st) && Step(c, st, Sub(k, Receive)) == Some(st') && k < |st.jobs|
    ensures k < |st'.jobs| && st.jobs[k].slot.Some? && st'.jobs[k].slot.None?
    ensures var j, j', res := st.jobs[k], st'.jobs[k], st.jobs[k].slot.value;
            if !c.mode.Push? && j.pc.Forced? then j'.pc == Returned(Cancelled)
            else if GoesOn(c, j.log.placed, res) then
              && j.log.trail != []
              && if c.mode.Push? then j'.pc == Choosing([], false) && j'.lastFailed == Some(Last(j.log.trail))
                 else j'.pc == Excluding([]) && j'.visited == {Last(j.log.trail)}
            else j'.pc == Returned(res.err)
  {
    SoundReachable(c, st);
    var j := st.jobs[k];
    assert JobOrderly(c, |st.servers|, j);
    PlacedAreTries(c, st, k);
    if c.mode.Push? { assert PushTrail(|st.servers|, j); } else { assert PullTrail(|st.servers|, j); }
  }

  lemma SubmitReturns(c: Config, st: State, x: JobId, a: SubmitAct, st': State, k: JobId)
    requires SubmitStep(c, st, x, a) == Some(st') && k < |st.jobs| && k < |st'.jobs|
    requires !st.jobs[k].pc.Returned? && st'.jobs[k].pc.Returned?
    ensures x == k
    ensures || (a.GiveUp? && st'.jobs[k].pc.err == Failed)
            || ((a.CancelPause? || a.Withdraw?) && st'.jobs[k].pc.err == Cancelled)
            || a.Receive?
  {
  }

  /** How a call returns: for want of a server, cancelled in a pause or in line, or after a result. */
  lemma HowCallsReturn(c: Config, st: State, a: Action, st': State, k: JobId)
    requires Step(c, st, a) == Some(st') && k < |st.jobs| && k < |st'.jobs|
    requires !st.jobs[k].pc.Returned? && st'.jobs[k].pc.Returned?
    ensures a.Sub? && a.k == k
    ensures || (a.sub.GiveUp? && st'.jobs[k].pc.err == Failed)
            || ((a.sub.CancelPause? || a.sub.Withdraw?) && st'.jobs[k].pc.err == Cancelled)
            || a.sub.Receive?
  {
    if a.Sub? {
      SubmitReturns(c, st, a.k, a.sub, st', k);
    } else if a.Work? {
      WorkSameCalls(c, st, a.s, a.work, st');
    }
  }
}
