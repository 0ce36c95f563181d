/**
 What every reachable state looks like: INV-1 and the InFlight flag, where the lines are, and that a
 job handed over in push mode is only ever at the server its Submit waits for.
 */
module Order {
  import opened Wrappers
  import opened Selection
  import opened Machine
  import opened Conservation

  predicate Busy(w: Worker) {
    w.Marked? || w.Running? || w.Crashing? || w.Failing? || w.Sending? || w.Releasing?
  }

  predicate Leaving(w: Worker) {
    w.Draining? || w.DrainingPool? || w.Stopped?
  }

  predicate EmptyHanded(w: Worker) {
    (w.Failing? ==> w.rest == []) && (w.Draining? ==> w.rest == [])
  }

  predicate SrvOrderly(c: Config, stopping: bool, sv: Srv, s: ServerId) {
    && (sv.inFlight <==> Busy(sv.worker))
    && (Leaving(sv.worker) ==> stopping)
    && NO_MODEL !in sv.models
    && (c.mode.Push? ==> !sv.worker.DrainingPool?)
    && (!c.mode.Push? ==> sv.queue == [] && EmptyHanded(sv.worker) && sv.current == sv.lastDispatched)
    && (!c.mode.Push? && sv.current != NO_MODEL ==> sv.streak > 0)
    && (sv.worker.Looking? ==>
          && sv.worker.view.self == s && sv.worker.view.current == sv.current
          && NO_MODEL !in sv.worker.view.allowed
          && sv.worker.force == ForcesSwitch(c, sv))
  }

  function To(pc: Submitter): Option<ServerId> {
    match pc
    case Pausing(to) => to
    case Placing(to) => to
    case Nudging(to, _) => to
    case Waiting(to) => to
    case Withdrawing(to) => to
    case Forced(to) => to
    case _ => None
  }

  predicate JobOrderly(c: Config, n: nat, j: JobRec) {
    && (c.mode.Push? ==> !j.pc.Checking? && !j.pc.Scanning? && !j.pc.Excluding?)
    && (c.mode.Push? && (Out(j.pc) || j.pc.Pausing? || j.pc.Placing?) ==> To(j.pc).Some? && To(j.pc).value < n)
    && (!c.mode.Push? ==> !j.pc.Choosing? && To(j.pc).None?)
    && (j.pc.Choosing? || j.pc.Excluding? ==> |j.pc.looks| <= n)
    && (j.pc.Scanning? && j.pc.best.Some? ==> j.pc.best.value < n)
    && (j.pc.Nudging? ==> j.pc.whom < n && (c.mode.Push? ==> j.pc.to == Some(j.pc.whom)))
  }

  ghost predicate Orderly(c: Config, st: State) {
    && (c.mode.Push? ==> st.pool == [])
    && (forall s | 0 <= s < |st.servers| :: SrvOrderly(c, st.stopping, st.servers[s], s))
    && (forall k | 0 <= k < |st.jobs| :: JobOrderly(c, |st.servers|, st.jobs[k]))
  }

  lemma JobMoveOrderly(c: Config, ss: seq<Srv>, now: Nanos, j: JobRec, a: SubmitAct, j': JobRec)
    requires JobMove(c, ss, now, j, a) == Some(j') && JobOrderly(c, |ss|, j)
    ensures JobOrderly(c, |ss|, j')
  {
  }

  lemma SrvMoveOrderly(c: Config, jobs: seq<JobRec>, stopping: bool, sv: Srv, s: ServerId, a: WorkAct, sv': Srv)
    requires SrvMove(c, jobs, stopping, sv, s, a) == Some(sv') && SrvOrderly(c, stopping, sv, s)
    ensures SrvOrderly(c, stopping, sv', s)
  {
  }

  lemma PlaceOrderly(c: Config, st: State, k: JobId, st': State)
    requires Orderly(c, st) && k < |st.jobs| && PlaceStep(st, k) == Some(st')
    ensures Orderly(c, st')
  {
    assert JobOrderly(c, |st.servers|, st.jobs[k]) && JobOrderly(c, |st.servers|, st'.jobs[k]);
    if st.jobs[k].pc.to.Some? {
      var s := st.jobs[k].pc.to.value;
      assert SrvOrderly(c, st.stopping, st.servers[s], s) && SrvOrderly(c, st.stopping, st'.servers[s], s);
    }
  }

  lemma PutOrderly(c: Config, st: State, k: JobId, j: JobRec, pool: seq<JobId>)
    requires Orderly(c, st) && k < |st.jobs| && JobOrderly(c, |st.servers|, j) && (c.mode.Push? ==> pool == [])
    ensures Orderly(c, PutJob(st, k, j).(pool := pool))
  {
  }

  lemma PutBothOrderly(c: Config, st: State, k: JobId, j: JobRec, s: ServerId, sv: Srv)
    requires Orderly(c, st) && k < |st.jobs| && JobOrderly(c, |st.servers|, j)
    requires s < |st.servers| && SrvOrderly(c, st.stopping, sv, s)
    ensures Orderly(c, PutSrv(PutJob(st, k, j), s, sv))
  {
  }

  lemma WithdrawFromPoolOrderly(c: Config, st: State, k: JobId, st': State)
    requires Orderly(c, st) && k < |st.jobs| && st.jobs[k].pc.Withdrawing? && st.jobs[k].pc.to.None? && WithdrawStep(st, k) == Some(st')
    ensures Orderly(c, st')
  {
    assert JobOrderly(c, |st.servers|, st.jobs[k]);
    PutOrderly(c, st, k, st'.jobs[k], st'.pool);
  }

  lemma WithdrawFromQueueOrderly(c: Config, st: State, k: JobId, st': State)
    requires Orderly(c, st) && k < |st.jobs| && st.jobs[k].pc.Withdrawing? && st.jobs[k].pc.to.Some? && WithdrawStep(st, k) == Some(st')
    ensures Orderly(c, st')
  {
    var s := st.jobs[k].pc.to.value;
    assert JobOrderly(c, |st.servers|, st.jobs[k]);
    assert SrvOrderly(c, st.stopping, st.servers[s], s);
    PutBothOrderly(c, st, k, st'.jobs[k], s, st'.servers[s]);
  }

  lemma WithdrawOrderly(c: Config, st: State, k: JobId, st': State)
    requires Orderly(c, st) && k < |st.jobs| && WithdrawStep(st, k) == Some(st')
    ensures Orderly(c, st')
  {
    if st.jobs[k].pc.to.None? {
      WithdrawFromPoolOrderly(c, st, k, st');
    } else {
      WithdrawFromQueueOrderly(c, st, k, st');
    }
  }

  lemma SubmitOrderly(c: Config, st: State, k: JobId, a: SubmitAct, st': State)
    requires Orderly(c, st) && SubmitStep(c, st, k, a) == Some(st')
    ensures Orderly(c, st')
  {
    match a
    case Place => PlaceOrderly(c, st, k, st');
    case Withdraw => WithdrawOrderly(c, st, k, st');
    case Nudge =>
    case _ => JobMoveOrderly(c, st.servers, st.now, st.jobs[k], a, st'.jobs[k]);
  }

  lemma TookOrderly(c: Config, st: State, s: ServerId, i: Option<nat>)
    requires Orderly(c, st) && s < |st.servers| && st.servers[s].worker.Looking?
    requires i.Some? ==> i.value < |Line(c, st, s)|
    ensures Orderly(c, Took(c, st, s, i))
  {
    assert SrvOrderly(c, st.stopping, st.servers[s], s);
    assert SrvOrderly(c, st.stopping, Took(c, st, s, i).servers[s], s);
  }

  lemma RunOrderly(c: Config, st: State, s: ServerId, st': State)
    requires Orderly(c, st) && s < |st.servers|
    requires BeginStep(c, st, s) == Some(st') || exists out :: FinishStep(st, s, out) == Some(st')
    ensures Orderly(c, st')
  {
    var k := st.servers[s].worker.job;
    assert SrvOrderly(c, st.stopping, st.servers[s], s) && SrvOrderly(c, st.stopping, st'.servers[s], s);
    assert JobOrderly(c, |st.servers|, st.jobs[k]) && JobOrderly(c, |st.servers|, st'.jobs[k]);
  }

  lemma DeliverOrderly(c: Config, st: State, s: ServerId, st': State)
    requires Orderly(c, st) && s < |st.servers| && DeliverStep(st, s) == Some(st')
    ensures Orderly(c, st')
  {
    var k := NextParcel(st.servers[s].worker, s).value.job;
    assert SrvOrderly(c, st.stopping, st.servers[s], s) && SrvOrderly(c, st.stopping, st'.servers[s], s);
    if k < |st.jobs| {
      assert JobOrderly(c, |st.servers|, st.jobs[k]) && JobOrderly(c, |st.servers|, st'.jobs[k]);
    }
  }

  lemma WorkOrderly(c: Config, st: State, s: ServerId, a: WorkAct, st': State)
    requires Orderly(c, st) && WorkStep(c, st, s, a) == Some(st')
    ensures Orderly(c, st')
  {
    match a
    case Pop(held) => TookOrderly(c, st, s, Choice(c, st, s, held));
    case Begin => RunOrderly(c, st, s, st');
    case Finish(out) => assert FinishStep(st, s, out) == Some(st'); RunOrderly(c, st, s, st');
    case Deliver => DeliverOrderly(c, st, s, st');
    case DrainPool =>
    case _ => SrvMoveOrderly(c, st.jobs, st.stopping, st.servers[s], s, a, st'.servers[s]);
  }

  lemma PollOrderly(c: Config, st: State, s: ServerId, a: PollAct, st': State)
    requires Orderly(c, st) && PollStep(c, st, s, a) == Some(st')
    ensures Orderly(c, st')
  {
  }

  // ---------------------------------------------------------------- where a job may be

  /** Job `k` is in the queue of server `s` or in the hands of its worker. */
  predicate At(st: State, s: ServerId, k: JobId) {
    s < |st.servers| && Part(All, st.servers[s], k) > 0
  }

  predicate SentTo(jobs: seq<JobRec>, k: JobId, s: ServerId) {
    k < |jobs| && To(jobs[k].pc) == Some(s)
  }

  /** A job in a queue, or in the hands of the queue's worker, is there by its Submit's choice. */
  ghost predicate Addressed(c: Config, st: State) {
    c.mode.Push? ==> forall s: ServerId, k: JobId | At(st, s, k) :: SentTo(st.jobs, k, s)
  }

  lemma JobMoveKeepsAddress(c: Config, ss: seq<Srv>, now: Nanos, j: JobRec, a: SubmitAct, j': JobRec)
    requires JobMove(c, ss, now, j, a) == Some(j') && c.mode.Push? && JobOrderly(c, |ss|, j)
    requires Out(j.pc) && j.slot.None?
    ensures To(j'.pc) == To(j.pc)
  {
  }

  lemma PlaceAddressed(c: Config, st: State, k: JobId, st': State)
    requires Balanced(st) && Orderly(c, st) && Addressed(c, st) && k < |st.jobs| && PlaceStep(st, k) == Some(st')
    ensures Addressed(c, st')
  {
    Nowhere(st, k);
    if c.mode.Push? {
      assert JobOrderly(c, |st.servers|, st.jobs[k]);
      var s := st.jobs[k].pc.to.value;
      forall t: ServerId, x: JobId | At(st', t, x) ensures SentTo(st'.jobs, x, t) {
        CountConcat(st.servers[s].queue, [k], x);
        assert x != k ==> At(st, t, x);
      }
    }
  }

  lemma WithdrawAddressed(c: Config, st: State, k: JobId, st': State)
    requires Balanced(st) && Orderly(c, st) && Addressed(c, st) && k < |st.jobs| && WithdrawStep(st, k) == Some(st')
    ensures Addressed(c, st')
  {
    if c.mode.Push? {
      assert JobOrderly(c, |st.servers|, st.jobs[k]);
      var s := st.jobs[k].pc.to.value;
      var i := IndexOf(st.servers[s].queue, k);
      if i.Some? {
        CountMember(st.servers[s].queue, i.value);
        HeldAlone(st, s, k);
      }
      forall t: ServerId, x: JobId | At(st', t, x) ensures SentTo(st'.jobs, x, t) {
        if i.Some? { CountWithout(st.servers[s].queue, i.value, x); }
        assert At(st, t, x);
      }
    }
  }

  lemma SubmitAddressed(c: Config, st: State, k: JobId, a: SubmitAct, st': State)
    requires Balanced(st) && Orderly(c, st) && Addressed(c, st) && SubmitStep(c, st, k, a) == Some(st')
    ensures Addressed(c, st')
  {
    match a
    case Place => PlaceAddressed(c, st, k, st');
    case Withdraw => WithdrawAddressed(c, st, k, st');
    case Nudge =>
      forall t: ServerId, x: JobId | At(st', t, x) ensures c.mode.Push? ==> SentTo(st'.jobs, x, t) {
        assert At(st, t, x);
      }
    case _ => MoveAddressed(c, st, k, a, st');
  }

  lemma MoveAddressed(c: Config, st: State, k: JobId, a: SubmitAct, st': State)
    requires Balanced(st) && Orderly(c, st) && Addressed(c, st) && k < |st.jobs| && k < |st'.jobs|
    requires JobMove(c, st.servers, st.now, st.jobs[k], a) == Some(st'.jobs[k]) && st' == PutJob(st, k, st'.jobs[k])
    ensures Addressed(c, st')
  {
    if c.mode.Push? {
      assert JobOrderly(c, |st.servers|, st.jobs[k]);
      if Out(st.jobs[k].pc) && st.jobs[k].slot.None? {
        JobMoveKeepsAddress(c, st.servers, st.now, st.jobs[k], a, st'.jobs[k]);
      } else {
        Nowhere(st, k);
      }
      forall t: ServerId, x: JobId | At(st', t, x) ensures SentTo(st'.jobs, x, t) {
        assert At(st, t, x);
      }
    }
  }

  /** A worker's step that hands nothing new to a server keeps the addresses. */
  lemma WorkKeepsAddress(c: Config, st: State, s: ServerId, st': State)
    requires Addressed(c, st) && s < |st.servers| && OnlyServer(st, s, st') && |st'.jobs| == |st.jobs|
    requires c.mode.Push? ==> forall x: JobId :: Part(All, st'.servers[s], x) <= Part(All, st.servers[s], x)
    requires forall y | 0 <= y < |st.jobs| :: To(st'.jobs[y].pc) == To(st.jobs[y].pc)
    ensures Addressed(c, st')
  {
    if c.mode.Push? {
      forall t: ServerId, x: JobId | At(st', t, x) ensures SentTo(st'.jobs, x, t) {
        assert At(st, t, x);
        assert SentTo(st.jobs, x, t);
      }
    }
  }

  lemma WorkAddressed(c: Config, st: State, s: ServerId, a: WorkAct, st': State)
    requires Addressed(c, st) && WorkStep(c, st, s, a) == Some(st')
    ensures Addressed(c, st')
  {
    forall x: JobId ensures c.mode.Push? ==> Part(All, st'.servers[s], x) <= Part(All, st.servers[s], x) {
      match a
      case Pop(held) => PopLocal(c, st, s, held, st', x);
      case Begin =>
      case Finish(_) =>
      case Deliver => DeliverKeepsPcs(st, s, st', s, x);
      case DrainPool =>
      case _ => SrvMoveLocal(c, st.jobs, st.stopping, st.servers[s], s, a, st'.servers[s], x);
    }
    forall y | 0 <= y < |st.jobs| ensures To(st'.jobs[y].pc) == To(st.jobs[y].pc) {
      if a.Deliver? { DeliverKeepsPcs(st, s, st', s, y); }
    }
    WorkKeepsAddress(c, st, s, st');
  }

  lemma DeliverKeepsPcs(st: State, s: ServerId, st': State, t: ServerId, x: JobId)
    requires s < |st.servers| && t < |st.servers| && DeliverStep(st, s) == Some(st')
    ensures Part(All, st'.servers[t], x) <= Part(All, st.servers[t], x)
    ensures forall y | 0 <= y < |st.jobs| :: st'.jobs[y] == st.jobs[y].(slot := st'.jobs[y].slot)
  {
  }

  lemma PollAddressed(c: Config, st: State, s: ServerId, a: PollAct, st': State)
    requires Addressed(c, st) && PollStep(c, st, s, a) == Some(st')
    ensures Addressed(c, st')
  {
    forall t: ServerId, x: JobId | At(st', t, x) ensures c.mode.Push? ==> SentTo(st'.jobs, x, t) {
      assert At(st, t, x);
    }
  }

  lemma OrderStep(c: Config, st: State, a: Action, st': State)
    requires Balanced(st) && Orderly(c, st) && Addressed(c, st) && Step(c, st, a) == Some(st')
    ensures Orderly(c, st') && Addressed(c, st')
  {
    match a
    case Sub(k, sub) => SubmitOrderly(c, st, k, sub, st'); SubmitAddressed(c, st, k, sub, st');
    case Work(s, work) => WorkOrderly(c, st, s, work, st'); WorkAddressed(c, st, s, work, st');
    case Poll(s, poll) => PollOrderly(c, st, s, poll, st'); PollAddressed(c, st, s, poll, st');
    case Shutdown =>
    case Tick(_) =>
  }

  lemma OrderInit(c: Config, st: State)
    requires Init(st)
    ensures Orderly(c, st) && Addressed(c, st)
  {
  }

  // ---------------------------------------------------------------- over whole runs

  ghost predicate Safe(c: Config, st: State) {
    Balanced(st) && Orderly(c, st) && Addressed(c, st)
  }

  lemma SafeStep(c: Config, st: State, a: Action, st': State)
    requires Safe(c, st) && Step(c, st, a) == Some(st')
    ensures Safe(c, st')
  {
    BalancedStep(c, st, a, st');
    OrderStep(c, st, a, st');
  }

  lemma {:induction false} SafeAfter(c: Config, st0: State, acts: seq<Action>, st: State)
    requires Init(st0) && After(c, st0, acts) == Some(st)
    ensures Safe(c, st)
    decreases |acts|
  {
    if acts == [] {
      BalancedInit(st0);
      OrderInit(c, st0);
    } else {
      var mid := After(c, st0, acts[..|acts| - 1]).value;
      SafeAfter(c, st0, acts[..|acts| - 1], mid);
      SafeStep(c, mid, acts[|acts| - 1], st);
    }
  }

  lemma SafeReachable(c: Config, st: State)
    requires Reachable(c, st)
    ensures Safe(c, st)
  {
    var st0: State, acts: seq<Action> :| Init(st0) && After(c, st0, acts) == Some(st);
    SafeAfter(c, st0, acts, st);
  }

  /**
   In every reachable state: a job whose Submit waits is in exactly one place, every other job in none;
   a full slot is never sent to; InFlight is set exactly while a worker is between start and release,
   so the compare-and-swap at the start of a dispatch never fails.
   */
  lemma EachJobInOnePlace(c: Config, st: State)
    requires Reachable(c, st)
    ensures forall k: JobId :: Places(st, k) + Delivered(st.jobs, k) == Owed(st.jobs, k)
    ensures forall s | 0 <= s < |st.servers| :: st.servers[s].worker.Holding? ==> !st.servers[s].inFlight
    ensures forall s | 0 <= s < |st.servers| :: st.servers[s].worker.Sending? ==> DeliverStep(st, s).Some?
    ensures forall s | 0 <= s < |st.servers| && NextParcel(st.servers[s].worker, s).Some? ::
              var p := NextParcel(st.servers[s].worker, s).value;
              p.job < |st.jobs| && st.jobs[p.job].slot.None?
  {
    var st0: State, acts: seq<Action> :| Init(st0) && After(c, st0, acts) == Some(st);
    SafeAfter(c, st0, acts, st);
    forall k: JobId ensures Places(st, k) + Delivered(st.jobs, k) == Owed(st.jobs, k) {
      BalanceAt(st, k);
    }
    forall s | 0 <= s < |st.servers|
      ensures st.servers[s].worker.Holding? ==> !st.servers[s].inFlight
      ensures NextParcel(st.servers[s].worker, s).Some? ==>
                var p := NextParcel(st.servers[s].worker, s).value;
                p.job < |st.jobs| && st.jobs[p.job].slot.None?
    {
      assert SrvOrderly(c, st.stopping, st.servers[s], s);
      if NextParcel(st.servers[s].worker, s).Some? {
        HeldAlone(st, s, NextParcel(st.servers[s].worker, s).value.job);
      }
    }
  }

  lemma QueuedIsSent(c: Config, st: State, s: ServerId, k: JobId)
    requires Safe(c, st) && s < |st.servers| && k in st.servers[s].queue
    ensures c.mode.Push? && SentTo(st.jobs, k, s)
  {
    assert SrvOrderly(c, st.stopping, st.servers[s], s);
    CountIsMember(st.servers[s].queue, k);
    assert At(st, s, k);
  }

  /** Once a cancelled call has found its job gone from the line, the job is in a worker's hands or delivered. */
  lemma ForcedWaitEnds(c: Config, st: State, k: JobId)
    requires Safe(c, st) && k < |st.jobs| && st.jobs[k].pc.Withdrawing?
    requires WithdrawStep(st, k).Some? && WithdrawStep(st, k).value.jobs[k].pc.Forced?
    ensures Count(st.pool, k) == 0 && forall s | 0 <= s < |st.servers| :: Count(st.servers[s].queue, k) == 0
    ensures st.jobs[k].slot.Some? || exists s | 0 <= s < |st.servers| :: Held(st.servers[s].worker, k) == 1
  {
    BalanceAt(st, k);
    assert JobOrderly(c, |st.servers|, st.jobs[k]);
    CountIsMember(st.pool, k);
    forall s | 0 <= s < |st.servers| ensures Count(st.servers[s].queue, k) == 0 {
      CountIsMember(st.servers[s].queue, k);
      if k in st.servers[s].queue { QueuedIsSent(c, st, s, k); }
    }
    if st.jobs[k].slot.None? {
      TallySomewhere(st.servers, k);
      var s :| 0 <= s < |st.servers| && Part(All, st.servers[s], k) > 0;
      HeldAlone(st, s, k);
    }
  }

  lemma {:induction false} TallySomewhere(ss: seq<Srv>, k: JobId)
    requires Tally(All, ss, k) > 0
    ensures exists s | 0 <= s < |ss| :: Part(All, ss[s], k) > 0
  {
    if Part(All, ss[0], k) == 0 {
      TallySomewhere(ss[1..], k);
      var s :| 0 <= s < |ss[1..]| && Part(All, ss[1..][s], k) > 0;
      assert ss[s + 1] == ss[1..][s];
    }
  }
}
