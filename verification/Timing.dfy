/** Time accounting: RunMs sums the runs, QueueMs is set once, together they fit between Submit and now. */
module Timing {
  import opened Wrappers
  import opened Selection
  import opened Machine
  import opened Conservation
  import opened Order
  import opened Attempts

  function Millis(spans: seq<Span>): nat {
    if spans == [] then 0
    else
      var sp := spans[|spans| - 1];
      Millis(spans[..|spans| - 1]) + if sp.began <= sp.ended then (sp.ended - sp.began) / NANOS_PER_MS else 0
  }

  /** The accounts of a job fit between its Submit and `till`. */
  predicate Fits(j: JobRec, till: Nanos) {
    j.submittedAt <= till && (j.queueMs + j.runMs) * NANOS_PER_MS <= till - j.submittedAt
  }

  /** QueueMs is the whole milliseconds from Submit to the begin of the first run. */
  predicate QueuedUntil(j: JobRec, began: Nanos) {
    j.submittedAt <= began && j.queueMs == (began - j.submittedAt) / NANOS_PER_MS
  }

  predicate Accounted(j: JobRec, now: Nanos) {
    && (j.pc.Fresh? ==> !j.dispatched)
    && (!j.pc.Fresh? ==> Fits(j, now))
    && (j.dispatched <==> j.log.runs > 0)
    && (!j.dispatched ==> j.queueMs == 0 && j.log.spans == [])
    && j.runMs == Millis(j.log.spans)
    && (j.log.spans != [] ==> QueuedUntil(j, j.log.spans[0].began))
    && (j.log.wrote ==> j.log.spans != [])
  }

  /** A run under way started after everything accounted so far. */
  predicate RunFits(jobs: seq<JobRec>, now: Nanos, w: Worker) {
    w.Running? ==>
      && w.job < |jobs| && w.since <= now && jobs[w.job].dispatched && Fits(jobs[w.job], w.since)
      && (jobs[w.job].log.spans == [] ==> QueuedUntil(jobs[w.job], w.since))
  }

  /** Some worker is running the job. */
  ghost predicate UnderWay(st: State, k: JobId) {
    exists s: ServerId :: s < |st.servers| && st.servers[s].worker.Running? && st.servers[s].worker.job == k
  }

  /** Every run that began has ended, but for one under way. */
  ghost predicate RunsEnd(st: State, k: JobId)
    requires k < |st.jobs|
  {
    st.jobs[k].log.runs == |st.jobs[k].log.spans| + if UnderWay(st, k) then 1 else 0
  }

  ghost predicate TimesKept(st: State) {
    && (forall k: JobId | k < |st.jobs| :: Accounted(st.jobs[k], st.now) && RunsEnd(st, k))
    && (forall s: ServerId | s < |st.servers| :: RunFits(st.jobs, st.now, st.servers[s].worker))
  }

  lemma JobMoveAccounted(c: Config, ss: seq<Srv>, now: Nanos, j: JobRec, a: SubmitAct, j': JobRec)
    requires JobMove(c, ss, now, j, a) == Some(j') && Accounted(j, now)
    ensures Accounted(j', now)
  {
    JobMoveKeepsLog(c, ss, now, j, a, j');
    if j.pc.Fresh? {
      assert j'.submittedAt == now;
    }
  }

  predicate SameTimes(j: JobRec, j': JobRec) {
    && j'.submittedAt == j.submittedAt && j'.dispatched == j.dispatched && j'.queueMs == j.queueMs && j'.runMs == j.runMs
    && j'.log.spans == j.log.spans && j'.log.runs == j.log.runs && j'.log.wrote == j.log.wrote && (j'.pc.Fresh? <==> j.pc.Fresh?)
  }

  /** No clock was read, and no run began. */
  predicate Untimed(st: State, st': State) {
    && st'.now == st.now && |st'.jobs| == |st.jobs| && |st'.servers| == |st.servers|
    && (forall k: JobId | k < |st.jobs| :: SameTimes(st.jobs[k], st'.jobs[k]))
    && (forall s: ServerId | s < |st.servers| ::
          st'.servers[s].worker.Running? || st.servers[s].worker.Running? ==> st'.servers[s].worker == st.servers[s].worker)
  }

  lemma StillUnderWay(st: State, st': State, k: JobId)
    requires Untimed(st, st')
    ensures UnderWay(st', k) <==> UnderWay(st, k)
  {
    if UnderWay(st, k) {
      var s: ServerId :| s < |st.servers| && st.servers[s].worker.Running? && st.servers[s].worker.job == k;
      assert st'.servers[s].worker == st.servers[s].worker;
    }
    if UnderWay(st', k) {
      var s: ServerId :| s < |st'.servers| && st'.servers[s].worker.Running? && st'.servers[s].worker.job == k;
      assert st.servers[s].worker == st'.servers[s].worker;
    }
  }

  lemma UntimedKeeps(st: State, st': State)
    requires TimesKept(st) && Untimed(st, st')
    ensures TimesKept(st')
  {
    forall s: ServerId | s < |st'.servers| ensures RunFits(st'.jobs, st'.now, st'.servers[s].worker) {
      assert RunFits(st.jobs, st.now, st.servers[s].worker);
    }
    forall k: JobId | k < |st'.jobs| ensures Accounted(st'.jobs[k], st'.now) && RunsEnd(st', k) {
      assert SameTimes(st.jobs[k], st'.jobs[k]) && Accounted(st.jobs[k], st.now) && RunsEnd(st, k);
      StillUnderWay(st, st', k);
    }
  }

  /** Servers that stay leave under way what is. */
  lemma SameServersUnderWay(st: State, st': State, k: JobId)
    requires st'.servers == st.servers
    ensures UnderWay(st', k) <==> UnderWay(st, k)
  {
  }

  lemma MoveTimes(c: Config, st: State, k: JobId, a: SubmitAct, j': JobRec)
    requires Balanced(st) && TimesKept(st) && k < |st.jobs| && JobMove(c, st.servers, st.now, st.jobs[k], a) == Some(j')
    ensures TimesKept(PutJob(st, k, j'))
  {
    var st' := PutJob(st, k, j');
    JobMoveAccounted(c, st.servers, st.now, st.jobs[k], a, j');
    JobMoveKeepsLog(c, st.servers, st.now, st.jobs[k], a, j');
    if st.jobs[k].pc.Fresh? { Nowhere(st, k); }
    forall x: JobId | x < |st'.jobs| ensures Accounted(st'.jobs[x], st'.now) && RunsEnd(st', x) {
      assert RunsEnd(st, x);
      SameServersUnderWay(st, st', x);
    }
    forall s: ServerId | s < |st.servers| ensures RunFits(st'.jobs, st.now, st.servers[s].worker) {
      assert RunFits(st.jobs, st.now, st.servers[s].worker);
      assert Held(st.servers[s].worker, k) <= Part(All, st.servers[s], k);
    }
  }

  /** A job in the hands of one worker is run by no other. */
  lemma RunOnlyHere(st: State, s: ServerId, k: JobId)
    requires Balanced(st) && s < |st.servers| && Held(st.servers[s].worker, k) > 0
    ensures UnderWay(st, k) <==> st.servers[s].worker.Running?
  {
    assert At(st, s, k);
    HeldAlone(st, s, k);
    forall t: ServerId | t < |st.servers| && st.servers[t].worker.Running? && st.servers[t].worker.job == k ensures t == s {
      assert Held(st.servers[t].worker, k) <= Part(All, st.servers[t], k);
    }
  }

  /** Only server `s` changed, so the others run what they ran. */
  lemma UnderWayElsewhere(st: State, s: ServerId, st': State, x: JobId)
    requires s < |st.servers| && OnlyServer(st, s, st')
    requires st.servers[s].worker.Running? ==> st.servers[s].worker.job != x
    requires st'.servers[s].worker.Running? ==> st'.servers[s].worker.job != x
    ensures UnderWay(st', x) <==> UnderWay(st, x)
  {
    if UnderWay(st, x) {
      var t: ServerId :| t < |st.servers| && st.servers[t].worker.Running? && st.servers[t].worker.job == x;
      assert st'.servers[t] == st.servers[t];
    }
    if UnderWay(st', x) {
      var t: ServerId :| t < |st'.servers| && st'.servers[t].worker.Running? && st'.servers[t].worker.job == x;
      assert st.servers[t] == st'.servers[t];
    }
  }

  lemma BeginTimes(c: Config, st: State, s: ServerId, st': State)
    requires Balanced(st) && TimesKept(st) && s < |st.servers| && BeginStep(c, st, s) == Some(st')
    ensures TimesKept(st')
  {
    var k := st.servers[s].worker.job;
    assert At(st, s, k);
    HeldAlone(st, s, k);
    RunOnlyHere(st, s, k);
    assert RunsEnd(st, k);
    BeganAccounted(c, st.jobs[k], s, st.now);
    assert st'.servers[s].worker.Running? && st'.servers[s].worker.job == k;
    forall x: JobId | x < |st'.jobs| ensures Accounted(st'.jobs[x], st'.now) && RunsEnd(st', x) {
      assert RunsEnd(st, x);
      if x != k { UnderWayElsewhere(st, s, st', x); }
    }
    BeginFits(c, st, s, st');
  }

  lemma BeginFits(c: Config, st: State, s: ServerId, st': State)
    requires Balanced(st) && TimesKept(st) && s < |st.servers| && BeginStep(c, st, s) == Some(st')
    requires RunFits(st'.jobs, st'.now, st'.servers[s].worker)
    ensures forall t: ServerId | t < |st'.servers| :: RunFits(st'.jobs, st'.now, st'.servers[t].worker)
  {
    var k := st.servers[s].worker.job;
    assert At(st, s, k);
    HeldAlone(st, s, k);
    forall t: ServerId | t < |st'.servers| ensures RunFits(st'.jobs, st'.now, st'.servers[t].worker) {
      assert RunFits(st.jobs, st.now, st.servers[t].worker);
      assert Held(st.servers[t].worker, k) <= Part(All, st.servers[t], k);
    }
  }

  lemma BeganAccounted(c: Config, j: JobRec, s: ServerId, now: Nanos)
    requires Accounted(j, now) && !j.pc.Fresh? && (j.dispatched ==> j.log.spans != [])
    ensures var j' := Began(c, j, s, now);
            && Accounted(j', now) && Fits(j', now) && j'.dispatched && j'.log.spans == j.log.spans
            && (j'.log.spans == [] ==> QueuedUntil(j', now))
  {
  }

  lemma FinishTimes(st: State, s: ServerId, out: Outcome, st': State)
    requires Balanced(st) && TimesKept(st) && s < |st.servers| && FinishStep(st, s, out) == Some(st')
    ensures TimesKept(st')
  {
    var k := st.servers[s].worker.job;
    assert At(st, s, k);
    HeldAlone(st, s, k);
    RunOnlyHere(st, s, k);
    assert RunFits(st.jobs, st.now, st.servers[s].worker) && RunsEnd(st, k);
    RanAccounted(st.jobs[k], st.servers[s].worker.since, st.now, s, out);
    FinishEnds(st, s, out, st');
    forall x: JobId | x < |st'.jobs| ensures Accounted(st'.jobs[x], st'.now) && RunsEnd(st', x) {
      assert RunsEnd(st, x);
      if x != k { UnderWayElsewhere(st, s, st', x); }
    }
    forall t: ServerId | t < |st'.servers| ensures RunFits(st'.jobs, st'.now, st'.servers[t].worker) {
      assert RunFits(st.jobs, st.now, st.servers[t].worker);
      assert Held(st.servers[t].worker, k) <= Part(All, st.servers[t], k);
    }
  }

  /** Afterwards nobody runs the job. */
  lemma FinishEnds(st: State, s: ServerId, out: Outcome, st': State)
    requires Balanced(st) && s < |st.servers| && FinishStep(st, s, out) == Some(st')
    ensures !UnderWay(st', st.servers[s].worker.job)
  {
    var k := st.servers[s].worker.job;
    assert At(st, s, k);
    HeldAlone(st, s, k);
    forall t: ServerId | t < |st'.servers| ensures !(st'.servers[t].worker.Running? && st'.servers[t].worker.job == k) {
      assert Held(st.servers[t].worker, k) <= Part(All, st.servers[t], k);
    }
  }

  lemma RanAccounted(j: JobRec, since: Nanos, now: Nanos, s: ServerId, out: Outcome)
    requires Accounted(j, now) && !j.pc.Fresh? && since <= now && j.dispatched && Fits(j, since)
    requires j.log.spans == [] ==> QueuedUntil(j, since)
    ensures Accounted(Ran(j, since, now, s, out), now)
  {
    var spans := j.log.spans + [Span(since, now, out)];
    assert spans[..|spans| - 1] == j.log.spans;
  }

  lemma WorkTimes(c: Config, st: State, s: ServerId, a: WorkAct, st': State)
    requires Balanced(st) && TimesKept(st) && WorkStep(c, st, s, a) == Some(st')
    ensures TimesKept(st')
  {
    if a.Begin? {
      BeginTimes(c, st, s, st');
    } else if a.Finish? {
      FinishTimes(st, s, a.out, st');
    } else {
      WorkUntimed(c, st, s, a, st');
      UntimedKeeps(st, st');
    }
  }

  lemma WorkUntimed(c: Config, st: State, s: ServerId, a: WorkAct, st': State)
    requires WorkStep(c, st, s, a) == Some(st') && !a.Begin? && !a.Finish?
    ensures Untimed(st, st')
  {
    if a.Deliver? {
      DeliverUntimed(st, s, st');
    } else {
      assert st'.jobs == st.jobs;
      assert OnlyServer(st, s, st');
    }
  }

  lemma DeliverUntimed(st: State, s: ServerId, st': State)
    requires s < |st.servers| && DeliverStep(st, s) == Some(st')
    ensures Untimed(st, st')
  {
  }

  lemma PlaceUntimed(st: State, k: JobId, st': State)
    requires k < |st.jobs| && PlaceStep(st, k) == Some(st')
    ensures Untimed(st, st')
  {
  }

  lemma WithdrawShape(st: State, k: JobId, st': State)
    requires k < |st.jobs| && WithdrawStep(st, k) == Some(st')
    ensures k < |st'.jobs| && !st'.jobs[k].pc.Fresh? && !st.jobs[k].pc.Fresh?
    ensures st'.jobs == st.jobs[k := st.jobs[k].(pc := st'.jobs[k].pc)] && st'.now == st.now
    ensures |st'.servers| == |st.servers|
    ensures forall s: ServerId | s < |st.servers| :: st'.servers[s].worker == st.servers[s].worker
  {
  }

  lemma WithdrawUntimed(st: State, k: JobId, st': State)
    requires k < |st.jobs| && k < |st'.jobs| && st'.jobs == st.jobs[k := st.jobs[k].(pc := st'.jobs[k].pc)]
    requires !st'.jobs[k].pc.Fresh? && !st.jobs[k].pc.Fresh? && st'.now == st.now && |st'.servers| == |st.servers|
    requires forall s: ServerId | s < |st.servers| :: st'.servers[s].worker == st.servers[s].worker
    ensures Untimed(st, st')
  {
  }

  lemma LineTimes(c: Config, st: State, k: JobId, a: SubmitAct, st': State)
    requires TimesKept(st) && SubmitStep(c, st, k, a) == Some(st') && (a.Place? || a.Withdraw? || a.Nudge?)
    ensures TimesKept(st')
  {
    if a.Place? {
      PlaceUntimed(st, k, st');
    } else if a.Withdraw? {
      WithdrawShape(st, k, st');
      WithdrawUntimed(st, k, st');
    }
    UntimedKeeps(st, st');
  }

  lemma TickTimes(st: State, d: nat, st': State)
    requires TimesKept(st) && st' == st.(now := st.now + d)
    ensures TimesKept(st')
  {
    forall s: ServerId | s < |st'.servers| ensures RunFits(st'.jobs, st'.now, st'.servers[s].worker) {
      assert RunFits(st.jobs, st.now, st.servers[s].worker);
    }
    forall k: JobId | k < |st'.jobs| ensures Accounted(st'.jobs[k], st'.now) && RunsEnd(st', k) {
      assert Accounted(st.jobs[k], st.now) && RunsEnd(st, k);
      SameServersUnderWay(st, st', k);
    }
  }

  lemma TimesStep(c: Config, st: State, a: Action, st': State)
    requires Balanced(st) && TimesKept(st) && Step(c, st, a) == Some(st')
    ensures TimesKept(st')
  {
    if a.Sub? {
      if a.sub.Place? || a.sub.Withdraw? || a.sub.Nudge? {
        LineTimes(c, st, a.k, a.sub, st');
      } else {
        MoveTimes(c, st, a.k, a.sub, st'.jobs[a.k]);
      }
    } else if a.Work? {
      WorkTimes(c, st, a.s, a.work, st');
    } else if a.Tick? {
      TickTimes(st, a.d, st');
    } else {
      UntimedKeeps(st, st');
    }
  }

  lemma SubmitKeepsQueueMs(c: Config, st: State, x: JobId, a: SubmitAct, st': State, k: JobId)
    requires SubmitStep(c, st, x, a) == Some(st') && k < |st.jobs| && st.jobs[k].dispatched
    ensures k < |st'.jobs| && st'.jobs[k].dispatched && st'.jobs[k].queueMs == st.jobs[k].queueMs
  {
    if !(a.Place? || a.Withdraw? || a.Nudge?) {
      JobMoveKeepsLog(c, st.servers, st.now, st.jobs[x], a, st'.jobs[x]);
    }
  }

  lemma WorkKeepsQueueMs(c: Config, st: State, s: ServerId, a: WorkAct, st': State, k: JobId)
    requires WorkStep(c, st, s, a) == Some(st') && k < |st.jobs| && st.jobs[k].dispatched
    ensures k < |st'.jobs| && st'.jobs[k].dispatched && st'.jobs[k].queueMs == st.jobs[k].queueMs
  {
    if !a.Begin? && !a.Finish? {
      WorkUntimed(c, st, s, a, st');
      assert SameTimes(st.jobs[k], st'.jobs[k]);
    }
  }

  /** Once a job has been dispatched its queue time does not change. */
  lemma QueueMsOnce(c: Config, st: State, a: Action, st': State, k: JobId)
    requires Step(c, st, a) == Some(st') && k < |st.jobs| && st.jobs[k].dispatched
    ensures k < |st'.jobs| && st'.jobs[k].dispatched && st'.jobs[k].queueMs == st.jobs[k].queueMs
  {
    if a.Sub? {
      SubmitKeepsQueueMs(c, st, a.k, a.sub, st', k);
    } else if a.Work? {
      WorkKeepsQueueMs(c, st, a.s, a.work, st', k);
    }
  }

  // ---------------------------------------------------------------- when the clock is read

  /** The time of Submit is the clock's when the call leaves its start, and stays. */
  lemma SubmitReadsClock(c: Config, st: State, x: JobId, a: SubmitAct, st': State, k: JobId)
    requires SubmitStep(c, st, x, a) == Some(st') && k < |st.jobs|
    ensures k < |st'.jobs|
    ensures st.jobs[k].pc.Fresh? && !st'.jobs[k].pc.Fresh? ==> st'.jobs[k].submittedAt == st.now
    ensures !st.jobs[k].pc.Fresh? ==> st'.jobs[k].submittedAt == st.jobs[k].submittedAt
  {
    if x == k && !(a.Place? || a.Withdraw? || a.Nudge?) {
      JobMoveKeepsLog(c, st.servers, st.now, st.jobs[x], a, st'.jobs[x]);
    }
  }

  lemma SubmittedAt(c: Config, st: State, a: Action, st': State, k: JobId)
    requires Step(c, st, a) == Some(st') && k < |st.jobs|
    ensures k < |st'.jobs|
    ensures st.jobs[k].pc.Fresh? && !st'.jobs[k].pc.Fresh? ==> st'.jobs[k].submittedAt == st.now
    ensures !st.jobs[k].pc.Fresh? ==> st'.jobs[k].submittedAt == st.jobs[k].submittedAt
  {
    if a.Sub? {
      SubmitReadsClock(c, st, a.k, a.sub, st', k);
    } else if a.Work? {
      WorkSameCalls(c, st, a.s, a.work, st');
    }
  }

  lemma BeginReadsClock(c: Config, st: State, s: ServerId, a: WorkAct, st': State)
    requires WorkStep(c, st, s, a) == Some(st') && s < |st'.servers|
    ensures !st.servers[s].worker.Running? && st'.servers[s].worker.Running? ==> st'.servers[s].worker.since == st.now
  {
  }

  lemma EndReadsClock(c: Config, st: State, s: ServerId, a: WorkAct, st': State)
    requires WorkStep(c, st, s, a) == Some(st') && st.servers[s].worker.Running?
    ensures var k := st.servers[s].worker.job;
            a.Finish? && k < |st.jobs| && k < |st'.jobs|
            && st'.jobs[k].log.spans == st.jobs[k].log.spans + [Span(st.servers[s].worker.since, st.now, a.out)]
  {
  }

  /** A run is noted with the clock at its begin and at its end, and with how it ended. */
  lemma RunReadsClock(c: Config, st: State, s: ServerId, a: WorkAct, st': State)
    requires WorkStep(c, st, s, a) == Some(st') && s < |st'.servers|
    ensures !st.servers[s].worker.Running? && st'.servers[s].worker.Running? ==> st'.servers[s].worker.since == st.now
    ensures st.servers[s].worker.Running? ==>
              var k := st.servers[s].worker.job;
              a.Finish? && k < |st.jobs| && k < |st'.jobs|
              && st'.jobs[k].log.spans == st.jobs[k].log.spans + [Span(st.servers[s].worker.since, st.now, a.out)]
  {
    BeginReadsClock(c, st, s, a, st');
    if st.servers[s].worker.Running? { EndReadsClock(c, st, s, a, st'); }
  }
}
