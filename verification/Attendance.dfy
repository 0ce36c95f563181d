/**
 No stranded work in push mode. A healthy server with waiting jobs has somebody who will look at its
 queue: its worker is up, a wake token is pending, or a submitter or the poller is about to send one.
 */
module Attendance {
  import opened Wrappers
  import opened Selection
  import opened Machine
  import opened Conservation
  import opened Order

  /** The server's own state guarantees another look at its line. */
  predicate Stirred(sv: Srv) {
    || !(sv.worker.Asleep? || Leaving(sv.worker))
    || sv.token
    || sv.poller.WakingUp?
  }

  predicate Nudges(j: JobRec, s: ServerId) {
    j.pc.Nudging? && j.pc.whom == s
  }

  ghost predicate Attended(st: State, s: ServerId)
    requires s < |st.servers|
  {
    Stirred(st.servers[s]) || exists k | 0 <= k < |st.jobs| :: Nudges(st.jobs[k], s)
  }

  ghost predicate NoStranding(c: Config, st: State) {
    c.mode.Push? && !st.stopping ==>
      forall s | 0 <= s < |st.servers| ::
        st.servers[s].healthy && st.servers[s].queue != [] ==> Attended(st, s)
  }

  /**
   The one step that can strand work (internal/core/discovery.go:180-186): health was read as good,
   the server crashed meanwhile, and the store declares it healthy again without a wake.
   */
  predicate StaleStore(st: State, a: Action) {
    a.Poll? && a.poll.ShapeStore? && a.p < |st.servers| && st.servers[a.p].poller == Judged(false) && !st.servers[a.p].healthy
  }

  lemma JobMoveKeepsNudge(c: Config, ss: seq<Srv>, now: Nanos, j: JobRec, a: SubmitAct, j': JobRec)
    requires JobMove(c, ss, now, j, a) == Some(j')
    ensures !j.pc.Nudging?
  {
  }

  lemma SubmitAttends(c: Config, st: State, k: JobId, a: SubmitAct, st': State)
    requires c.mode.Push? && Orderly(c, st) && NoStranding(c, st) && SubmitStep(c, st, k, a) == Some(st')
    ensures NoStranding(c, st')
  {
    assert JobOrderly(c, |st.servers|, st.jobs[k]);
    if !st.stopping {
      forall s | 0 <= s < |st'.servers| && st'.servers[s].healthy && st'.servers[s].queue != []
        ensures Attended(st', s)
      {
        if a.Place? {
          PlaceAttends(c, st, k, st', s);
        } else if a.Withdraw? {
          WithdrawAttends(c, st, k, st', s);
        } else if a.Nudge? {
          NudgeAttends(c, st, k, st', s);
        } else {
          JobMoveKeepsNudge(c, st.servers, st.now, st.jobs[k], a, st'.jobs[k]);
          StillNudged(st, k, st', s);
        }
      }
    }
  }

  /** Only the job that moved can have stopped nudging. */
  lemma StillNudged(st: State, k: JobId, st': State, s: ServerId)
    requires s < |st.servers| && |st'.servers| == |st.servers| && Attended(st, s)
    requires Stirred(st.servers[s]) ==> Stirred(st'.servers[s])
    requires |st'.jobs| == |st.jobs| && forall x | 0 <= x < |st.jobs| :: x == k || st'.jobs[x] == st.jobs[x]
    requires k < |st.jobs| && Nudges(st.jobs[k], s) ==> Nudges(st'.jobs[k], s) || Stirred(st'.servers[s])
    ensures Attended(st', s)
  {
    if !Stirred(st'.servers[s]) {
      var x :| 0 <= x < |st.jobs| && Nudges(st.jobs[x], s);
      assert Nudges(st'.jobs[x], s);
    }
  }

  lemma PlaceAttends(c: Config, st: State, k: JobId, st': State, s: ServerId)
    requires k < |st.jobs| && PlaceStep(st, k) == Some(st') && s < |st.servers|
    requires st.servers[s].healthy && st.servers[s].queue != [] ==> Attended(st, s)
    requires st'.servers[s].healthy && st'.servers[s].queue != []
    ensures Attended(st', s)
  {
    if st.jobs[k].pc.to == Some(s) {
      assert Nudges(st'.jobs[k], s);
    } else {
      StillNudged(st, k, st', s);
    }
  }

  lemma WithdrawAttends(c: Config, st: State, k: JobId, st': State, s: ServerId)
    requires k < |st.jobs| && WithdrawStep(st, k) == Some(st') && s < |st.servers|
    requires st.servers[s].healthy && st.servers[s].queue != [] ==> Attended(st, s)
    requires st'.servers[s].healthy && st'.servers[s].queue != []
    ensures Attended(st', s)
  {
    StillNudged(st, k, st', s);
  }

  lemma NudgeAttends(c: Config, st: State, k: JobId, st': State, s: ServerId)
    requires k < |st.jobs| && NudgeStep(st, k) == Some(st') && s < |st.servers|
    requires st.servers[s].healthy && st.servers[s].queue != [] ==> Attended(st, s)
    requires st'.servers[s].healthy && st'.servers[s].queue != []
    ensures Attended(st', s)
  {
    StillNudged(st, k, st', s);
  }

  lemma SrvMoveStirs(c: Config, jobs: seq<JobRec>, stopping: bool, sv: Srv, s: ServerId, a: WorkAct, sv': Srv)
    requires SrvMove(c, jobs, stopping, sv, s, a) == Some(sv') && !stopping && SrvOrderly(c, stopping, sv, s)
    requires sv'.healthy
    ensures Stirred(sv')
  {
  }

  /** In push mode a worker goes to sleep after a pop only over an empty queue. */
  lemma TookStirs(c: Config, st: State, s: ServerId, i: Option<nat>)
    requires c.mode.Push? && s < |st.servers| && st.servers[s].worker.Looking?
    requires i.Some? ==> i.value < |Line(c, st, s)|
    requires i.None? ==> st.servers[s].queue == []
    ensures Took(c, st, s, i).servers[s].queue != [] ==> Stirred(Took(c, st, s, i).servers[s])
    ensures Took(c, st, s, i).jobs == st.jobs
  {
  }

  lemma PushChoice(c: Config, st: State, s: ServerId, held: bool)
    requires c.mode.Push? && s < |st.servers| && st.servers[s].worker.Looking?
    ensures Choice(c, st, s, held).None? ==> st.servers[s].queue == []
  {
  }

  lemma WorkAttends(c: Config, st: State, s: ServerId, a: WorkAct, st': State)
    requires c.mode.Push? && Orderly(c, st) && NoStranding(c, st) && WorkStep(c, st, s, a) == Some(st')
    ensures NoStranding(c, st')
  {
    if !st.stopping {
      assert SrvOrderly(c, st.stopping, st.servers[s], s);
      WorkStirs(c, st, s, a, st');
      forall t | 0 <= t < |st'.servers| && st'.servers[t].healthy && st'.servers[t].queue != []
        ensures Attended(st', t)
      {
        if t != s && !Stirred(st.servers[t]) {
          var x :| 0 <= x < |st.jobs| && Nudges(st.jobs[x], t);
          assert Nudges(st'.jobs[x], t);
        }
      }
    }
  }

  lemma WorkStirs(c: Config, st: State, s: ServerId, a: WorkAct, st': State)
    requires c.mode.Push? && !st.stopping && WorkStep(c, st, s, a) == Some(st') && SrvOrderly(c, st.stopping, st.servers[s], s)
    ensures st'.servers[s].healthy && st'.servers[s].queue != [] ==> Stirred(st'.servers[s])
    ensures |st'.jobs| == |st.jobs| && forall x | 0 <= x < |st.jobs| :: st'.jobs[x].pc == st.jobs[x].pc
    ensures OnlyServer(st, s, st')
  {
    if a.Pop? {
      PushChoice(c, st, s, a.held);
      TookStirs(c, st, s, Choice(c, st, s, a.held));
    } else if !(a.Begin? || a.Finish? || a.Deliver? || a.DrainPool?) && st'.servers[s].healthy {
      SrvMoveStirs(c, st.jobs, st.stopping, st.servers[s], s, a, st'.servers[s]);
    }
  }

  lemma PollAttends(c: Config, st: State, s: ServerId, a: PollAct, st': State)
    requires c.mode.Push? && NoStranding(c, st) && PollStep(c, st, s, a) == Some(st') && !StaleStore(st, Poll(s, a))
    ensures NoStranding(c, st')
  {
    if !st.stopping {
      forall t | 0 <= t < |st'.servers| && st'.servers[t].healthy && st'.servers[t].queue != []
        ensures Attended(st', t)
      {
        if st.servers[t].healthy { StillNudged(st, 0, st', t); }
      }
    }
  }

  lemma AttendanceStep(c: Config, st: State, a: Action, st': State)
    requires Orderly(c, st) && NoStranding(c, st) && Step(c, st, a) == Some(st') && !StaleStore(st, a)
    ensures NoStranding(c, st')
  {
    if c.mode.Push? {
      match a
      case Sub(k, sub) => SubmitAttends(c, st, k, sub, st');
      case Work(s, work) => WorkAttends(c, st, s, work, st');
      case Poll(s, poll) => PollAttends(c, st, s, poll, st');
      case Shutdown =>
      case Tick(_) =>
        forall s | 0 <= s < |st'.servers| && st'.servers[s].healthy && st'.servers[s].queue != [] && !st.stopping
          ensures Attended(st', s)
        {
          assert Attended(st, s);
        }
    }
  }

  lemma AttendanceInit(c: Config, st: State)
    requires Init(st)
    ensures NoStranding(c, st)
  {
  }
}
