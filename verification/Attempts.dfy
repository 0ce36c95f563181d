/**
 Retry safety: how often Run is called, how long a call pauses, and that nothing runs again after a
 success or after the response has started.
 */
module Attempts {
  import opened Wrappers
  import opened Selection
  import opened Machine
  import opened Conservation
  import opened Order

  // ---------------------------------------------------------------- counting attempts

  /** The attempts paused for: the second, the third and so on. */
  function Paused(n: nat): seq<nat> {
    if n == 0 then [] else Paused(n - 1) + [n + 1]
  }

  /** Attempts made or under way. */
  function Tries(c: Config, j: JobRec): nat {
    if c.mode.Push? then j.total
    else j.total + if Out(j.pc) || j.pc.Pausing? || j.pc.Placing? then 1 else 0
  }

  predicate Counted(c: Config, j: JobRec) {
    && j.log.placed <= Cap(c) && j.total <= Cap(c)
    && |j.log.waits| < Cap(c) && j.log.waits == Paused(|j.log.waits|)
    && (!j.pc.Returned? ==>
          && |j.log.waits| == (if Tries(c, j) > 0 then Tries(c, j) - 1 else 0)
          && j.log.placed + (if j.pc.Pausing? || j.pc.Placing? then 1 else 0) == Tries(c, j)
          && (j.pc.Fresh? || j.pc.Checking? ==> j.total == 0)
          && (!c.mode.Push? || (j.pc.Choosing? && j.total > 0) ==> j.total < Cap(c)))
    && (c.mode.Push? && (Out(j.pc) || j.pc.Pausing? || j.pc.Placing?) ==> j.total > 0)
  }

  lemma ChoosingCounted(c: Config, ss: seq<Srv>, now: Nanos, j: JobRec, a: SubmitAct, j': JobRec)
    requires JobMove(c, ss, now, j, a) == Some(j') && Counted(c, j) && JobOrderly(c, |ss|, j)
    requires j.pc.Fresh? || j.pc.Checking? || j.pc.Choosing? || j.pc.Excluding?
    ensures Counted(c, j')
  {
  }

  lemma WaitingCounted(c: Config, ss: seq<Srv>, now: Nanos, j: JobRec, a: SubmitAct, j': JobRec)
    requires JobMove(c, ss, now, j, a) == Some(j') && Counted(c, j) && JobOrderly(c, |ss|, j)
    requires !j.pc.Fresh? && !j.pc.Checking? && !j.pc.Choosing? && !j.pc.Excluding?
    ensures Counted(c, j')
  {
  }

  lemma JobMoveCounted(c: Config, ss: seq<Srv>, now: Nanos, j: JobRec, a: SubmitAct, j': JobRec)
    requires JobMove(c, ss, now, j, a) == Some(j') && Counted(c, j) && JobOrderly(c, |ss|, j)
    ensures Counted(c, j')
  {
    if j.pc.Fresh? || j.pc.Checking? || j.pc.Choosing? || j.pc.Excluding? {
      ChoosingCounted(c, ss, now, j, a, j');
    } else {
      WaitingCounted(c, ss, now, j, a, j');
    }
  }

  ghost predicate AllCounted(c: Config, st: State) {
    forall k: JobId | k < |st.jobs| :: Counted(c, st.jobs[k])
  }

  lemma PlacedCounted(c: Config, j: JobRec, pc: Submitter)
    requires Counted(c, j) && j.pc.Placing? && (pc.Scanning? || pc.Nudging?)
    ensures Counted(c, Placed(j, pc))
  {
  }

  lemma PlaceCounted(c: Config, st: State, k: JobId, st': State)
    requires AllCounted(c, st) && k < |st.jobs| && PlaceStep(st, k) == Some(st')
    ensures AllCounted(c, st')
  {
    PlacedCounted(c, st.jobs[k], st'.jobs[k].pc);
    assert st'.jobs == st.jobs[k := Placed(st.jobs[k], st'.jobs[k].pc)];
  }

  lemma WithdrawnCounted(c: Config, j: JobRec, pc: Submitter)
    requires Counted(c, j) && j.pc.Withdrawing? && (pc == Forced(j.pc.to) || pc.Returned?)
    ensures Counted(c, j.(pc := pc))
  {
  }

  /** Whether or not the job was still in line, the call only moves on. */
  lemma WithdrawChangesPc(st: State, k: JobId, st': State)
    requires k < |st.jobs| && WithdrawStep(st, k) == Some(st')
    ensures st.jobs[k].pc.Withdrawing? && st'.jobs == st.jobs[k := st.jobs[k].(pc := st'.jobs[k].pc)]
    ensures st'.jobs[k].pc == Forced(st.jobs[k].pc.to) || st'.jobs[k].pc.Returned?
  {
  }

  lemma WithdrawCounted(c: Config, st: State, k: JobId, st': State)
    requires AllCounted(c, st) && k < |st.jobs| && WithdrawStep(st, k) == Some(st')
    ensures AllCounted(c, st')
  {
    WithdrawChangesPc(st, k, st');
    WithdrawnCounted(c, st.jobs[k], st'.jobs[k].pc);
  }

  /** A worker changes neither a call's place nor its counters. */
  predicate SameCall(j: JobRec, j': JobRec) {
    && j'.pc == j.pc && j'.total == j.total && j'.model == j.model && j'.visited == j.visited && j'.lastFailed == j.lastFailed
    && j'.log.placed == j.log.placed && j'.log.waits == j.log.waits && j'.submittedAt == j.submittedAt
  }

  lemma WorkSameCalls(c: Config, st: State, s: ServerId, a: WorkAct, st': State)
    requires WorkStep(c, st, s, a) == Some(st')
    ensures |st'.jobs| == |st.jobs| && forall k: JobId | k < |st.jobs| :: SameCall(st.jobs[k], st'.jobs[k])
  {
  }

  lemma SubmitCounted(c: Config, st: State, k: JobId, a: SubmitAct, st': State)
    requires Orderly(c, st) && AllCounted(c, st) && SubmitStep(c, st, k, a) == Some(st')
    ensures AllCounted(c, st')
  {
    assert Counted(c, st.jobs[k]) && JobOrderly(c, |st.servers|, st.jobs[k]);
    if a.Place? {
      PlaceCounted(c, st, k, st');
    } else if a.Withdraw? {
      WithdrawCounted(c, st, k, st');
    } else if !a.Nudge? {
      JobMoveCounted(c, st.servers, st.now, st.jobs[k], a, st'.jobs[k]);
    }
  }

  lemma WorkCounted(c: Config, st: State, s: ServerId, a: WorkAct, st': State)
    requires AllCounted(c, st) && WorkStep(c, st, s, a) == Some(st')
    ensures AllCounted(c, st')
  {
    WorkSameCalls(c, st, s, a, st');
    forall k: JobId | k < |st'.jobs| ensures Counted(c, st'.jobs[k]) {
      assert Counted(c, st.jobs[k]) && SameCall(st.jobs[k], st'.jobs[k]);
    }
  }

  lemma CountedStep(c: Config, st: State, a: Action, st': State)
    requires Orderly(c, st) && AllCounted(c, st) && Step(c, st, a) == Some(st')
    ensures AllCounted(c, st')
  {
    if a.Sub? {
      SubmitCounted(c, st, a.k, a.sub, st');
    } else if a.Work? {
      WorkCounted(c, st, a.s, a.work, st');
    }
  }

  // ---------------------------------------------------------------- counting runs

  /** Where job `k` waits for its Run. */
  function Waitlist(st: State, k: JobId): nat {
    Tally(Unbegun, st.servers, k) + Count(st.pool, k)
  }

  function RunsOf(jobs: seq<JobRec>, k: JobId): nat {
    if k < |jobs| then jobs[k].log.runs else 0
  }

  function PlacedOf(jobs: seq<JobRec>, k: JobId): nat {
    if k < |jobs| then jobs[k].log.placed else 0
  }

  /** Each placement is run at most once. */
  ghost predicate RunsBounded(st: State) {
    forall k: JobId {:trigger Waitlist(st, k)} :: RunsOf(st.jobs, k) + Waitlist(st, k) <= PlacedOf(st.jobs, k)
  }

  lemma KeepsRunsBounded(st: State, s: ServerId, st': State)
    requires RunsBounded(st) && OnlyServer(st, s, st')
    requires forall x: JobId :: RunsOf(st'.jobs, x) + Local(Unbegun, st', s, x) + PlacedOf(st.jobs, x)
                                <= RunsOf(st.jobs, x) + Local(Unbegun, st, s, x) + PlacedOf(st'.jobs, x)
    ensures RunsBounded(st')
  {
    forall x: JobId ensures RunsOf(st'.jobs, x) + Waitlist(st', x) <= PlacedOf(st'.jobs, x) {
      LocalToGlobal(Unbegun, st, s, st', x);
      assert RunsOf(st.jobs, x) + Waitlist(st, x) <= PlacedOf(st.jobs, x);
      assert RunsOf(st'.jobs, x) + Local(Unbegun, st', s, x) + PlacedOf(st.jobs, x)
             <= RunsOf(st.jobs, x) + Local(Unbegun, st, s, x) + PlacedOf(st'.jobs, x);
    }
  }

  /** A Submit call's own acts leave everything a worker writes. */
  predicate SameRuns(j: JobRec, j': JobRec) {
    && j'.log.runs == j.log.runs && j'.log.placed == j.log.placed && j'.log.final == j.log.final
    && j'.log.wrote == j.log.wrote && j'.log.leaked == j.log.leaked && j'.log.spans == j.log.spans
    && j'.model == j.model && j'.dispatched == j.dispatched && j'.queueMs == j.queueMs && j'.runMs == j.runMs
    && (!j.pc.Fresh? ==> j'.submittedAt == j.submittedAt)
    && !j'.pc.Fresh?
  }

  lemma SettledSame(c: Config, j: JobRec, res: Result)
    requires !j.pc.Fresh?
    ensures forall s: ServerId :: SameRuns(j, AfterPush(c, j, s, res))
    ensures SameRuns(j, AfterPull(c, j, res))
  {
  }

  lemma AttemptingSame(c: Config, j: JobRec, attempt: nat, to: Option<ServerId>)
    requires !j.pc.Fresh?
    ensures SameRuns(j, Attempting(c, j, attempt, to))
  {
  }

  lemma ChooseSame(c: Config, ss: seq<Srv>, now: Nanos, j: JobRec, s: ServerId, j': JobRec)
    requires JobMove(c, ss, now, j, Choose(s)) == Some(j')
    ensures SameRuns(j, j')
  {
    var j1 := j.(total := j.total + 1, log := j.log.(trail := j'.log.trail, looks := []));
    AttemptingSame(c, j1, j.total + 1, Some(s));
  }

  lemma OtherwiseSame(c: Config, ss: seq<Srv>, now: Nanos, j: JobRec, a: SubmitAct, j': JobRec)
    requires JobMove(c, ss, now, j, a) == Some(j') && !a.Choose?
    ensures SameRuns(j, j')
  {
    if a.Receive? {
      SettledSame(c, j, j.slot.value);
    } else if a.Look? {
      AttemptingSame(c, j, j.total + 1, None);
    } else if a.Lift? {
      AttemptingSame(c, j.(visited := {}, log := j.log.(looks := j.pc.looks)), j.total + 1, None);
    }
  }

  lemma JobMoveKeepsLog(c: Config, ss: seq<Srv>, now: Nanos, j: JobRec, a: SubmitAct, j': JobRec)
    requires JobMove(c, ss, now, j, a) == Some(j')
    ensures SameRuns(j, j')
  {
    if a.Choose? {
      ChooseSame(c, ss, now, j, a.s, j');
    } else {
      OtherwiseSame(c, ss, now, j, a, j');
    }
  }

  lemma PlaceRunsBounded(st: State, k: JobId, st': State)
    requires Balanced(st) && RunsBounded(st) && k < |st.jobs| && PlaceStep(st, k) == Some(st')
    ensures RunsBounded(st')
  {
    Nowhere(st, k);
    forall x: JobId ensures OnlyServer(st, st.jobs[k].pc.to.GetOr(0), st')
      && Local(Unbegun, st', st.jobs[k].pc.to.GetOr(0), x) == Local(Unbegun, st, st.jobs[k].pc.to.GetOr(0), x) + One(k, x)
    {
      PlaceLocal(st, k, st', x);
    }
    KeepsRunsBounded(st, st.jobs[k].pc.to.GetOr(0), st');
  }

  lemma WithdrawRunsBounded(st: State, k: JobId, st': State)
    requires RunsBounded(st) && k < |st.jobs| && WithdrawStep(st, k) == Some(st')
    ensures RunsBounded(st')
  {
    forall x: JobId ensures OnlyServer(st, st.jobs[k].pc.to.GetOr(0), st')
      && Local(Unbegun, st', st.jobs[k].pc.to.GetOr(0), x) <= Local(Unbegun, st, st.jobs[k].pc.to.GetOr(0), x)
    {
      WithdrawLocal(st, k, st', x);
    }
    KeepsRunsBounded(st, st.jobs[k].pc.to.GetOr(0), st');
  }

  lemma SubmitRunsBounded(c: Config, st: State, k: JobId, a: SubmitAct, st': State)
    requires Balanced(st) && RunsBounded(st) && SubmitStep(c, st, k, a) == Some(st')
    ensures RunsBounded(st')
  {
    if a.Place? {
      PlaceRunsBounded(st, k, st');
    } else if a.Withdraw? {
      WithdrawRunsBounded(st, k, st');
    } else if a.Nudge? {
      KeepsRunsBounded(st, st.jobs[k].pc.whom, st');
    } else {
      JobMoveKeepsLog(c, st.servers, st.now, st.jobs[k], a, st'.jobs[k]);
      KeepsRunsBounded(st, 0, st');
    }
  }

  lemma OtherWorkBegins(c: Config, st: State, s: ServerId, a: WorkAct, st': State, x: JobId)
    requires WorkStep(c, st, s, a) == Some(st') && !a.Begin? && !a.Finish?
    ensures Local(Unbegun, st', s, x) <= Local(Unbegun, st, s, x)
    ensures RunsOf(st'.jobs, x) == RunsOf(st.jobs, x) && PlacedOf(st'.jobs, x) == PlacedOf(st.jobs, x)
  {
    if a.Pop? {
      PopLocal(c, st, s, a.held, st', x);
    } else if !a.Deliver? && !a.DrainPool? {
      SrvMoveLocal(c, st.jobs, st.stopping, st.servers[s], s, a, st'.servers[s], x);
    }
  }

  lemma WorkRunsBounded(c: Config, st: State, s: ServerId, a: WorkAct, st': State)
    requires Balanced(st) && RunsBounded(st) && WorkStep(c, st, s, a) == Some(st')
    ensures RunsBounded(st')
  {
    if a.Begin? || a.Finish? {
      KeepsRunsBounded(st, s, st');
    } else {
      forall x: JobId ensures Local(Unbegun, st', s, x) <= Local(Unbegun, st, s, x)
                              && RunsOf(st'.jobs, x) == RunsOf(st.jobs, x) && PlacedOf(st'.jobs, x) == PlacedOf(st.jobs, x) {
        OtherWorkBegins(c, st, s, a, st', x);
      }
      KeepsRunsBounded(st, s, st');
    }
  }

  lemma RunsBoundedStep(c: Config, st: State, a: Action, st': State)
    requires Balanced(st) && RunsBounded(st) && Step(c, st, a) == Some(st')
    ensures RunsBounded(st')
  {
    if a.Sub? {
      SubmitRunsBounded(c, st, a.k, a.sub, st');
    } else if a.Work? {
      WorkRunsBounded(c, st, a.s, a.work, st');
    } else if a.Poll? {
      KeepsRunsBounded(st, a.p, st');
    } else {
      KeepsRunsBounded(st, 0, st');
    }
  }
}
