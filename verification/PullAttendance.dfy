/**
 No stranded work in pull mode, in runs before shutdown where health only rises and model lists stay:
 every job in the pool has a server that may take it and will look at the pool again, or its submitter
 is about to wake one.
 */
module PullAttendance {
  import opened Wrappers
  import opened Selection
  import opened Machine
  import opened Conservation
  import opened Order
  import opened Attendance

  predicate MayTake(ss: seq<Srv>, s: ServerId, j: JobRec) {
    CandidateAt(ss, s, j.model, j.visited)
  }

  ghost predicate ServerComing(ss: seq<Srv>, j: JobRec) {
    exists s: ServerId :: MayTake(ss, s, j) && Stirred(ss[s])
  }

  /** The submitter of `j` will still wake a server that may take it. */
  ghost predicate WakeComing(ss: seq<Srv>, j: JobRec) {
    match j.pc
    case Scanning(next, best) =>
      || (best.Some? && MayTake(ss, best.value, j))
      || (exists s: ServerId :: next <= s && MayTake(ss, s, j))
    case Nudging(_, whom) => MayTake(ss, whom, j)
    case _ => false
  }

  ghost predicate Served(ss: seq<Srv>, j: JobRec) {
    ServerComing(ss, j) || WakeComing(ss, j)
  }

  /** What a Submit call may rely on before it puts its job into the pool. */
  predicate Hopeful(ss: seq<Srv>, j: JobRec) {
    && (j.pc.Fresh? || j.pc.Checking? ==> j.visited == {})
    && (!j.pc.Fresh? && !j.pc.Checking? && !j.pc.Returned? ==> AnyCandidate(ss, j.model, {}))
    && (j.pc.Pausing? || j.pc.Placing? ==> AnyCandidate(ss, j.model, j.visited))
    && (j.pc.Scanning? && j.pc.best.Some? ==> MayTake(ss, j.pc.best.value, j))
  }

  ghost predicate PoolServed(c: Config, st: State) {
    && (forall k: JobId | k < |st.jobs| :: Hopeful(st.servers, st.jobs[k]))
    && (forall k: JobId | k < |st.jobs| :: Count(st.pool, k) > 0 ==> Served(st.servers, st.jobs[k]))
    && (forall s | 0 <= s < |st.servers| ::
          st.servers[s].worker.Looking? ==> st.servers[s].worker.view.allowed == st.servers[s].models)
  }

  /** No shutdown, no server goes down, no model list changes. */
  predicate Rising(st: State, st': State) {
    && !st.stopping && !st'.stopping
    && |st'.servers| == |st.servers|
    && (forall s | 0 <= s < |st.servers| ::
          && (st.servers[s].healthy ==> st'.servers[s].healthy)
          && st'.servers[s].models == st.servers[s].models)
  }

  /** A server that may take the job and will look keeps being so. */
  predicate KeepsStirred(ss: seq<Srv>, ss': seq<Srv>, j: JobRec) {
    forall s: ServerId | s < |ss| && s < |ss'| :: MayTake(ss, s, j) && Stirred(ss[s]) ==> Stirred(ss'[s])
  }

  lemma StillCandidates(st: State, st': State, model: string, exclude: set<ServerId>)
    requires Rising(st, st')
    ensures forall s: ServerId :: CandidateAt(st.servers, s, model, exclude) ==> CandidateAt(st'.servers, s, model, exclude)
    ensures AnyCandidate(st.servers, model, exclude) ==> AnyCandidate(st'.servers, model, exclude)
  {
    if AnyCandidate(st.servers, model, exclude) {
      var s :| 0 <= s < |st.servers| && CandidateAt(st.servers, s, model, exclude);
      assert CandidateAt(st'.servers, s, model, exclude);
    }
  }

  lemma StillHopeful(st: State, st': State, j: JobRec)
    requires Rising(st, st') && Hopeful(st.servers, j)
    ensures Hopeful(st'.servers, j)
  {
    StillCandidates(st, st', j.model, {});
    StillCandidates(st, st', j.model, j.visited);
  }

  /** A job whose record did not change is still served when the servers only rose. */
  lemma StillServed(st: State, st': State, j: JobRec, j': JobRec)
    requires Rising(st, st') && Served(st.servers, j) && KeepsStirred(st.servers, st'.servers, j)
    requires j'.pc == j.pc && j'.model == j.model && j'.visited == j.visited
    ensures Served(st'.servers, j')
  {
    StillCandidates(st, st', j.model, j.visited);
    if ServerComing(st.servers, j) {
      var s: ServerId :| MayTake(st.servers, s, j) && Stirred(st.servers[s]);
      assert MayTake(st'.servers, s, j') && Stirred(st'.servers[s]);
    } else if j.pc.Scanning? && !(j.pc.best.Some? && MayTake(st.servers, j.pc.best.value, j)) {
      var s: ServerId :| j.pc.next <= s && MayTake(st.servers, s, j);
      assert MayTake(st'.servers, s, j');
    }
  }

  // ---------------------------------------------------------------- steps of a Submit call

  lemma JobMoveHopeful(c: Config, ss: seq<Srv>, now: Nanos, j: JobRec, a: SubmitAct, j': JobRec)
    requires JobMove(c, ss, now, j, a) == Some(j') && !c.mode.Push? && Hopeful(ss, j) && JobOrderly(c, |ss|, j)
    ensures Hopeful(ss, j')
  {
    if a.Look? && j.pc.Checking? {
      assert j'.pc.Placing? ==> CandidateAt(ss, j.pc.next, j'.model, {});
    } else if a.Look? && j.pc.Excluding? {
      assert !j'.pc.Excluding? ==> CandidateAt(ss, |j.pc.looks|, j'.model, j'.visited);
    }
  }

  /** One look of the scan: the server is picked, or busy and so about to look itself, or may not take the job. */
  lemma ScanServes(c: Config, st: State, j: JobRec, j': JobRec)
    requires !c.mode.Push? && Orderly(c, st) && !st.stopping
    requires JobMove(c, st.servers, st.now, j, Scan) == Some(j') && Served(st.servers, j)
    requires Hopeful(st.servers, j)
    ensures Served(st.servers, j')
  {
    var ss := st.servers;
    if ServerComing(ss, j) {
      var s: ServerId :| MayTake(ss, s, j) && Stirred(ss[s]);
      assert MayTake(ss, s, j') && Stirred(ss[s]);
    } else if j.pc.best.Some? {
      assert MayTake(ss, j.pc.best.value, j) && MayTake(ss, j.pc.best.value, j');
      if j.pc.next < |ss| && MayTake(ss, j.pc.next, j) { assert MayTake(ss, j.pc.next, j'); }
    } else {
      var s: ServerId :| j.pc.next <= s && MayTake(ss, s, j);
      assert MayTake(ss, s, j');
      if s == j.pc.next {
        assert SrvOrderly(c, st.stopping, ss[s], s);
      }
    }
  }

  lemma MoveServes(c: Config, st: State, j: JobRec, a: SubmitAct, j': JobRec)
    requires !c.mode.Push? && Orderly(c, st) && !st.stopping && JobOrderly(c, |st.servers|, j)
    requires JobMove(c, st.servers, st.now, j, a) == Some(j') && Served(st.servers, j)
    requires Hopeful(st.servers, j) && Out(j.pc) && j.slot.None?
    ensures Served(st.servers, j')
  {
    if a.Scan? {
      ScanServes(c, st, j, j');
    } else {
      assert a.Cancel? && !WakeComing(st.servers, j);
      var s: ServerId :| MayTake(st.servers, s, j) && Stirred(st.servers[s]);
      assert MayTake(st.servers, s, j');
    }
  }

  lemma MovePoolServed(c: Config, st: State, k: JobId, a: SubmitAct, j': JobRec)
    requires !c.mode.Push? && Balanced(st) && Orderly(c, st) && !st.stopping && PoolServed(c, st) && k < |st.jobs|
    requires JobMove(c, st.servers, st.now, st.jobs[k], a) == Some(j')
    ensures PoolServed(c, PutJob(st, k, j'))
  {
    assert Hopeful(st.servers, st.jobs[k]) && JobOrderly(c, |st.servers|, st.jobs[k]);
    JobMoveHopeful(c, st.servers, st.now, st.jobs[k], a, j');
    if Count(st.pool, k) > 0 {
      PooledAlone(st, k);
      MoveServes(c, st, st.jobs[k], a, j');
    }
  }

  lemma PlacePoolServed(c: Config, st: State, k: JobId, st': State)
    requires !c.mode.Push? && Orderly(c, st) && PoolServed(c, st) && k < |st.jobs| && PlaceStep(st, k) == Some(st')
    ensures PoolServed(c, st')
  {
    assert JobOrderly(c, |st.servers|, st.jobs[k]) && Hopeful(st.servers, st.jobs[k]);
    var s :| 0 <= s < |st.servers| && CandidateAt(st.servers, s, st.jobs[k].model, st.jobs[k].visited);
    assert MayTake(st'.servers, s, st'.jobs[k]);
    forall x: JobId | x < |st'.jobs| ensures Count(st'.pool, x) > 0 ==> Served(st'.servers, st'.jobs[x]) {
      CountConcat(st.pool, [k], x);
    }
  }

  lemma WithdrawPoolServed(c: Config, st: State, k: JobId, st': State)
    requires !c.mode.Push? && Balanced(st) && Orderly(c, st) && PoolServed(c, st)
    requires k < |st.jobs| && WithdrawStep(st, k) == Some(st')
    ensures PoolServed(c, st')
  {
    assert JobOrderly(c, |st.servers|, st.jobs[k]) && Hopeful(st.servers, st.jobs[k]);
    var i := IndexOf(st.pool, k);
    CountIsMember(st.pool, k);
    if i.Some? {
      PooledAlone(st, k);
      assert st'.pool == Without(st.pool, i.value);
      forall x: JobId | x < |st'.jobs| ensures Count(st'.pool, x) > 0 ==> x != k && Count(st.pool, x) > 0 {
        CountWithout(st.pool, i.value, x);
      }
    }
  }

  lemma NudgePoolServed(c: Config, st: State, k: JobId, st': State)
    requires !c.mode.Push? && Orderly(c, st) && !st.stopping && PoolServed(c, st)
    requires k < |st.jobs| && NudgeStep(st, k) == Some(st')
    ensures PoolServed(c, st')
  {
    var whom := st.jobs[k].pc.whom;
    forall x: JobId | x < |st'.jobs|
      ensures Hopeful(st'.servers, st'.jobs[x])
      ensures Count(st'.pool, x) > 0 ==> Served(st'.servers, st'.jobs[x])
    {
      assert Hopeful(st.servers, st.jobs[x]);
      StillHopeful(st, st', st.jobs[x]);
      if Count(st.pool, x) > 0 {
        if x != k {
          StillServed(st, st', st.jobs[x], st'.jobs[x]);
        } else if ServerComing(st.servers, st.jobs[k]) {
          var s: ServerId :| MayTake(st.servers, s, st.jobs[k]) && Stirred(st.servers[s]);
          assert MayTake(st'.servers, s, st'.jobs[k]) && Stirred(st'.servers[s]);
        } else {
          assert MayTake(st'.servers, whom, st'.jobs[k]) && Stirred(st'.servers[whom]);
        }
      }
    }
  }

  // ---------------------------------------------------------------- steps of a worker or a poller

  /** A step that leaves submitters alone and takes no attention away keeps the pool served. */
  lemma OthersPoolServed(c: Config, st: State, st': State)
    requires PoolServed(c, st) && Rising(st, st') && |st'.jobs| == |st.jobs|
    requires forall x: JobId | x < |st.jobs| ::
               && st'.jobs[x].pc == st.jobs[x].pc && st'.jobs[x].model == st.jobs[x].model
               && st'.jobs[x].visited == st.jobs[x].visited
    requires forall x: JobId | x < |st.jobs| :: Count(st'.pool, x) > 0 ==>
               Count(st.pool, x) > 0 && KeepsStirred(st.servers, st'.servers, st.jobs[x])
    requires forall s | 0 <= s < |st'.servers| ::
               st'.servers[s].worker.Looking? ==> st'.servers[s].worker.view.allowed == st'.servers[s].models
    ensures PoolServed(c, st')
  {
    forall x: JobId | x < |st'.jobs|
      ensures Hopeful(st'.servers, st'.jobs[x])
      ensures Count(st'.pool, x) > 0 ==> Served(st'.servers, st'.jobs[x])
    {
      assert Hopeful(st.servers, st.jobs[x]);
      StillHopeful(st, st', st.jobs[x]);
      if Count(st'.pool, x) > 0 {
        StillServed(st, st', st.jobs[x], st'.jobs[x]);
      }
    }
  }

  /** A worker that finds nothing may take no job of the pool. */
  lemma NothingToTake(c: Config, st: State, s: ServerId, held: bool, k: JobId)
    requires !c.mode.Push? && Orderly(c, st) && PoolServed(c, st) && s < |st.servers| && k < |st.jobs|
    requires st.servers[s].worker.Looking? && Choice(c, st, s, held).None? && Count(st.pool, k) > 0
    ensures !MayTake(st.servers, s, st.jobs[k])
  {
    CountIsMember(st.pool, k);
    var i :| 0 <= i < |st.pool| && st.pool[i] == k;
    assert SrvOrderly(c, st.stopping, st.servers[s], s);
    assert Entries(st.jobs, st.pool)[i] == Entry(st.jobs[k].model, st.jobs[k].visited);
    assert !Takeable(Entries(st.jobs, st.pool)[i], st.servers[s].worker.view);
  }

  lemma TookQuiet(c: Config, st: State, s: ServerId, i: Option<nat>)
    requires !c.mode.Push? && s < |st.servers| && st.servers[s].worker.Looking? && !st.stopping
    requires i.Some? ==> i.value < |st.pool|
    ensures Rising(st, Took(c, st, s, i)) && Took(c, st, s, i).jobs == st.jobs && OnlyServer(st, s, Took(c, st, s, i))
    ensures !Took(c, st, s, i).servers[s].worker.Looking?
    ensures i.Some? ==> Stirred(Took(c, st, s, i).servers[s]) && Took(c, st, s, i).pool == Without(st.pool, i.value)
    ensures i.None? ==> Took(c, st, s, i).pool == st.pool
  {
  }

  lemma PopPoolServed(c: Config, st: State, s: ServerId, held: bool)
    requires !c.mode.Push? && Balanced(st) && Orderly(c, st) && PoolServed(c, st) && !st.stopping
    requires s < |st.servers| && st.servers[s].worker.Looking?
    ensures PoolServed(c, Took(c, st, s, Choice(c, st, s, held)))
  {
    var i := Choice(c, st, s, held);
    var st' := Took(c, st, s, i);
    TookQuiet(c, st, s, i);
    forall x: JobId | x < |st.jobs| ensures Count(st'.pool, x) > 0 ==>
               Count(st.pool, x) > 0 && KeepsStirred(st.servers, st'.servers, st.jobs[x])
    {
      if i.Some? {
        CountWithout(st.pool, i.value, x);
      } else if Count(st.pool, x) > 0 {
        NothingToTake(c, st, s, held, x);
      }
    }
    OthersPoolServed(c, st, st');
  }

  lemma SrvMoveStays(c: Config, jobs: seq<JobRec>, sv: Srv, s: ServerId, a: WorkAct, sv': Srv)
    requires SrvMove(c, jobs, false, sv, s, a) == Some(sv') && SrvOrderly(c, false, sv, s)
    ensures sv.healthy ==> Stirred(sv')
    ensures sv'.healthy == sv.healthy && sv'.models == sv.models
    ensures sv.worker.Looking? ==> sv.worker.view.allowed == sv.models ==> sv'.worker.Looking? ==> sv'.worker.view.allowed == sv'.models
  {
  }

  lemma WorkPoolServed(c: Config, st: State, s: ServerId, a: WorkAct, st': State)
    requires !c.mode.Push? && Balanced(st) && Orderly(c, st) && PoolServed(c, st) && Rising(st, st')
    requires WorkStep(c, st, s, a) == Some(st')
    ensures PoolServed(c, st')
  {
    assert SrvOrderly(c, st.stopping, st.servers[s], s);
    if a.Pop? {
      PopPoolServed(c, st, s, a.held);
    } else {
      if !(a.Begin? || a.Finish? || a.Deliver? || a.DrainPool?) {
        SrvMoveStays(c, st.jobs, st.servers[s], s, a, st'.servers[s]);
      }
      WorkQuiet(c, st, s, a, st');
      OthersPoolServed(c, st, st');
    }
  }

  lemma WorkQuiet(c: Config, st: State, s: ServerId, a: WorkAct, st': State)
    requires WorkStep(c, st, s, a) == Some(st') && !a.Pop? && !st.stopping && SrvOrderly(c, st.stopping, st.servers[s], s)
    ensures |st'.jobs| == |st.jobs| && st'.pool == st.pool && OnlyServer(st, s, st')
    ensures forall x: JobId | x < |st.jobs| ::
               && st'.jobs[x].pc == st.jobs[x].pc && st'.jobs[x].model == st.jobs[x].model
               && st'.jobs[x].visited == st.jobs[x].visited
    ensures st.servers[s].healthy ==> Stirred(st'.servers[s])
    ensures st'.servers[s].worker.Looking? ==> st'.servers[s].worker.view.allowed == st'.servers[s].models
  {
    if !(a.Begin? || a.Finish? || a.Deliver? || a.DrainPool?) {
      SrvMoveStays(c, st.jobs, st.servers[s], s, a, st'.servers[s]);
    }
  }

  lemma PollPoolServed(c: Config, st: State, s: ServerId, a: PollAct, st': State)
    requires PoolServed(c, st) && Rising(st, st') && PollStep(c, st, s, a) == Some(st')
    ensures PoolServed(c, st')
  {
    OthersPoolServed(c, st, st');
  }

  lemma PoolServedStep(c: Config, st: State, a: Action, st': State)
    requires !c.mode.Push? && Balanced(st) && Orderly(c, st) && PoolServed(c, st) && Rising(st, st')
    requires Step(c, st, a) == Some(st')
    ensures PoolServed(c, st')
  {
    if a.Sub? {
      if a.sub.Place? {
        PlacePoolServed(c, st, a.k, st');
      } else if a.sub.Withdraw? {
        WithdrawPoolServed(c, st, a.k, st');
      } else if a.sub.Nudge? {
        NudgePoolServed(c, st, a.k, st');
      } else {
        MovePoolServed(c, st, a.k, a.sub, st'.jobs[a.k]);
      }
    } else if a.Work? {
      WorkPoolServed(c, st, a.s, a.work, st');
    } else if a.Poll? {
      PollPoolServed(c, st, a.p, a.poll, st');
    } else {
      OthersPoolServed(c, st, st');
    }
  }

  /** Every step of the run keeps or raises health, keeps the model lists and comes before shutdown. */
  predicate RisingRun(c: Config, st0: State, acts: seq<Action>)
    decreases |acts|
  {
    acts == [] ||
    var before := acts[..|acts| - 1];
    && RisingRun(c, st0, before)
    && After(c, st0, before).Some? && After(c, st0, acts).Some?
    && Rising(After(c, st0, before).value, After(c, st0, acts).value)
  }

  lemma {:induction false} PoolServedAfter(c: Config, st0: State, acts: seq<Action>, st: State)
    requires !c.mode.Push? && Init(st0) && After(c, st0, acts) == Some(st) && RisingRun(c, st0, acts)
    ensures PoolServed(c, st)
    decreases |acts|
  {
    if acts != [] {
      var mid := After(c, st0, acts[..|acts| - 1]).value;
      PoolServedAfter(c, st0, acts[..|acts| - 1], mid);
      SafeAfter(c, st0, acts[..|acts| - 1], mid);
      PoolServedStep(c, mid, acts[|acts| - 1], st);
    }
  }

  lemma ServedMeans(c: Config, st: State, k: JobId)
    requires PoolServed(c, st) && k < |st.jobs| && k in st.pool
    ensures (exists s: ServerId :: MayTake(st.servers, s, st.jobs[k]) && Stirred(st.servers[s])) || WakeComing(st.servers, st.jobs[k])
  {
    CountIsMember(st.pool, k);
  }

  /** The property in the run's own terms. */
  lemma PoolNeverStrands(c: Config, st0: State, acts: seq<Action>, st: State, k: JobId)
    requires !c.mode.Push? && Init(st0) && After(c, st0, acts) == Some(st) && RisingRun(c, st0, acts)
    requires k < |st.jobs| && k in st.pool
    ensures (exists s: ServerId :: MayTake(st.servers, s, st.jobs[k]) && Stirred(st.servers[s])) || WakeComing(st.servers, st.jobs[k])
  {
    PoolServedAfter(c, st0, acts, st);
    ServedMeans(c, st, k);
  }
}
