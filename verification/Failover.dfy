/**
 INV-5: two consecutive attempts of a call share a server only after a search that left out the failed server
 had looked at every other one in vain. In push mode the search is Pick, in pull mode the one that decides
 whether the exclusion is lifted. `Sightings` says what that means for the servers.
 */
module Failover {
  import opened Wrappers
  import opened Selection
  import opened Machine
  import opened Conservation
  import opened Order
  import opened Attempts

  function Last(trail: seq<Visit>): ServerId
    requires trail != []
  {
    trail[|trail| - 1].server
  }

  /** The same server twice in a row only after a search that found none of the others. */
  predicate Alternates(n: nat, trail: seq<Visit>) {
    forall i | 0 < i < |trail| :: trail[i].server == trail[i - 1].server ==> Refused(n, trail[i].looks)
  }

  // ---------------------------------------------------------------- push: decided at the choice

  /** A search under way has not found the server it leaves out; the second one follows a search in vain. */
  predicate Searching(n: nat, j: JobRec) {
    j.pc.Choosing? ==>
      && (j.pc.again ==> Refused(n, j.log.looks))
      && (forall i | 0 <= i < |j.pc.looks| :: j.pc.looks[i] ==> i !in LeftOut(j, j.pc.again))
      && (j.total == 0 ==> j.log.trail == [] && j.lastFailed == None)
      && (j.total > 0 ==> j.log.trail != [] && j.lastFailed == Some(Last(j.log.trail)))
  }

  predicate PushTrail(n: nat, j: JobRec) {
    && Alternates(n, j.log.trail)
    && (j.pc.Fresh? ==> j.total == 0 && j.log.trail == [] && j.lastFailed == None)
    && Searching(n, j)
    && (j.pc.Pausing? || j.pc.Placing? || Out(j.pc) ==> j.total > 0 && j.log.trail != [] && To(j.pc) == Some(Last(j.log.trail)))
  }

  lemma ChosenTrail(c: Config, n: nat, j: JobRec, s: ServerId)
    requires PushTrail(n, j) && j.pc.Choosing? && s < |j.pc.looks| && j.pc.looks[s]
    ensures PushTrail(n, Chosen(c, j, s))
  {
  }

  lemma JobMovePushTrail(c: Config, ss: seq<Srv>, now: Nanos, j: JobRec, a: SubmitAct, j': JobRec)
    requires JobMove(c, ss, now, j, a) == Some(j') && c.mode.Push? && PushTrail(|ss|, j) && JobOrderly(c, |ss|, j)
    ensures PushTrail(|ss|, j')
  {
    if a.Choose? {
      ChosenTrail(c, |ss|, j, a.s);
    }
  }

  ghost predicate PushTrails(c: Config, st: State) {
    c.mode.Push? ==> forall k: JobId | k < |st.jobs| :: PushTrail(|st.servers|, st.jobs[k])
  }

  predicate SameTrail(j: JobRec, j': JobRec) {
    && j'.pc == j.pc && j'.total == j.total && j'.lastFailed == j.lastFailed && j'.log.trail == j.log.trail && (j.pc.Choosing? ==> j'.log.looks == j.log.looks)
  }

  lemma WorkSameTrails(c: Config, st: State, s: ServerId, a: WorkAct, st': State)
    requires WorkStep(c, st, s, a) == Some(st') && c.mode.Push?
    ensures |st'.jobs| == |st.jobs| && forall k: JobId | k < |st.jobs| :: SameTrail(st.jobs[k], st'.jobs[k])
  {
  }

  lemma LineTrails(c: Config, st: State, k: JobId, a: SubmitAct, st': State)
    requires c.mode.Push? && Orderly(c, st) && PushTrails(c, st) && SubmitStep(c, st, k, a) == Some(st')
    requires a.Place? || a.Withdraw? || a.Nudge?
    ensures PushTrails(c, st')
  {
    assert JobOrderly(c, |st.servers|, st.jobs[k]) && PushTrail(|st.servers|, st.jobs[k]);
    assert PushTrail(|st.servers|, st'.jobs[k]);
  }

  lemma MovePushTrails(c: Config, st: State, k: JobId, a: SubmitAct, j': JobRec)
    requires c.mode.Push? && Orderly(c, st) && PushTrails(c, st) && k < |st.jobs|
    requires JobMove(c, st.servers, st.now, st.jobs[k], a) == Some(j')
    ensures PushTrails(c, PutJob(st, k, j'))
  {
    assert JobOrderly(c, |st.servers|, st.jobs[k]) && PushTrail(|st.servers|, st.jobs[k]);
    JobMovePushTrail(c, st.servers, st.now, st.jobs[k], a, j');
  }

  lemma WorkPushTrails(c: Config, st: State, s: ServerId, a: WorkAct, st': State)
    requires c.mode.Push? && PushTrails(c, st) && WorkStep(c, st, s, a) == Some(st')
    ensures PushTrails(c, st')
  {
    WorkSameTrails(c, st, s, a, st');
    assert |st'.servers| == |st.servers|;
    forall k: JobId | k < |st'.jobs| ensures PushTrail(|st'.servers|, st'.jobs[k]) {
      assert PushTrail(|st.servers|, st.jobs[k]) && SameTrail(st.jobs[k], st'.jobs[k]);
    }
  }

  lemma PushTrailsStep(c: Config, st: State, a: Action, st': State)
    requires Orderly(c, st) && PushTrails(c, st) && Step(c, st, a) == Some(st')
    ensures PushTrails(c, st')
  {
    if c.mode.Push? {
      if a.Sub? {
        if a.sub.Place? || a.sub.Withdraw? || a.sub.Nudge? {
          LineTrails(c, st, a.k, a.sub, st');
        } else {
          MovePushTrails(c, st, a.k, a.sub, st'.jobs[a.k]);
        }
      } else if a.Work? {
        WorkPushTrails(c, st, a.s, a.work, st');
      }
    }
  }

  // ---------------------------------------------------------------- pull: decided by the exclusion

  /** The exclusion a job carries while no attempt of it is under way. */
  predicate Linked(n: nat, j: JobRec) {
    if j.log.trail == [] then j.visited == {}
    else j.visited == {Last(j.log.trail)} || (j.visited == {} && Refused(n, j.log.looks))
  }

  /** A result names the server of the last attempt, or comes from a shutdown. */
  predicate Attributed(j: JobRec, res: Result) {
    (j.log.trail != [] && res.server == Some(Last(j.log.trail))) || (res.server == None && res.err == Cancelled)
  }

  predicate PullTrail(n: nat, j: JobRec) {
    && Alternates(n, j.log.trail)
    && (j.pc.Fresh? || j.pc.Checking? || j.pc.Pausing? || j.pc.Placing? || j.pc.Excluding? ==> Linked(n, j))
    && (j.pc.Excluding? ==> j.log.trail != [] && forall i | 0 <= i < |j.pc.looks| :: !j.pc.looks[i])
    && (j.slot.Some? ==> Out(j.pc) && Attributed(j, j.slot.value))
  }

  /** What a worker's hands say about its job. */
  predicate HandTrail(n: nat, jobs: seq<JobRec>, s: ServerId, w: Worker) {
    match w
    case Holding(k) => k < |jobs| && Linked(n, jobs[k]) && s !in jobs[k].visited
    case Marked(k) => k < |jobs| && Linked(n, jobs[k]) && s !in jobs[k].visited
    case Running(k, _) => k < |jobs| && jobs[k].log.trail != [] && Last(jobs[k].log.trail) == s
    case Crashing(k, res) => k < |jobs| && jobs[k].log.trail != [] && Last(jobs[k].log.trail) == s && res.server == Some(s)
    case Failing(k, res, _) => k < |jobs| && jobs[k].log.trail != [] && Last(jobs[k].log.trail) == s && res.server == Some(s)
    case Sending(k, res) => k < |jobs| && jobs[k].log.trail != [] && Last(jobs[k].log.trail) == s && res.server == Some(s)
    case _ => true
  }

  ghost predicate PullTrails(c: Config, st: State) {
    !c.mode.Push? ==>
      && (forall k: JobId | k < |st.jobs| :: PullTrail(|st.servers|, st.jobs[k]))
      && (forall k: JobId | k < |st.jobs| :: Count(st.pool, k) > 0 ==> Linked(|st.servers|, st.jobs[k]))
      && (forall s: ServerId | s < |st.servers| :: HandTrail(|st.servers|, st.jobs, s, st.servers[s].worker))
  }

  predicate SameLink(j: JobRec, j': JobRec) {
    j'.log.trail == j.log.trail && j'.visited == j.visited && j'.log.looks == j.log.looks
  }

  lemma ReceivePullTrail(c: Config, ss: seq<Srv>, now: Nanos, j: JobRec, j': JobRec)
    requires JobMove(c, ss, now, j, Receive) == Some(j') && !c.mode.Push? && PullTrail(|ss|, j) && JobOrderly(c, |ss|, j)
    ensures PullTrail(|ss|, j')
  {
  }

  lemma OwnPullTrail(c: Config, ss: seq<Srv>, now: Nanos, j: JobRec, a: SubmitAct, j': JobRec)
    requires JobMove(c, ss, now, j, a) == Some(j') && !a.Receive?
    requires !c.mode.Push? && PullTrail(|ss|, j) && JobOrderly(c, |ss|, j)
    ensures PullTrail(|ss|, j')
  {
  }

  /** Only a job in nobody's hands changes its exclusion or its trail by its call's own acts. */
  lemma JobMovePullTrail(c: Config, ss: seq<Srv>, now: Nanos, j: JobRec, a: SubmitAct, j': JobRec)
    requires JobMove(c, ss, now, j, a) == Some(j') && !c.mode.Push? && PullTrail(|ss|, j) && JobOrderly(c, |ss|, j)
    ensures PullTrail(|ss|, j')
    ensures Out(j.pc) && j.slot.None? ==> SameLink(j, j')
  {
    if a.Receive? { ReceivePullTrail(c, ss, now, j, j'); } else { OwnPullTrail(c, ss, now, j, a, j'); }
  }

  /** A job in nobody's hands may change without any hand noticing. */
  lemma HandsElsewhere(c: Config, st: State, k: JobId, j': JobRec, s: ServerId)
    requires !c.mode.Push? && PullTrails(c, st) && k < |st.jobs| && s < |st.servers| && Part(All, st.servers[s], k) == 0
    ensures HandTrail(|st.servers|, PutJob(st, k, j').jobs, s, st.servers[s].worker)
  {
    assert HandTrail(|st.servers|, st.jobs, s, st.servers[s].worker);
    assert Held(st.servers[s].worker, k) <= Part(All, st.servers[s], k);
  }

  /** A job whose exclusion and trail stay may change in anybody's hands. */
  lemma HandsStay(c: Config, st: State, k: JobId, j': JobRec, s: ServerId)
    requires !c.mode.Push? && PullTrails(c, st) && k < |st.jobs| && s < |st.servers| && SameLink(st.jobs[k], j')
    ensures HandTrail(|st.servers|, PutJob(st, k, j').jobs, s, st.servers[s].worker)
  {
    assert HandTrail(|st.servers|, st.jobs, s, st.servers[s].worker);
  }

  lemma MovePullTrails(c: Config, st: State, k: JobId, a: SubmitAct, j': JobRec)
    requires !c.mode.Push? && Balanced(st) && Orderly(c, st) && PullTrails(c, st) && k < |st.jobs|
    requires JobMove(c, st.servers, st.now, st.jobs[k], a) == Some(j')
    ensures PullTrails(c, PutJob(st, k, j'))
  {
    var st' := PutJob(st, k, j');
    assert PullTrail(|st.servers|, st.jobs[k]) && JobOrderly(c, |st.servers|, st.jobs[k]);
    JobMovePullTrail(c, st.servers, st.now, st.jobs[k], a, j');
    if Out(st.jobs[k].pc) && st.jobs[k].slot.None? {
      forall s: ServerId | s < |st.servers| ensures HandTrail(|st.servers|, st'.jobs, s, st.servers[s].worker) {
        HandsStay(c, st, k, j', s);
      }
    } else {
      Nowhere(st, k);
      forall s: ServerId | s < |st.servers| ensures HandTrail(|st.servers|, st'.jobs, s, st.servers[s].worker) {
        HandsElsewhere(c, st, k, j', s);
      }
    }
  }

  lemma PlacedLinks(c: Config, st: State, k: JobId, st': State)
    requires !c.mode.Push? && Orderly(c, st) && PullTrails(c, st) && k < |st.jobs| && PlaceStep(st, k) == Some(st')
    ensures st' == PutJob(st, k, st'.jobs[k]).(pool := st.pool + [k])
    ensures PullTrail(|st.servers|, st'.jobs[k]) && Linked(|st.servers|, st'.jobs[k])
  {
    assert PullTrail(|st.servers|, st.jobs[k]) && JobOrderly(c, |st.servers|, st.jobs[k]);
  }

  lemma PlacePullTrails(c: Config, st: State, k: JobId, st': State)
    requires !c.mode.Push? && Balanced(st) && Orderly(c, st) && PullTrails(c, st) && k < |st.jobs| && PlaceStep(st, k) == Some(st')
    ensures PullTrails(c, st')
  {
    Nowhere(st, k);
    PlacedLinks(c, st, k, st');
    forall s: ServerId | s < |st.servers| ensures HandTrail(|st.servers|, st'.jobs, s, st'.servers[s].worker) {
      HandsElsewhere(c, st, k, st'.jobs[k], s);
    }
    forall x: JobId | x < |st'.jobs| ensures Count(st'.pool, x) > 0 ==> Linked(|st.servers|, st'.jobs[x]) {
      CountConcat(st.pool, [k], x);
    }
  }

  /** A withdrawal moves no hand and shortens the pool at most; the withdrawn job keeps its exclusion. */
  lemma WithdrawFromPool(c: Config, st: State, k: JobId, st': State)
    requires !c.mode.Push? && Balanced(st) && Orderly(c, st) && PullTrails(c, st) && k < |st.jobs| && WithdrawStep(st, k) == Some(st')
    ensures |st'.jobs| == |st.jobs| && |st'.servers| == |st.servers| && PullTrail(|st.servers|, st'.jobs[k])
    ensures forall s: ServerId | s < |st.servers| :: st'.servers[s].worker == st.servers[s].worker
    ensures forall x: JobId | x < |st.jobs| :: SameLink(st.jobs[x], st'.jobs[x]) && (x != k ==> st'.jobs[x] == st.jobs[x])
  {
    assert PullTrail(|st.servers|, st.jobs[k]) && JobOrderly(c, |st.servers|, st.jobs[k]);
    var i := IndexOf(st.pool, k);
    if i.Some? {
      CountMember(st.pool, i.value);
      PooledAlone(st, k);
    }
  }

  lemma WithdrawnPool(st: State, k: JobId, st': State, x: JobId)
    requires k < |st.jobs| && WithdrawStep(st, k) == Some(st')
    ensures Count(st'.pool, x) <= Count(st.pool, x)
  {
    var i := IndexOf(st.pool, k);
    if i.Some? { CountWithout(st.pool, i.value, x); }
  }

  lemma WithdrawPullTrails(c: Config, st: State, k: JobId, st': State)
    requires !c.mode.Push? && Orderly(c, st) && PullTrails(c, st) && k < |st.jobs|
    requires WithdrawStep(st, k) == Some(st') && Balanced(st)
    ensures PullTrails(c, st')
  {
    WithdrawFromPool(c, st, k, st');
    forall s: ServerId | s < |st.servers| ensures HandTrail(|st.servers|, st'.jobs, s, st'.servers[s].worker) {
      assert HandTrail(|st.servers|, st.jobs, s, st.servers[s].worker);
    }
    forall x: JobId | x < |st'.jobs| ensures Count(st'.pool, x) > 0 ==> Linked(|st.servers|, st'.jobs[x]) {
      WithdrawnPool(st, k, st', x);
      assert SameLink(st.jobs[x], st'.jobs[x]);
    }
  }

  lemma NudgePullTrails(c: Config, st: State, k: JobId, st': State)
    requires !c.mode.Push? && PullTrails(c, st) && k < |st.jobs| && NudgeStep(st, k) == Some(st')
    ensures PullTrails(c, st')
  {
    assert PullTrail(|st.servers|, st.jobs[k]) && PullTrail(|st.servers|, st'.jobs[k]) && SameLink(st.jobs[k], st'.jobs[k]);
    forall s: ServerId | s < |st.servers| ensures HandTrail(|st.servers|, st'.jobs, s, st'.servers[s].worker) {
      assert HandTrail(|st.servers|, st.jobs, s, st.servers[s].worker);
    }
  }

  /** A pool rule never gives a server a job that excludes it. */
  lemma ChoiceAvoids(c: Config, st: State, s: ServerId, held: bool)
    requires !c.mode.Push? && Orderly(c, st) && s < |st.servers| && st.servers[s].worker.Looking? && Choice(c, st, s, held).Some?
    ensures var k := st.pool[Choice(c, st, s, held).value]; s !in VisitedOf(st.jobs, k)
  {
    assert SrvOrderly(c, st.stopping, st.servers[s], s);
    var i := Choice(c, st, s, held).value;
    assert EarliestOfItsModel(Entries(st.jobs, st.pool), s, i);
    assert Entries(st.jobs, st.pool)[i] == EntryOf(st.jobs, st.pool[i]);
  }

  lemma TookPullTrails(c: Config, st: State, s: ServerId, i: Option<nat>)
    requires !c.mode.Push? && Balanced(st) && PullTrails(c, st) && s < |st.servers| && st.servers[s].worker.Looking?
    requires i.Some? ==> i.value < |st.pool| && s !in VisitedOf(st.jobs, st.pool[i.value])
    ensures PullTrails(c, Took(c, st, s, i))
  {
    var st' := Took(c, st, s, i);
    if i.Some? {
      CountMember(st.pool, i.value);
      PooledAlone(st, st.pool[i.value]);
    }
    forall x: JobId | x < |st'.jobs| ensures Count(st'.pool, x) > 0 ==> Linked(|st.servers|, st'.jobs[x]) {
      if i.Some? { CountWithout(st.pool, i.value, x); }
    }
  }

  lemma BeginPullTrails(c: Config, st: State, s: ServerId, st': State)
    requires !c.mode.Push? && Balanced(st) && PullTrails(c, st) && s < |st.servers| && BeginStep(c, st, s) == Some(st')
    ensures PullTrails(c, st')
  {
    var k := st.servers[s].worker.job;
    assert At(st, s, k);
    HeldAlone(st, s, k);
    assert PullTrail(|st.servers|, st.jobs[k]) && HandTrail(|st.servers|, st.jobs, s, st.servers[s].worker);
    assert st'.jobs[k].log.trail == st.jobs[k].log.trail + [Visit(s, st.jobs[k].log.looks)];
    assert PullTrail(|st.servers|, st'.jobs[k]);
    forall t: ServerId | t < |st'.servers| ensures HandTrail(|st.servers|, st'.jobs, t, st'.servers[t].worker) {
      assert HandTrail(|st.servers|, st.jobs, t, st.servers[t].worker);
      assert Held(st.servers[t].worker, k) <= Part(All, st.servers[t], k);
    }
  }

  lemma FinishPullTrails(c: Config, st: State, s: ServerId, out: Outcome, st': State)
    requires !c.mode.Push? && PullTrails(c, st) && s < |st.servers| && FinishStep(st, s, out) == Some(st')
    ensures PullTrails(c, st')
  {
    var k := st.servers[s].worker.job;
    assert PullTrail(|st.servers|, st.jobs[k]) && PullTrail(|st.servers|, st'.jobs[k]) && SameLink(st.jobs[k], st'.jobs[k]);
    forall t: ServerId | t < |st'.servers| ensures HandTrail(|st.servers|, st'.jobs, t, st'.servers[t].worker) {
      assert HandTrail(|st.servers|, st.jobs, t, st.servers[t].worker);
    }
  }

  lemma DeliverPullTrails(c: Config, st: State, s: ServerId, st': State)
    requires !c.mode.Push? && Balanced(st) && Orderly(c, st) && PullTrails(c, st) && s < |st.servers|
    requires DeliverStep(st, s) == Some(st')
    ensures PullTrails(c, st')
  {
    var p := NextParcel(st.servers[s].worker, s).value;
    assert At(st, s, p.job);
    HeldAlone(st, s, p.job);
    assert SrvOrderly(c, st.stopping, st.servers[s], s);
    assert PullTrail(|st.servers|, st.jobs[p.job]) && HandTrail(|st.servers|, st.jobs, s, st.servers[s].worker);
    assert PullTrail(|st.servers|, st'.jobs[p.job]) && SameLink(st.jobs[p.job], st'.jobs[p.job]);
    forall t: ServerId | t < |st'.servers| ensures HandTrail(|st.servers|, st'.jobs, t, st'.servers[t].worker) {
      assert HandTrail(|st.servers|, st.jobs, t, st.servers[t].worker);
    }
  }

  lemma SrvMovePullTrails(c: Config, st: State, s: ServerId, a: WorkAct, sv: Srv)
    requires !c.mode.Push? && PullTrails(c, st) && s < |st.servers|
    requires SrvMove(c, st.jobs, st.stopping, st.servers[s], s, a) == Some(sv)
    ensures PullTrails(c, PutSrv(st, s, sv))
  {
    assert HandTrail(|st.servers|, st.jobs, s, st.servers[s].worker);
    assert HandTrail(|st.servers|, st.jobs, s, sv.worker);
  }

  lemma WorkPullTrails(c: Config, st: State, s: ServerId, a: WorkAct, st': State)
    requires !c.mode.Push? && Balanced(st) && Orderly(c, st) && PullTrails(c, st) && WorkStep(c, st, s, a) == Some(st')
    ensures PullTrails(c, st')
  {
    if a.Pop? {
      if Choice(c, st, s, a.held).Some? { ChoiceAvoids(c, st, s, a.held); }
      TookPullTrails(c, st, s, Choice(c, st, s, a.held));
    } else if a.Begin? {
      BeginPullTrails(c, st, s, st');
    } else if a.Finish? {
      FinishPullTrails(c, st, s, a.out, st');
    } else if a.Deliver? {
      DeliverPullTrails(c, st, s, st');
    } else if !a.DrainPool? {
      SrvMovePullTrails(c, st, s, a, st'.servers[s]);
    }
  }

  lemma PullTrailsStep(c: Config, st: State, a: Action, st': State)
    requires Balanced(st) && Orderly(c, st) && PullTrails(c, st) && Step(c, st, a) == Some(st')
    ensures PullTrails(c, st')
  {
    if !c.mode.Push? {
      if a.Sub? {
        if a.sub.Place? {
          PlacePullTrails(c, st, a.k, st');
        } else if a.sub.Withdraw? {
          WithdrawPullTrails(c, st, a.k, st');
        } else if a.sub.Nudge? {
          NudgePullTrails(c, st, a.k, st');
        } else {
          MovePullTrails(c, st, a.k, a.sub, st'.jobs[a.k]);
        }
      } else if a.Work? {
        WorkPullTrails(c, st, a.s, a.work, st');
      } else if a.Poll? {
        PollPullTrails(c, st, a.p, a.poll, st');
      }
    }
  }

  lemma PollPullTrails(c: Config, st: State, s: ServerId, a: PollAct, st': State)
    requires PullTrails(c, st) && PollStep(c, st, s, a) == Some(st')
    ensures PullTrails(c, st')
  {
    if !c.mode.Push? {
      assert HandTrail(|st.servers|, st.jobs, s, st.servers[s].worker);
    }
  }
}
