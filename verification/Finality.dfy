/** INV-6: a job that succeeded, or whose response had started, is never run again. */
module Finality {
  import opened Wrappers
  import opened Selection
  import opened Machine
  import opened Conservation
  import opened Order
  import opened Attempts

  /** The worker carries the final result of job `k`. */
  predicate CarriesFinal(w: Worker, k: JobId) {
    (w.Crashing? || w.Failing? || w.Sending?) && w.job == k && IsFinal(w.res)
  }

  predicate FinalOf(jobs: seq<JobRec>, k: JobId) {
    k < |jobs| && jobs[k].log.final
  }

  /** A final job is not waiting to run; its slot holds a final result, and its call is over or about to be. */
  predicate JobFinal(j: JobRec) {
    && (j.log.final ==> Out(j.pc) || j.pc.Returned?)
    && (j.log.final && j.slot.Some? ==> IsFinal(j.slot.value))
    && (j.log.wrote ==> j.log.final || j.log.leaked)
  }

  ghost predicate FinalKept(st: State) {
    && (forall k: JobId | k < |st.jobs| :: JobFinal(st.jobs[k]))
    && (forall k: JobId | FinalOf(st.jobs, k) :: Count(st.pool, k) == 0)
    && (forall s: ServerId, k: JobId | At(st, s, k) :: FinalOf(st.jobs, k) ==> CarriesFinal(st.servers[s].worker, k))
  }

  lemma JobMoveFinal(c: Config, ss: seq<Srv>, now: Nanos, j: JobRec, a: SubmitAct, j': JobRec)
    requires JobMove(c, ss, now, j, a) == Some(j') && JobFinal(j)
    ensures JobFinal(j')
  {
    JobMoveKeepsLog(c, ss, now, j, a, j');
    if j.log.final {
      if a.Receive? { FinalSettles(c, j, j'); } else { FinalMoves(c, ss, now, j, a, j'); }
    } else {
      FinalUntouched(j, j');
    }
  }

  lemma FinalUntouched(j: JobRec, j': JobRec)
    requires SameRuns(j, j') && JobFinal(j) && !j.log.final
    ensures JobFinal(j')
  {
  }

  lemma FinalSettles(c: Config, j: JobRec, j': JobRec)
    requires j.log.final && JobFinal(j) && SameRuns(j, j') && (j.pc.Waiting? || j.pc.Forced?) && j.slot.Some?
    requires j' == if j.pc.to.Some? then AfterPush(c, j, j.pc.to.value, j.slot.value)
                   else if j.pc.Forced? then j.(slot := None, pc := Returned(Cancelled))
                   else AfterPull(c, j, j.slot.value)
    ensures JobFinal(j')
  {
  }

  lemma FinalMoves(c: Config, ss: seq<Srv>, now: Nanos, j: JobRec, a: SubmitAct, j': JobRec)
    requires JobMove(c, ss, now, j, a) == Some(j') && JobFinal(j) && j.log.final && !a.Receive? && SameRuns(j, j')
    ensures JobFinal(j')
  {
  }

  /** A step of the call that leaves the lines alone. */
  lemma MoveFinal(c: Config, st: State, k: JobId, a: SubmitAct, j': JobRec)
    requires FinalKept(st) && k < |st.jobs| && JobMove(c, st.servers, st.now, st.jobs[k], a) == Some(j')
    ensures FinalKept(PutJob(st, k, j'))
  {
    assert JobFinal(st.jobs[k]);
    JobMoveFinal(c, st.servers, st.now, st.jobs[k], a, j');
    JobMoveKeepsLog(c, st.servers, st.now, st.jobs[k], a, j');
    var st' := PutJob(st, k, j');
    forall s: ServerId, x: JobId | At(st', s, x) ensures FinalOf(st'.jobs, x) ==> CarriesFinal(st'.servers[s].worker, x) {
      assert At(st, s, x);
    }
    forall x: JobId | FinalOf(st'.jobs, x) ensures Count(st'.pool, x) == 0 { assert FinalOf(st.jobs, x); }
  }

  lemma PlaceFinal(st: State, k: JobId, st': State)
    requires FinalKept(st) && k < |st.jobs| && PlaceStep(st, k) == Some(st')
    ensures FinalKept(st')
  {
    assert JobFinal(st.jobs[k]);
    assert JobFinal(st'.jobs[k]);
    var to := st.jobs[k].pc.to;
    forall s: ServerId, x: JobId | At(st', s, x) ensures FinalOf(st'.jobs, x) ==> CarriesFinal(st'.servers[s].worker, x) {
      if to.Some? { CountConcat(st.servers[to.value].queue, [k], x); }
      assert x != k ==> At(st, s, x);
    }
    forall x: JobId | FinalOf(st'.jobs, x) ensures Count(st'.pool, x) == 0 {
      assert FinalOf(st.jobs, x);
      CountConcat(st.pool, [k], x);
    }
  }

  /** Who is somewhere after a withdrawal was there before. */
  lemma WithdrawHolds(st: State, k: JobId, st': State, s: ServerId, x: JobId)
    requires k < |st.jobs| && WithdrawStep(st, k) == Some(st')
    ensures At(st', s, x) ==> At(st, s, x) && st'.servers[s].worker == st.servers[s].worker
    ensures Count(st'.pool, x) <= Count(st.pool, x) && FinalOf(st'.jobs, x) == FinalOf(st.jobs, x)
  {
    var to := st.jobs[k].pc.to;
    var line := if to.None? then st.pool else st.servers[to.value].queue;
    var i := IndexOf(line, k);
    if i.Some? { CountWithout(line, i.value, x); }
  }

  lemma WithdrawFinal(st: State, k: JobId, st': State)
    requires FinalKept(st) && k < |st.jobs| && WithdrawStep(st, k) == Some(st')
    ensures FinalKept(st')
  {
    assert JobFinal(st.jobs[k]) && JobFinal(st'.jobs[k]);
    forall s: ServerId, x: JobId | At(st', s, x) ensures FinalOf(st'.jobs, x) ==> CarriesFinal(st'.servers[s].worker, x) {
      WithdrawHolds(st, k, st', s, x);
    }
    forall x: JobId | FinalOf(st'.jobs, x) ensures Count(st'.pool, x) == 0 {
      WithdrawHolds(st, k, st', 0, x);
    }
  }

  lemma NudgeFinal(st: State, k: JobId, st': State)
    requires FinalKept(st) && k < |st.jobs| && NudgeStep(st, k) == Some(st')
    ensures FinalKept(st')
  {
    assert JobFinal(st.jobs[k]);
    forall s: ServerId, x: JobId | At(st', s, x) ensures FinalOf(st'.jobs, x) ==> CarriesFinal(st'.servers[s].worker, x) {
      assert At(st, s, x);
    }
    forall x: JobId | FinalOf(st'.jobs, x) ensures Count(st'.pool, x) == 0 { assert FinalOf(st.jobs, x); }
  }

  // ---------------------------------------------------------------- workers

  lemma SrvMoveFinal(c: Config, st: State, s: ServerId, a: WorkAct, sv: Srv)
    requires FinalKept(st) && s < |st.servers| && SrvMove(c, st.jobs, st.stopping, st.servers[s], s, a) == Some(sv)
    ensures FinalKept(PutSrv(st, s, sv))
  {
    var st' := PutSrv(st, s, sv);
    forall t: ServerId, x: JobId | At(st', t, x) ensures FinalOf(st'.jobs, x) ==> CarriesFinal(st'.servers[t].worker, x) {
      SrvMoveLocal(c, st.jobs, st.stopping, st.servers[s], s, a, sv, x);
      assert At(st, t, x);
    }
  }

  lemma TookFinal(c: Config, st: State, s: ServerId, i: Option<nat>)
    requires FinalKept(st) && s < |st.servers| && st.servers[s].worker.Looking? && (i.Some? ==> i.value < |Line(c, st, s)|)
    ensures FinalKept(Took(c, st, s, i))
  {
    var st' := Took(c, st, s, i);
    forall t: ServerId, x: JobId | At(st', t, x) ensures FinalOf(st'.jobs, x) ==> CarriesFinal(st'.servers[t].worker, x) {
      TookLocal(c, st, s, i, x);
      if FinalOf(st.jobs, x) {
        assert Count(st.pool, x) == 0;
        assert At(st, t, x);
      }
    }
    forall x: JobId | FinalOf(st'.jobs, x) ensures Count(st'.pool, x) == 0 {
      assert FinalOf(st.jobs, x);
      TookLocal(c, st, s, i, x);
      if i.Some? { CountWithout(Line(c, st, s), i.value, x); }
    }
  }

  lemma BeginFinal(c: Config, st: State, s: ServerId, st': State)
    requires FinalKept(st) && s < |st.servers| && BeginStep(c, st, s) == Some(st')
    ensures FinalKept(st') && !FinalOf(st.jobs, st.servers[s].worker.job)
  {
    var k := st.servers[s].worker.job;
    assert At(st, s, k);
    assert JobFinal(st.jobs[k]) && JobFinal(st'.jobs[k]);
    forall t: ServerId, x: JobId | At(st', t, x) ensures FinalOf(st'.jobs, x) ==> CarriesFinal(st'.servers[t].worker, x) {
      assert At(st, t, x);
    }
    forall x: JobId | FinalOf(st'.jobs, x) ensures Count(st'.pool, x) == 0 { assert FinalOf(st.jobs, x); }
  }

  lemma FinishFinal(st: State, s: ServerId, out: Outcome, st': State)
    requires Balanced(st) && FinalKept(st) && s < |st.servers| && FinishStep(st, s, out) == Some(st')
    ensures FinalKept(st')
  {
    var k := st.servers[s].worker.job;
    assert At(st, s, k);
    HeldAlone(st, s, k);
    assert JobFinal(st.jobs[k]) && !FinalOf(st.jobs, k);
    assert JobFinal(st'.jobs[k]);
    forall t: ServerId, x: JobId | At(st', t, x) ensures FinalOf(st'.jobs, x) ==> CarriesFinal(st'.servers[t].worker, x) {
      assert At(st, t, x);
      if x != k { assert FinalOf(st'.jobs, x) == FinalOf(st.jobs, x); }
    }
    forall x: JobId | FinalOf(st'.jobs, x) ensures Count(st'.pool, x) == 0 {
      if x != k { assert FinalOf(st.jobs, x); }
    }
  }

  lemma DeliverFinal(st: State, s: ServerId, st': State)
    requires Balanced(st) && FinalKept(st) && s < |st.servers| && DeliverStep(st, s) == Some(st')
    ensures FinalKept(st')
  {
    var p := NextParcel(st.servers[s].worker, s).value;
    assert At(st, s, p.job);
    HeldAlone(st, s, p.job);
    assert JobFinal(st.jobs[p.job]);
    assert FinalOf(st.jobs, p.job) ==> CarriesFinal(st.servers[s].worker, p.job);
    assert JobFinal(st'.jobs[p.job]);
    forall t: ServerId, x: JobId | At(st', t, x) ensures FinalOf(st'.jobs, x) ==> CarriesFinal(st'.servers[t].worker, x) {
      DeliverKeepsPcs(st, s, st', t, x);
      assert At(st, t, x);
      assert FinalOf(st'.jobs, x) == FinalOf(st.jobs, x);
      if t == s && FinalOf(st.jobs, x) { HeldAlone(st, s, x); }
    }
    forall x: JobId | FinalOf(st'.jobs, x) ensures Count(st'.pool, x) == 0 { assert FinalOf(st.jobs, x); }
  }

  lemma DrainPoolFinal(c: Config, st: State, s: ServerId, st': State)
    requires FinalKept(st) && s < |st.servers| && DrainPoolStep(c, st, s) == Some(st')
    ensures FinalKept(st')
  {
    forall t: ServerId, x: JobId | At(st', t, x) ensures FinalOf(st'.jobs, x) ==> CarriesFinal(st'.servers[t].worker, x) {
      if FinalOf(st.jobs, x) {
        assert Count(st.pool, x) == 0;
        assert At(st, t, x);
      }
    }
  }

  lemma FinalStep(c: Config, st: State, a: Action, st': State)
    requires Balanced(st) && FinalKept(st) && Step(c, st, a) == Some(st')
    ensures FinalKept(st')
  {
    if a.Sub? {
      if a.sub.Place? {
        PlaceFinal(st, a.k, st');
      } else if a.sub.Withdraw? {
        WithdrawFinal(st, a.k, st');
      } else if a.sub.Nudge? {
        NudgeFinal(st, a.k, st');
      } else {
        MoveFinal(c, st, a.k, a.sub, st'.jobs[a.k]);
      }
    } else if a.Work? {
      WorkFinal(c, st, a.s, a.work, st');
    } else if a.Poll? {
      PollFinal(c, st, a.p, a.poll, st');
    } else {
      SameFinal(st, st');
    }
  }

  lemma WorkFinal(c: Config, st: State, s: ServerId, a: WorkAct, st': State)
    requires Balanced(st) && FinalKept(st) && WorkStep(c, st, s, a) == Some(st')
    ensures FinalKept(st')
  {
    if a.Pop? {
      TookFinal(c, st, s, Choice(c, st, s, a.held));
    } else if a.Begin? {
      BeginFinal(c, st, s, st');
    } else if a.Finish? {
      FinishFinal(st, s, a.out, st');
    } else if a.Deliver? {
      DeliverFinal(st, s, st');
    } else if a.DrainPool? {
      DrainPoolFinal(c, st, s, st');
    } else {
      SrvMoveFinal(c, st, s, a, st'.servers[s]);
    }
  }

  lemma SameFinal(st: State, st': State)
    requires FinalKept(st) && st'.servers == st.servers && st'.jobs == st.jobs && st'.pool == st.pool
    ensures FinalKept(st')
  {
    forall t: ServerId, x: JobId | At(st', t, x) ensures FinalOf(st'.jobs, x) ==> CarriesFinal(st'.servers[t].worker, x) {
      assert At(st, t, x);
    }
  }

  lemma PollFinal(c: Config, st: State, s: ServerId, a: PollAct, st': State)
    requires FinalKept(st) && PollStep(c, st, s, a) == Some(st')
    ensures FinalKept(st')
  {
    forall t: ServerId, x: JobId | At(st', t, x) ensures FinalOf(st'.jobs, x) ==> CarriesFinal(st'.servers[t].worker, x) {
      assert At(st, t, x);
    }
  }
}
