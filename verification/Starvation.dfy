/** The fair-share bound on runs of the machine. */
module Starvation {
  import opened Wrappers
  import opened Selection
  import opened Machine
  import opened Conservation
  import opened Order
  import opened Attempts
  import FairShare

  /** The model and streak a server has, counting a popped job as dispatched. */
  function ModelNow(jobs: seq<JobRec>, sv: Srv): string {
    if sv.worker.Holding? then ModelOf(jobs, sv.worker.job) else sv.current
  }

  function StreakNow(jobs: seq<JobRec>, sv: Srv): nat {
    if !sv.worker.Holding? then sv.streak
    else if sv.lastDispatched == ModelOf(jobs, sv.worker.job) then sv.streak + 1
    else 1
  }

  function ViewNow(st: State, s: ServerId): View
    requires s < |st.servers|
  {
    View(s, ModelNow(st.jobs, st.servers[s]), st.servers[s].models)
  }

  function Limit(c: Config): nat {
    if c.mode.FairShare? && c.mode.limit > 0 then c.mode.limit else 0
  }

  /** Job `k` is in the pool and server `s`, healthy and with its present model list, may take it. */
  predicate Eligible(st: State, s: ServerId, k: JobId) {
    && k < |st.jobs| && k in st.pool && !st.stopping
    && CandidateAt(st.servers, s, st.jobs[k].model, st.jobs[k].visited)
  }

  /** Eligible before and after, with the same model list. */
  predicate Steady(st: State, st': State, s: ServerId, k: JobId) {
    Eligible(st, s, k) && Eligible(st', s, k) && st'.servers[s].models == st.servers[s].models
  }

  /** The worker took its view before the model list last changed. */
  predicate Stale(sv: Srv) {
    sv.worker.Looking? && sv.worker.view.allowed != sv.models
  }

  function Position(st: State, k: JobId): nat
    requires k in st.pool
    ensures Position(st, k) < |st.pool| && st.pool[Position(st, k)] == k
  {
    IndexOf(st.pool, k).value
  }

  /** The jobs ahead of `k` that `s` may take. */
  function JobsAhead(st: State, s: ServerId, k: JobId): nat
    requires s < |st.servers| && k in st.pool
  {
    FairShare.Ahead(Entries(st.jobs, st.pool), ViewNow(st, s), Position(st, k))
  }

  function Level(c: Config, st: State, s: ServerId, k: JobId): nat
    requires s < |st.servers| && k in st.pool
  {
    FairShare.Potential(Entries(st.jobs, st.pool), ViewNow(st, s), Position(st, k), StreakNow(st.jobs, st.servers[s]), Limit(c))
  }

  lemma PositionIs(ids: seq<JobId>, k: JobId, i: nat)
    requires i < |ids| && ids[i] == k && forall x | 0 <= x < i :: ids[x] != k
    ensures IndexOf(ids, k) == Some(i)
  {
  }

  lemma SameEntries(jobs: seq<JobRec>, jobs': seq<JobRec>, ids: seq<JobId>)
    requires forall x | 0 <= x < |ids| :: EntryOf(jobs, ids[x]) == EntryOf(jobs', ids[x])
    ensures Entries(jobs, ids) == Entries(jobs', ids)
  {
  }

  lemma EntriesWithout(jobs: seq<JobRec>, ids: seq<JobId>, x: nat)
    requires x < |ids|
    ensures Entries(jobs, Without(ids, x)) == Without(Entries(jobs, ids), x)
  {
  }

  lemma EntriesAppend(jobs: seq<JobRec>, ids: seq<JobId>, k: JobId)
    ensures Entries(jobs, ids + [k]) == Entries(jobs, ids) + [EntryOf(jobs, k)]
  {
  }

  /** Neither the jobs ahead nor the level have grown. */
  predicate NoWorse(c: Config, st: State, st': State, s: ServerId, k: JobId) {
    && s < |st.servers| && s < |st'.servers| && k in st.pool && k in st'.pool
    && JobsAhead(st', s, k) <= JobsAhead(st, s, k) && Level(c, st', s, k) <= Level(c, st, s, k)
    && (Stale(st'.servers[s]) <==> Stale(st.servers[s]))
  }

  // ---------------------------------------------------------------- steps that leave the pool

  /** Nothing the level depends on has changed. */
  predicate Undisturbed(st: State, st': State, s: ServerId) {
    && s < |st.servers| && s < |st'.servers| && st'.pool == st.pool
    && ViewNow(st', s) == ViewNow(st, s) && StreakNow(st'.jobs, st'.servers[s]) == StreakNow(st.jobs, st.servers[s])
    && Entries(st'.jobs, st'.pool) == Entries(st.jobs, st.pool)
    && (Stale(st'.servers[s]) <==> Stale(st.servers[s]))
  }

  lemma UndisturbedLevel(c: Config, st: State, st': State, s: ServerId, k: JobId)
    requires Undisturbed(st, st', s) && k in st.pool
    ensures NoWorse(c, st, st', s, k)
  {
  }

  /** A call whose job is in line changes neither its model nor its exclusion. */
  lemma JobMoveKeepsEntry(c: Config, ss: seq<Srv>, now: Nanos, j: JobRec, a: SubmitAct, j': JobRec)
    requires JobMove(c, ss, now, j, a) == Some(j') && Out(j.pc) && j.slot.None?
    ensures j'.visited == j.visited && j'.model == j.model
  {
  }

  lemma MoveUndisturbed(c: Config, st: State, x: JobId, a: SubmitAct, j': JobRec, s: ServerId)
    requires Balanced(st) && x < |st.jobs| && s < |st.servers| && JobMove(c, st.servers, st.now, st.jobs[x], a) == Some(j')
    ensures Undisturbed(st, PutJob(st, x, j'), s)
  {
    JobMoveKeepsLog(c, st.servers, st.now, st.jobs[x], a, j');
    CountIsMember(st.pool, x);
    if x in st.pool {
      PooledAlone(st, x);
      JobMoveKeepsEntry(c, st.servers, st.now, st.jobs[x], a, j');
    }
    SameEntries(st.jobs, PutJob(st, x, j').jobs, st.pool);
  }

  lemma NudgeUndisturbed(st: State, x: JobId, st': State, s: ServerId)
    requires x < |st.jobs| && s < |st.servers| && NudgeStep(st, x) == Some(st')
    ensures Undisturbed(st, st', s)
  {
    SameEntries(st.jobs, st'.jobs, st.pool);
  }

  /** A worker's step other than a pop. */
  lemma WorkUndisturbed(c: Config, st: State, t: ServerId, a: WorkAct, st': State, s: ServerId)
    requires !c.mode.Push? && Orderly(c, st) && !st.stopping && WorkStep(c, st, t, a) == Some(st') && !a.Pop? && s < |st.servers|
    ensures Undisturbed(st, st', s)
  {
    WorkSameCalls(c, st, t, a, st');
    assert SrvOrderly(c, st.stopping, st.servers[t], t);
    WorkKeepsPool(c, st, t, a, st');
    SameEntries(st.jobs, st'.jobs, st.pool);
    SameModelNow(c, st, t, a, st');
  }

  lemma WorkKeepsPool(c: Config, st: State, t: ServerId, a: WorkAct, st': State)
    requires t < |st.servers| && SrvOrderly(c, st.stopping, st.servers[t], t)
    requires !st.stopping && WorkStep(c, st, t, a) == Some(st') && !a.Pop?
    ensures st'.pool == st.pool && OnlyServer(st, t, st')
  {
  }

  lemma MoveSameModel(c: Config, jobs: seq<JobRec>, stopping: bool, sv: Srv, s: ServerId, a: WorkAct, sv': Srv)
    requires !c.mode.Push? && SrvMove(c, jobs, stopping, sv, s, a) == Some(sv')
    ensures ModelNow(jobs, sv') == ModelNow(jobs, sv) && StreakNow(jobs, sv') == StreakNow(jobs, sv)
    ensures sv'.models == sv.models && (Stale(sv') <==> Stale(sv))
  {
  }

  lemma SameModelNow(c: Config, st: State, t: ServerId, a: WorkAct, st': State)
    requires !c.mode.Push? && WorkStep(c, st, t, a) == Some(st') && !a.Pop?
    requires |st'.jobs| == |st.jobs| && forall k: JobId | k < |st.jobs| :: SameCall(st.jobs[k], st'.jobs[k])
    ensures ModelNow(st'.jobs, st'.servers[t]) == ModelNow(st.jobs, st.servers[t])
    ensures StreakNow(st'.jobs, st'.servers[t]) == StreakNow(st.jobs, st.servers[t])
    ensures st'.servers[t].models == st.servers[t].models
    ensures Stale(st'.servers[t]) <==> Stale(st.servers[t])
  {
    if !a.Begin? && !a.Finish? && !a.Deliver? && !a.DrainPool? {
      MoveSameModel(c, st.jobs, st.stopping, st.servers[t], t, a, st'.servers[t]);
    }
  }

  lemma PollUndisturbed(c: Config, st: State, t: ServerId, a: PollAct, st': State, s: ServerId)
    requires PollStep(c, st, t, a) == Some(st') && s < |st.servers| && st'.servers[s].models == st.servers[s].models
    ensures Undisturbed(st, st', s)
  {
    SameEntries(st.jobs, st'.jobs, st.pool);
  }

  // ---------------------------------------------------------------- steps that change the pool

  lemma StreakPositive(c: Config, st: State, s: ServerId)
    requires !c.mode.Push? && Orderly(c, st) && s < |st.servers|
    ensures ModelNow(st.jobs, st.servers[s]) != NO_MODEL ==> StreakNow(st.jobs, st.servers[s]) > 0
  {
    assert SrvOrderly(c, st.stopping, st.servers[s], s);
  }

  lemma ArrivalShape(c: Config, st: State, x: JobId, st': State, s: ServerId, k: JobId)
    requires !c.mode.Push? && Orderly(c, st) && s < |st.servers| && k in st.pool
    requires x < |st.jobs| && PlaceStep(st, x) == Some(st')
    ensures st'.servers == st.servers && st'.pool == st.pool + [x]
    ensures Entries(st'.jobs, st'.pool) == Entries(st.jobs, st.pool) + [EntryOf(st'.jobs, x)]
    ensures ViewNow(st', s) == ViewNow(st, s) && StreakNow(st'.jobs, st'.servers[s]) == StreakNow(st.jobs, st.servers[s])
  {
    assert JobOrderly(c, |st.servers|, st.jobs[x]);
    SameEntries(st.jobs, st'.jobs, st.pool);
    EntriesAppend(st'.jobs, st.pool, x);
  }

  lemma ArrivalLevel(c: Config, st: State, x: JobId, st': State, s: ServerId, k: JobId)
    requires !c.mode.Push? && Orderly(c, st) && s < |st.servers| && k in st.pool
    requires x < |st.jobs| && PlaceStep(st, x) == Some(st')
    ensures NoWorse(c, st, st', s, k)
  {
    var es, e, i := Entries(st.jobs, st.pool), EntryOf(st'.jobs, x), Position(st, k);
    ArrivalShape(c, st, x, st', s, k);
    PositionIs(st'.pool, k, i);
    FairShare.OthersArrive(es, e, ViewNow(st, s), i, StreakNow(st.jobs, st.servers[s]), Limit(c));
    FairShare.AheadAgrees(es, es + [e], ViewNow(st, s), ViewNow(st, s), i);
  }

  /** Where `k` is, and what the rule sees, after job `st.pool[x]` has left. */
  lemma Removal(st: State, x: nat, st': State, k: JobId)
    requires Balanced(st) && x < |st.pool| && st'.pool == Without(st.pool, x) && k in st.pool && k in st'.pool
    requires Entries(st'.jobs, st.pool) == Entries(st.jobs, st.pool)
    ensures Position(st, k) != x && Position(st', k) == FairShare.Shift(Position(st, k), x)
    ensures Entries(st'.jobs, st'.pool) == Without(Entries(st.jobs, st.pool), x)
  {
    RemovedIsAnother(st, x, k);
    EntriesWithout(st'.jobs, st.pool, x);
    PositionIs(st'.pool, k, FairShare.Shift(Position(st, k), x));
  }

  lemma RemovedIsAnother(st: State, x: nat, k: JobId)
    requires Balanced(st) && x < |st.pool| && k in st.pool && k in Without(st.pool, x)
    ensures st.pool[x] != k
  {
    CountIsMember(st.pool, k);
    CountIsMember(Without(st.pool, x), k);
    PooledAlone(st, k);
    CountWithout(st.pool, x, k);
  }

  /** Job `st.pool[x]` leaves the pool for somebody else. */
  lemma RemovalLevel(c: Config, st: State, x: nat, st': State, s: ServerId, k: JobId)
    requires !c.mode.Push? && Balanced(st) && Orderly(c, st) && s < |st.servers| && s < |st'.servers|
    requires x < |st.pool| && st'.pool == Without(st.pool, x) && k in st.pool && k in st'.pool
    requires Entries(st'.jobs, st.pool) == Entries(st.jobs, st.pool)
    requires ViewNow(st', s) == ViewNow(st, s) && StreakNow(st'.jobs, st'.servers[s]) == StreakNow(st.jobs, st.servers[s])
    ensures JobsAhead(st', s, k) <= JobsAhead(st, s, k) && Level(c, st', s, k) <= Level(c, st, s, k)
  {
    Removal(st, x, st', k);
    StreakPositive(c, st, s);
    FairShare.OthersRemove(Entries(st.jobs, st.pool), ViewNow(st, s), Position(st, k), StreakNow(st.jobs, st.servers[s]), Limit(c), x);
    FairShare.AheadAfter(Entries(st.jobs, st.pool), ViewNow(st, s), ViewNow(st, s), Position(st, k), x);
  }

  lemma WithdrawLevel(c: Config, st: State, x: JobId, st': State, s: ServerId, k: JobId)
    requires !c.mode.Push? && Balanced(st) && Orderly(c, st) && s < |st.servers| && k in st.pool && k in st'.pool
    requires x < |st.jobs| && WithdrawStep(st, x) == Some(st')
    ensures NoWorse(c, st, st', s, k)
  {
    WithdrawShape(c, st, x, st', s);
    var i := IndexOf(st.pool, x);
    if i.Some? {
      RemovalLevel(c, st, i.value, st', s, k);
    }
  }

  lemma WithdrawShape(c: Config, st: State, x: JobId, st': State, s: ServerId)
    requires !c.mode.Push? && Orderly(c, st) && s < |st.servers| && x < |st.jobs| && WithdrawStep(st, x) == Some(st')
    ensures st'.servers == st.servers
    ensures st'.pool == if IndexOf(st.pool, x).Some? then Without(st.pool, IndexOf(st.pool, x).value) else st.pool
    ensures Entries(st'.jobs, st.pool) == Entries(st.jobs, st.pool)
    ensures ViewNow(st', s) == ViewNow(st, s) && StreakNow(st'.jobs, st'.servers[s]) == StreakNow(st.jobs, st.servers[s])
  {
    assert JobOrderly(c, |st.servers|, st.jobs[x]);
    SameEntries(st.jobs, st'.jobs, st.pool);
  }

  lemma OtherPopLevel(c: Config, st: State, t: ServerId, i: Option<nat>, s: ServerId, k: JobId)
    requires !c.mode.Push? && Balanced(st) && Orderly(c, st) && s < |st.servers| && t < |st.servers| && t != s
    requires st.servers[t].worker.Looking? && (i.Some? ==> i.value < |st.pool|)
    requires k in st.pool && k in Took(c, st, t, i).pool
    ensures NoWorse(c, st, Took(c, st, t, i), s, k)
  {
    if i.Some? {
      RemovalLevel(c, st, i.value, Took(c, st, t, i), s, k);
    }
  }

  // ---------------------------------------------------------------- the server's own pop

  lemma OwnChoice(c: Config, st: State, s: ServerId, held: bool, k: JobId)
    requires c.mode.FairShare? && c.mode.limit > 0 && Orderly(c, st) && Eligible(st, s, k)
    requires st.servers[s].worker.Looking? && !Stale(st.servers[s])
    ensures Choice(c, st, s, held) == FairShare.FairShareIndexOf(Entries(st.jobs, st.pool), ViewNow(st, s),
                                                          StreakNow(st.jobs, st.servers[s]), Limit(c))
    ensures Takeable(Entries(st.jobs, st.pool)[Position(st, k)], ViewNow(st, s))
    ensures NO_MODEL !in ViewNow(st, s).allowed
  {
    assert SrvOrderly(c, st.stopping, st.servers[s], s);
    assert Entries(st.jobs, st.pool)[Position(st, k)] == EntryOf(st.jobs, k);
  }

  lemma TookView(c: Config, st: State, s: ServerId, x: nat)
    requires !c.mode.Push? && Orderly(c, st) && s < |st.servers| && st.servers[s].worker.Looking? && x < |st.pool|
    ensures var model := Entries(st.jobs, st.pool)[x].model;
            && ViewNow(Took(c, st, s, Some(x)), s) == ViewNow(st, s).(current := model)
            && StreakNow(st.jobs, Took(c, st, s, Some(x)).servers[s])
               == FairShare.NextStreak(ViewNow(st, s), StreakNow(st.jobs, st.servers[s]), model)
  {
    assert SrvOrderly(c, st.stopping, st.servers[s], s);
  }

  lemma OwnPopLevel(c: Config, st: State, s: ServerId, held: bool, k: JobId)
    requires c.mode.FairShare? && c.mode.limit > 0 && Balanced(st) && Orderly(c, st) && Eligible(st, s, k)
    requires st.servers[s].worker.Looking? && !Stale(st.servers[s]) && k in Took(c, st, s, Choice(c, st, s, held)).pool
    ensures Level(c, Took(c, st, s, Choice(c, st, s, held)), s, k) < Level(c, st, s, k)
  {
    OwnChoice(c, st, s, held, k);
    StreakPositive(c, st, s);
    FairShare.OwnPopPays(Entries(st.jobs, st.pool), ViewNow(st, s), Position(st, k), StreakNow(st.jobs, st.servers[s]), Limit(c));
    var x := Choice(c, st, s, held).value;
    Removal(st, x, Took(c, st, s, Some(x)), k);
    TookView(c, st, s, x);
  }

  // ---------------------------------------------------------------- runs

  /** How many more pops `s` can make while `k` stays; a stale view costs one. */
  function Budget(c: Config, st: State, s: ServerId, k: JobId): nat
    requires s < |st.servers| && k in st.pool
  {
    if Stale(st.servers[s]) then (JobsAhead(st, s, k) + 1) * (Limit(c) + 1) + 1 else Level(c, st, s, k)
  }

  lemma LevelBound(c: Config, st: State, s: ServerId, k: JobId)
    requires !c.mode.Push? && Orderly(c, st) && s < |st.servers| && k in st.pool
    ensures 1 <= Level(c, st, s, k) <= (JobsAhead(st, s, k) + 1) * (Limit(c) + 1)
  {
    StreakPositive(c, st, s);
    FairShare.DelayBound(Entries(st.jobs, st.pool), ViewNow(st, s), Position(st, k), StreakNow(st.jobs, st.servers[s]), Limit(c));
  }

  lemma Grows(a: nat, b: nat, n: nat)
    requires a <= b
    ensures (a + 1) * (n + 1) <= (b + 1) * (n + 1)
  {
  }

  lemma NoWorseBudget(c: Config, st: State, st': State, s: ServerId, k: JobId)
    requires NoWorse(c, st, st', s, k)
    ensures Budget(c, st', s, k) <= Budget(c, st, s, k)
  {
    Grows(JobsAhead(st', s, k), JobsAhead(st, s, k), Limit(c));
  }

  lemma StalePopAhead(c: Config, st: State, s: ServerId, held: bool, k: JobId, st': State)
    requires !c.mode.Push? && Balanced(st) && Orderly(c, st) && s < |st.servers|
    requires PopStep(c, st, s, held) == Some(st') && k in st.pool && k in st'.pool
    ensures JobsAhead(st', s, k) <= JobsAhead(st, s, k) && !Stale(st'.servers[s])
  {
    var i := Choice(c, st, s, held);
    if i.Some? {
      Removal(st, i.value, st', k);
      TookView(c, st, s, i.value);
      FairShare.AheadAfter(Entries(st.jobs, st.pool), ViewNow(st, s), ViewNow(st', s), Position(st, k), i.value);
    }
  }

  /** A pop by a stale view takes anything, but puts nothing ahead of `k`. */
  lemma StalePopBudget(c: Config, st: State, s: ServerId, held: bool, k: JobId, st': State)
    requires !c.mode.Push? && Balanced(st) && Orderly(c, st) && Orderly(c, st') && s < |st.servers| && Stale(st.servers[s])
    requires PopStep(c, st, s, held) == Some(st') && k in st.pool && k in st'.pool
    ensures Budget(c, st', s, k) < Budget(c, st, s, k)
  {
    StalePopAhead(c, st, s, held, k, st');
    LevelBound(c, st', s, k);
    Grows(JobsAhead(st', s, k), JobsAhead(st, s, k), Limit(c));
  }

  lemma SubmitBudget(c: Config, st: State, x: JobId, a: SubmitAct, st': State, s: ServerId, k: JobId)
    requires !c.mode.Push? && Safe(c, st) && Steady(st, st', s, k) && SubmitStep(c, st, x, a) == Some(st')
    ensures Budget(c, st', s, k) <= Budget(c, st, s, k)
  {
    if a.Place? {
      ArrivalLevel(c, st, x, st', s, k);
    } else if a.Withdraw? {
      WithdrawLevel(c, st, x, st', s, k);
    } else if a.Nudge? {
      NudgeUndisturbed(st, x, st', s);
      UndisturbedLevel(c, st, st', s, k);
    } else {
      MoveUndisturbed(c, st, x, a, st'.jobs[x], s);
      UndisturbedLevel(c, st, st', s, k);
    }
    NoWorseBudget(c, st, st', s, k);
  }

  lemma WorkBudget(c: Config, st: State, t: ServerId, a: WorkAct, st': State, s: ServerId, k: JobId)
    requires c.mode.FairShare? && c.mode.limit > 0 && Safe(c, st) && Safe(c, st') && Steady(st, st', s, k)
    requires WorkStep(c, st, t, a) == Some(st')
    ensures Budget(c, st', s, k) + (if t == s && a.Pop? then 1 else 0) <= Budget(c, st, s, k)
  {
    if !a.Pop? {
      WorkUndisturbed(c, st, t, a, st', s);
      UndisturbedLevel(c, st, st', s, k);
      NoWorseBudget(c, st, st', s, k);
    } else if t != s {
      OtherPopLevel(c, st, t, Choice(c, st, t, a.held), s, k);
      NoWorseBudget(c, st, st', s, k);
    } else if Stale(st.servers[s]) {
      StalePopBudget(c, st, s, a.held, k, st');
    } else {
      OwnPopLevel(c, st, s, a.held, k);
    }
  }

  function PopBy(a: Action, s: ServerId): nat {
    if a.Work? && a.s == s && a.work.Pop? then 1 else 0
  }

  lemma BudgetStep(c: Config, st: State, a: Action, st': State, s: ServerId, k: JobId)
    requires c.mode.FairShare? && c.mode.limit > 0 && Safe(c, st) && Safe(c, st') && Steady(st, st', s, k)
    requires Step(c, st, a) == Some(st')
    ensures Budget(c, st', s, k) + PopBy(a, s) <= Budget(c, st, s, k)
  {
    if a.Sub? {
      SubmitBudget(c, st, a.k, a.sub, st', s, k);
    } else if a.Work? {
      WorkBudget(c, st, a.s, a.work, st', s, k);
    } else {
      if a.Poll? { PollUndisturbed(c, st, a.p, a.poll, st', s); }
      assert Undisturbed(st, st', s);
      UndisturbedLevel(c, st, st', s, k);
      NoWorseBudget(c, st, st', s, k);
    }
  }

  function PopsBy(acts: seq<Action>, s: ServerId): nat {
    if acts == [] then 0 else PopsBy(acts[..|acts| - 1], s) + PopBy(acts[|acts| - 1], s)
  }

  /** After every prefix of the run `k` is still in the pool and `s` may take it, with the same model list. */
  predicate Kept(c: Config, st: State, acts: seq<Action>, s: ServerId, k: JobId)
    requires s < |st.servers|
    decreases |acts|
  {
    && After(c, st, acts).Some? && Eligible(After(c, st, acts).value, s, k)
    && After(c, st, acts).value.servers[s].models == st.servers[s].models
    && (acts != [] ==> Kept(c, st, acts[..|acts| - 1], s, k))
  }

  lemma {:induction false} BudgetSpent(c: Config, st: State, acts: seq<Action>, s: ServerId, k: JobId)
    requires c.mode.FairShare? && c.mode.limit > 0 && Safe(c, st) && s < |st.servers| && k in st.pool && Kept(c, st, acts, s, k)
    ensures Safe(c, After(c, st, acts).value)
    ensures Budget(c, After(c, st, acts).value, s, k) + PopsBy(acts, s) <= Budget(c, st, s, k)
    decreases |acts|
  {
    if acts != [] {
      var rest, a := acts[..|acts| - 1], acts[|acts| - 1];
      BudgetSpent(c, st, rest, s, k);
      var mid, last := After(c, st, rest).value, After(c, st, acts).value;
      SafeStep(c, mid, a, last);
      BudgetStep(c, mid, a, last, s, k);
    }
  }

  /** (a+1)*(N+1). */
  function FairBound(c: Config, st: State, s: ServerId, k: JobId): nat
    requires s < |st.servers| && k in st.pool
  {
    (JobsAhead(st, s, k) + 1) * (Limit(c) + 1)
  }

  lemma BudgetBound(c: Config, st: State, s: ServerId, k: JobId)
    requires !c.mode.Push? && Orderly(c, st) && s < |st.servers| && k in st.pool
    ensures Budget(c, st, s, k) <= FairBound(c, st, s, k) + if Stale(st.servers[s]) then 1 else 0
  {
    LevelBound(c, st, s, k);
  }

  lemma PopsBounded(c: Config, st: State, acts: seq<Action>, s: ServerId, k: JobId)
    requires c.mode.FairShare? && c.mode.limit > 0 && Safe(c, st)
    requires s < |st.servers| && k in st.pool && Kept(c, st, acts, s, k)
    ensures PopsBy(acts, s) < FairBound(c, st, s, k) + if Stale(st.servers[s]) then 1 else 0
  {
    BudgetSpent(c, st, acts, s, k);
    BudgetBound(c, st, s, k);
    BudgetPositive(c, After(c, st, acts).value, s, k);
  }

  lemma BudgetPositive(c: Config, st: State, s: ServerId, k: JobId)
    requires !c.mode.Push? && Orderly(c, st) && s < |st.servers| && k in st.pool
    ensures Budget(c, st, s, k) >= 1
  {
    LevelBound(c, st, s, k);
  }

  /**
   The starvation bound: from any reachable state on, server `s` pops at most (a+1)*(N+1) times while a
   job it may take stays in the pool, whoever else pops, cancels or submits.
   */
  lemma StarvationBound(c: Config, st: State, acts: seq<Action>, s: ServerId, k: JobId)
    requires c.mode.FairShare? && c.mode.limit > 0 && Reachable(c, st)
    requires s < |st.servers| && k in st.pool && Kept(c, st, acts, s, k)
    ensures PopsBy(acts, s) <= (JobsAhead(st, s, k) + 1) * (c.mode.limit + 1)
    ensures !Stale(st.servers[s]) ==> PopsBy(acts, s) < (JobsAhead(st, s, k) + 1) * (c.mode.limit + 1)
  {
    SafeReachable(c, st);
    PopsBounded(c, st, acts, s, k);
  }
}
