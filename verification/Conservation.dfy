/**
 No job is lost, and none is in two places: in every reachable state a job whose Submit waits is in
 exactly one of a queue, the pool, a worker's hands, its own result slot; every other job is nowhere.
 */
module Conservation {
  import opened Wrappers
  import opened Selection
  import opened Machine

  // ---------------------------------------------------------------- counting places

  /** `All`: everything in a server's queue or its worker's hands. `Unbegun`: those not yet given to Run. */
  datatype What = All | Unbegun

  function One(j: JobId, k: JobId): nat {
    if j == k then 1 else 0
  }

  function Held(w: Worker, k: JobId): nat {
    match w
    case Holding(j) => One(j, k)
    case Marked(j) => One(j, k)
    case Running(j, _) => One(j, k)
    case Crashing(j, _) => One(j, k)
    case Failing(j, _, rest) => One(j, k) + Count(rest, k)
    case Sending(j, _) => One(j, k)
    case Draining(rest) => Count(rest, k)
    case DrainingPool(rest) => Count(rest, k)
    case _ => 0
  }

  function NotYetRun(w: Worker, k: JobId): nat {
    match w
    case Holding(j) => One(j, k)
    case Marked(j) => One(j, k)
    case _ => 0
  }

  /** How often job `k` occurs at one server. */
  function Part(what: What, sv: Srv, k: JobId): nat {
    Count(sv.queue, k) + if what.All? then Held(sv.worker, k) else NotYetRun(sv.worker, k)
  }

  function Tally(what: What, ss: seq<Srv>, k: JobId): nat {
    if ss == [] then 0 else Part(what, ss[0], k) + Tally(what, ss[1..], k)
  }

  lemma {:induction false} TallyUpdate(what: What, ss: seq<Srv>, s: nat, sv: Srv, k: JobId)
    requires s < |ss|
    ensures Part(what, ss[s], k) <= Tally(what, ss, k)
    ensures Tally(what, ss[s := sv], k) == Tally(what, ss, k) - Part(what, ss[s], k) + Part(what, sv, k)
  {
    if s == 0 {
      assert ss[s := sv][1..] == ss[1..];
    } else {
      assert ss[s := sv][1..] == ss[1..][s - 1 := sv];
      TallyUpdate(what, ss[1..], s - 1, sv, k);
    }
  }

  /** Two servers count separately. */
  lemma TallyOfTwo(what: What, ss: seq<Srv>, s: nat, t: nat, k: JobId)
    requires s < |ss| && t < |ss| && s != t
    ensures Part(what, ss[s], k) + Part(what, ss[t], k) <= Tally(what, ss, k)
  {
    var none := ss[s].(queue := [], worker := Asleep);
    TallyUpdate(what, ss, s, none, k);
    TallyUpdate(what, ss[s := none], t, none, k);
  }

  /** The call has handed its job over and has not had the result. */
  predicate Out(pc: Submitter) {
    pc.Scanning? || pc.Nudging? || pc.Waiting? || pc.Withdrawing? || pc.Forced?
  }

  function Owed(jobs: seq<JobRec>, k: JobId): nat {
    if k < |jobs| && Out(jobs[k].pc) then 1 else 0
  }

  function Delivered(jobs: seq<JobRec>, k: JobId): nat {
    if k < |jobs| && jobs[k].slot.Some? then 1 else 0
  }

  /** How often job `k` is in a queue, in the pool or in a worker's hands. */
  function Places(st: State, k: JobId): nat {
    Tally(All, st.servers, k) + Count(st.pool, k)
  }

  ghost predicate Balanced(st: State) {
    forall k: JobId {:trigger Places(st, k)} {:trigger Owed(st.jobs, k)} :: Places(st, k) + Delivered(st.jobs, k) == Owed(st.jobs, k)
  }

  // ---------------------------------------------------------------- every step keeps the balance

  /** The part of the balance of job `x` that a step at server `s` can touch. */
  function Local(what: What, st: State, s: ServerId, x: JobId): nat {
    (if s < |st.servers| then Part(what, st.servers[s], x) else 0) + Count(st.pool, x)
  }

  predicate OnlyServer(st: State, s: ServerId, st': State) {
    st'.servers == if s < |st.servers| && s < |st'.servers| then st.servers[s := st'.servers[s]] else st.servers
  }

  lemma LocalToGlobal(what: What, st: State, s: ServerId, st': State, x: JobId)
    requires OnlyServer(st, s, st')
    ensures Tally(what, st'.servers, x) + Count(st'.pool, x) + Local(what, st, s, x)
            == Tally(what, st.servers, x) + Count(st.pool, x) + Local(what, st', s, x)
  {
    if s < |st.servers| && s < |st'.servers| {
      TallyUpdate(what, st.servers, s, st'.servers[s], x);
    }
  }

  /** Handing over: what the record says is owed and delivered, for one job. */
  function Due(jobs: seq<JobRec>, x: JobId): int {
    Owed(jobs, x) - Delivered(jobs, x)
  }

  lemma JobMoveKeepsDue(c: Config, ss: seq<Srv>, now: Nanos, j: JobRec, a: SubmitAct, j': JobRec)
    requires JobMove(c, ss, now, j, a) == Some(j')
    requires j.slot.Some? ==> Out(j.pc)
    ensures j'.slot.Some? ==> Out(j'.pc)
    ensures (Out(j.pc) && j.slot.None?) <==> (Out(j'.pc) && j'.slot.None?)
  {
  }

  lemma PlaceLocal(st: State, k: JobId, st': State, x: JobId)
    requires k < |st.jobs| && PlaceStep(st, k) == Some(st') && st.jobs[k].slot.None?
    ensures OnlyServer(st, st.jobs[k].pc.to.GetOr(0), st')
    ensures Local(All, st', st.jobs[k].pc.to.GetOr(0), x) == Local(All, st, st.jobs[k].pc.to.GetOr(0), x) + One(k, x)
    ensures Local(Unbegun, st', st.jobs[k].pc.to.GetOr(0), x) == Local(Unbegun, st, st.jobs[k].pc.to.GetOr(0), x) + One(k, x)
    ensures Due(st'.jobs, x) == Due(st.jobs, x) + One(k, x)
  {
    var to := st.jobs[k].pc.to;
    CountConcat(if to.None? then st.pool else st.servers[to.value].queue, [k], x);
    assert Count([k], x) == One(k, x);
  }

  lemma WithdrawLocal(st: State, k: JobId, st': State, x: JobId)
    requires k < |st.jobs| && WithdrawStep(st, k) == Some(st')
    ensures OnlyServer(st, st.jobs[k].pc.to.GetOr(0), st')
    ensures Local(All, st, st.jobs[k].pc.to.GetOr(0), x) == Local(All, st', st.jobs[k].pc.to.GetOr(0), x)
            + if st'.jobs[k].pc.Returned? then One(k, x) else 0
    ensures Local(Unbegun, st', st.jobs[k].pc.to.GetOr(0), x) <= Local(Unbegun, st, st.jobs[k].pc.to.GetOr(0), x)
  {
    var to := st.jobs[k].pc.to;
    var line := if to.None? then st.pool else st.servers[to.value].queue;
    var i := IndexOf(line, k);
    if i.Some? { CountWithout(line, i.value, x); }
  }

  lemma WithdrawDue(st: State, k: JobId, st': State, x: JobId)
    requires k < |st.jobs| && WithdrawStep(st, k) == Some(st')
    ensures Due(st.jobs, x) == Due(st'.jobs, x) + if st'.jobs[k].pc.Returned? then One(k, x) else 0
  {
  }

  lemma TookLocal(c: Config, st: State, s: ServerId, i: Option<nat>, x: JobId)
    requires s < |st.servers| && st.servers[s].worker.Looking? && (i.Some? ==> i.value < |Line(c, st, s)|)
    ensures OnlyServer(st, s, Took(c, st, s, i)) && Took(c, st, s, i).jobs == st.jobs
    ensures c.mode.Push? ==> Took(c, st, s, i).pool == st.pool
    ensures Local(All, Took(c, st, s, i), s, x) == Local(All, st, s, x)
    ensures Local(Unbegun, Took(c, st, s, i), s, x) == Local(Unbegun, st, s, x)
  {
    if i.Some? { CountWithout(Line(c, st, s), i.value, x); }
  }

  lemma PopLocal(c: Config, st: State, s: ServerId, held: bool, st': State, x: JobId)
    requires s < |st.servers| && PopStep(c, st, s, held) == Some(st')
    ensures OnlyServer(st, s, st') && st'.jobs == st.jobs && (c.mode.Push? ==> st'.pool == st.pool)
    ensures Local(All, st', s, x) == Local(All, st, s, x)
    ensures Local(Unbegun, st', s, x) == Local(Unbegun, st, s, x)
  {
    TookLocal(c, st, s, Choice(c, st, s, held), x);
  }

  lemma SrvMoveLocal(c: Config, jobs: seq<JobRec>, stopping: bool, sv: Srv, s: ServerId, a: WorkAct, sv': Srv, x: JobId)
    requires SrvMove(c, jobs, stopping, sv, s, a) == Some(sv')
    ensures Part(All, sv', x) == Part(All, sv, x)
    ensures Part(Unbegun, sv', x) <= Part(Unbegun, sv, x)
  {
  }

  predicate Undelivered(jobs: seq<JobRec>, k: JobId) {
    k < |jobs| && jobs[k].slot.None?
  }

  lemma DeliverLocal(st: State, s: ServerId, st': State, x: JobId)
    requires s < |st.servers| && DeliverStep(st, s) == Some(st')
    requires Undelivered(st.jobs, NextParcel(st.servers[s].worker, s).value.job)
    ensures OnlyServer(st, s, st')
    ensures Local(All, st', s, x) + One(NextParcel(st.servers[s].worker, s).value.job, x) == Local(All, st, s, x)
    ensures Local(Unbegun, st', s, x) == Local(Unbegun, st, s, x)
    ensures Due(st'.jobs, x) + One(NextParcel(st.servers[s].worker, s).value.job, x) == Due(st.jobs, x)
  {
  }

  lemma BalanceAt(st: State, x: JobId)
    requires Balanced(st)
    ensures Places(st, x) == Due(st.jobs, x)
  {
    assert Places(st, x) + Delivered(st.jobs, x) == Owed(st.jobs, x);
  }

  /** A job somewhere at a server is owed, undelivered, and nowhere else. */
  lemma HeldAlone(st: State, s: ServerId, k: JobId)
    requires Balanced(st) && s < |st.servers| && Part(All, st.servers[s], k) > 0
    ensures k < |st.jobs| && Out(st.jobs[k].pc) && st.jobs[k].slot.None?
    ensures Part(All, st.servers[s], k) == 1 && Count(st.pool, k) == 0
    ensures forall t | 0 <= t < |st.servers| && t != s :: Part(All, st.servers[t], k) == 0
  {
    BalanceAt(st, k);
    TallyUpdate(All, st.servers, s, st.servers[s], k);
    forall t | 0 <= t < |st.servers| && t != s ensures Part(All, st.servers[t], k) == 0 {
      TallyOfTwo(All, st.servers, s, t, k);
    }
  }

  lemma PooledAlone(st: State, k: JobId)
    requires Balanced(st) && Count(st.pool, k) > 0
    ensures k < |st.jobs| && Out(st.jobs[k].pc) && st.jobs[k].slot.None? && Count(st.pool, k) == 1
    ensures forall t | 0 <= t < |st.servers| :: Part(All, st.servers[t], k) == 0
  {
    BalanceAt(st, k);
    forall t | 0 <= t < |st.servers| ensures Part(All, st.servers[t], k) == 0 {
      TallyUpdate(All, st.servers, t, st.servers[t], k);
    }
  }

  /** A job that is not owed, or already delivered, is nowhere. */
  lemma Nowhere(st: State, k: JobId)
    requires Balanced(st) && (k >= |st.jobs| || !Out(st.jobs[k].pc) || st.jobs[k].slot.Some?)
    ensures Count(st.pool, k) == 0
    ensures k < |st.jobs| && st.jobs[k].slot.Some? ==> Out(st.jobs[k].pc)
    ensures forall t | 0 <= t < |st.servers| :: Part(All, st.servers[t], k) == 0
  {
    BalanceAt(st, k);
    forall t | 0 <= t < |st.servers| ensures Part(All, st.servers[t], k) == 0 {
      TallyUpdate(All, st.servers, t, st.servers[t], k);
    }
  }

  /** A step whose local effect at one server balances keeps the whole balance. */
  lemma KeepsBalance(st: State, s: ServerId, st': State)
    requires Balanced(st) && OnlyServer(st, s, st')
    requires forall x: JobId :: Local(All, st', s, x) - Local(All, st, s, x) == Due(st'.jobs, x) - Due(st.jobs, x)
    ensures Balanced(st')
  {
    forall x: JobId ensures Places(st', x) + Delivered(st'.jobs, x) == Owed(st'.jobs, x) {
      BalanceAt(st, x);
      LocalToGlobal(All, st, s, st', x);
      assert Local(All, st', s, x) - Local(All, st, s, x) == Due(st'.jobs, x) - Due(st.jobs, x);
    }
  }

  /** The server whose line or token a call's act touches. */
  function Touched(j: JobRec, a: SubmitAct): ServerId {
    match a
    case Nudge => if j.pc.Nudging? then j.pc.whom else 0
    case Place => if j.pc.Placing? then j.pc.to.GetOr(0) else 0
    case Withdraw => if j.pc.Withdrawing? then j.pc.to.GetOr(0) else 0
    case _ => 0
  }

  lemma SubmitLocal(c: Config, st: State, k: JobId, a: SubmitAct, st': State, x: JobId)
    requires Balanced(st) && SubmitStep(c, st, k, a) == Some(st')
    ensures var s := Touched(st.jobs[k], a);
            OnlyServer(st, s, st') && Local(All, st', s, x) - Local(All, st, s, x) == Due(st'.jobs, x) - Due(st.jobs, x)
  {
    BalanceAt(st, k);
    match a
    case Place => PlaceLocal(st, k, st', x);
    case Withdraw =>
      WithdrawLocal(st, k, st', x);
      WithdrawDue(st, k, st', x);
    case Nudge =>
    case _ => MoveLocal(c, st, k, a, st'.jobs[k], x);
  }

  lemma MoveLocal(c: Config, st: State, k: JobId, a: SubmitAct, j': JobRec, x: JobId)
    requires Balanced(st) && k < |st.jobs| && JobMove(c, st.servers, st.now, st.jobs[k], a) == Some(j')
    ensures Due(PutJob(st, k, j').jobs, x) == Due(st.jobs, x)
  {
    BalanceAt(st, k);
    JobMoveKeepsDue(c, st.servers, st.now, st.jobs[k], a, j');
  }

  lemma SubmitBalanced(c: Config, st: State, k: JobId, a: SubmitAct, st': State)
    requires Balanced(st) && SubmitStep(c, st, k, a) == Some(st')
    ensures Balanced(st')
  {
    var s := Touched(st.jobs[k], a);
    SubmitLocal(c, st, k, a, st', 0);
    forall x: JobId ensures Local(All, st', s, x) - Local(All, st, s, x) == Due(st'.jobs, x) - Due(st.jobs, x) {
      SubmitLocal(c, st, k, a, st', x);
    }
    KeepsBalance(st, s, st');
  }

  lemma BeginLocal(c: Config, st: State, s: ServerId, st': State, x: JobId)
    requires s < |st.servers| && BeginStep(c, st, s) == Some(st')
    ensures OnlyServer(st, s, st') && Local(All, st', s, x) == Local(All, st, s, x) && Due(st'.jobs, x) == Due(st.jobs, x)
  {
  }

  lemma FinishLocal(st: State, s: ServerId, out: Outcome, st': State, x: JobId)
    requires s < |st.servers| && FinishStep(st, s, out) == Some(st')
    ensures OnlyServer(st, s, st') && Local(All, st', s, x) == Local(All, st, s, x) && Due(st'.jobs, x) == Due(st.jobs, x)
  {
  }

  lemma DrainPoolLocal(c: Config, st: State, s: ServerId, st': State, x: JobId)
    requires s < |st.servers| && DrainPoolStep(c, st, s) == Some(st')
    ensures OnlyServer(st, s, st') && Local(All, st', s, x) == Local(All, st, s, x) && st'.jobs == st.jobs
  {
  }

  /** What a worker's step takes out of its server's hands, it delivers. */
  lemma WorkLocal(c: Config, st: State, s: ServerId, a: WorkAct, st': State, x: JobId)
    requires WorkStep(c, st, s, a) == Some(st')
    requires a.Deliver? ==> Undelivered(st.jobs, NextParcel(st.servers[s].worker, s).value.job)
    ensures OnlyServer(st, s, st')
    ensures Local(All, st', s, x) - Local(All, st, s, x) == Due(st'.jobs, x) - Due(st.jobs, x)
  {
    match a
    case Pop(held) => PopLocal(c, st, s, held, st', x);
    case Deliver => DeliverLocal(st, s, st', x);
    case DrainPool => DrainPoolLocal(c, st, s, st', x);
    case Begin => BeginLocal(c, st, s, st', x);
    case Finish(out) => FinishLocal(st, s, out, st', x);
    case _ => SrvMoveLocal(c, st.jobs, st.stopping, st.servers[s], s, a, st'.servers[s], x);
  }

  lemma ParcelIsOwed(st: State, s: ServerId, st': State)
    requires Balanced(st) && s < |st.servers| && DeliverStep(st, s) == Some(st')
    ensures Undelivered(st.jobs, NextParcel(st.servers[s].worker, s).value.job)
  {
    var p := NextParcel(st.servers[s].worker, s).value;
    assert Part(All, st.servers[s], p.job) > 0;
    HeldAlone(st, s, p.job);
  }

  lemma WorkBalanced(c: Config, st: State, s: ServerId, a: WorkAct, st': State)
    requires Balanced(st) && WorkStep(c, st, s, a) == Some(st')
    ensures Balanced(st')
  {
    if a.Deliver? { ParcelIsOwed(st, s, st'); }
    WorkLocal(c, st, s, a, st', 0);
    forall x: JobId ensures Local(All, st', s, x) - Local(All, st, s, x) == Due(st'.jobs, x) - Due(st.jobs, x) {
      WorkLocal(c, st, s, a, st', x);
    }
    KeepsBalance(st, s, st');
  }

  lemma PollBalanced(c: Config, st: State, s: ServerId, a: PollAct, st': State)
    requires Balanced(st) && PollStep(c, st, s, a) == Some(st')
    ensures Balanced(st')
  {
    KeepsBalance(st, s, st');
  }

  lemma BalancedStep(c: Config, st: State, a: Action, st': State)
    requires Balanced(st) && Step(c, st, a) == Some(st')
    ensures Balanced(st')
  {
    match a
    case Sub(k, sub) => SubmitBalanced(c, st, k, sub, st');
    case Work(s, work) => WorkBalanced(c, st, s, work, st');
    case Poll(s, poll) => PollBalanced(c, st, s, poll, st');
    case Shutdown => KeepsBalance(st, 0, st');
    case Tick(_) => KeepsBalance(st, 0, st');
  }

  lemma {:induction false} NoTally(what: What, ss: seq<Srv>, k: JobId)
    requires forall s | 0 <= s < |ss| :: InitSrv(ss[s])
    ensures Tally(what, ss, k) == 0
  {
    if ss != [] {
      NoTally(what, ss[1..], k);
    }
  }

  lemma BalancedInit(st: State)
    requires Init(st)
    ensures Balanced(st)
  {
    forall x: JobId ensures Places(st, x) + Delivered(st.jobs, x) == Owed(st.jobs, x) {
      NoTally(All, st.servers, x);
    }
  }
}
