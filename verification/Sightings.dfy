/**
 What two attempts in a row at the same server mean for a run: between them there was, for every other server,
 a moment at which it was not a healthy server with the model. The moments differ, since a call looks at one
 server after the other and the others go on meanwhile.
 */
module Sightings {
  import opened Wrappers
  import opened Selection
  import opened Machine
  import Conservation
  import opened Order
  import opened Failover
  import opened Guarantees

  predicate InSearch(pc: Submitter) {
    pc.Choosing? || pc.Excluding?
  }

  predicate LooksAround(pc: Submitter) {
    InSearch(pc) || pc.Checking?
  }

  /** Call `k` searches a server for its attempt after the first `i`, and server `t` is none. */
  predicate UnfitIn(st: Option<State>, k: JobId, i: nat, t: ServerId) {
    && st.Some? && k < |st.value.jobs|
    && LooksAround(st.value.jobs[k].pc) && |st.value.jobs[k].log.trail| == i
    && !Fit(st.value, k, t)
  }

  /** Server `t` is healthy and has the model of job `k`. */
  predicate Fit(st: State, k: JobId, t: ServerId)
    requires k < |st.jobs|
  {
    t < |st.servers| && st.servers[t].healthy && st.jobs[k].model in st.servers[t].models
  }

  predicate FitIn(st: Option<State>, k: JobId, i: nat, t: ServerId) {
    && st.Some? && k < |st.value.jobs|
    && LooksAround(st.value.jobs[k].pc) && |st.value.jobs[k].log.trail| == i
    && Fit(st.value, k, t)
  }

  /** At some moment of the search of call `k` after its first `i` attempts server `t` was fit. */
  ghost predicate SeenFit(c: Config, st0: State, acts: seq<Action>, k: JobId, i: nat, t: ServerId) {
    exists m: nat :: m <= |acts| && FitIn(After(c, st0, acts[..m]), k, i, t)
  }

  /** That was so at some moment of the run. */
  ghost predicate SeenUnfit(c: Config, st0: State, acts: seq<Action>, k: JobId, i: nat, t: ServerId) {
    exists m: nat :: m <= |acts| && UnfitIn(After(c, st0, acts[..m]), k, i, t)
  }

  /** Those a search found were seen to be fit; of the others it did not leave out it saw that they were not. */
  ghost predicate Vouched(c: Config, st0: State, acts: seq<Action>, k: JobId, i: nat, looks: seq<bool>, except: set<ServerId>) {
    && (forall t: ServerId | t < |looks| && looks[t] :: SeenFit(c, st0, acts, k, i, t))
    && (forall t: ServerId | t < |looks| && !looks[t] && t !in except :: SeenUnfit(c, st0, acts, k, i, t))
  }

  /** All of the first `n` servers were seen to be unfit. */
  ghost predicate UnfitUpTo(c: Config, st0: State, acts: seq<Action>, k: JobId, i: nat, n: nat) {
    forall t: ServerId | t < n :: SeenUnfit(c, st0, acts, k, i, t)
  }

  /** What a search under way leaves out. */
  function Skipped(j: JobRec): set<ServerId>
    requires InSearch(j.pc)
  {
    if j.pc.Choosing? then LeftOut(j, j.pc.again) else j.visited
  }

  ghost predicate JobSeen(c: Config, st0: State, acts: seq<Action>, k: JobId, j: JobRec) {
    var trail := j.log.trail;
    && (forall i | 0 < i < |trail| :: Vouched(c, st0, acts, k, i, trail[i].looks, {trail[i - 1].server}))
    && (c.mode.Push? ==> forall i | 0 <= i < |trail| :: SeenFit(c, st0, acts, k, i, trail[i].server))
    && (trail != [] ==> Vouched(c, st0, acts, k, |trail|, j.log.looks, {Last(trail)}))
    && (InSearch(j.pc) ==> Vouched(c, st0, acts, k, |trail|, j.pc.looks, Skipped(j)))
    && (j.pc.Checking? ==> UnfitUpTo(c, st0, acts, k, |trail|, j.pc.next))
  }

  ghost predicate AllSeen(c: Config, st0: State, acts: seq<Action>, st: State) {
    forall k: JobId | k < |st.jobs| :: JobSeen(c, st0, acts, k, st.jobs[k])
  }

  // ---------------------------------------------------------------- what was seen stays seen

  lemma SeenStays(c: Config, st0: State, acts: seq<Action>, a: Action, k: JobId, i: nat, t: ServerId)
    requires SeenUnfit(c, st0, acts, k, i, t)
    ensures SeenUnfit(c, st0, acts + [a], k, i, t)
  {
    var m: nat :| m <= |acts| && UnfitIn(After(c, st0, acts[..m]), k, i, t);
    assert (acts + [a])[..m] == acts[..m];
  }

  lemma FitStays(c: Config, st0: State, acts: seq<Action>, a: Action, k: JobId, i: nat, t: ServerId)
    requires SeenFit(c, st0, acts, k, i, t)
    ensures SeenFit(c, st0, acts + [a], k, i, t)
  {
    var m: nat :| m <= |acts| && FitIn(After(c, st0, acts[..m]), k, i, t);
    assert (acts + [a])[..m] == acts[..m];
  }

  lemma VouchedStays(c: Config, st0: State, acts: seq<Action>, a: Action, k: JobId, i: nat, looks: seq<bool>, except: set<ServerId>)
    requires Vouched(c, st0, acts, k, i, looks, except)
    ensures Vouched(c, st0, acts + [a], k, i, looks, except)
  {
    forall t: ServerId | t < |looks| && !looks[t] && t !in except ensures SeenUnfit(c, st0, acts + [a], k, i, t) {
      SeenStays(c, st0, acts, a, k, i, t);
    }
    forall t: ServerId | t < |looks| && looks[t] ensures SeenFit(c, st0, acts + [a], k, i, t) {
      FitStays(c, st0, acts, a, k, i, t);
    }
  }

  /** A search may be over, or at its start, or where it was; nothing else of it changes. */
  predicate SameSight(j: JobRec, j': JobRec) {
    && j'.log.trail == j.log.trail && j'.log.looks == j.log.looks
    && (InSearch(j'.pc) && j'.pc.looks != [] ==> j'.pc == j.pc && j'.visited == j.visited && j'.lastFailed == j.lastFailed)
    && (j'.pc.Checking? && j'.pc.next > 0 ==> j'.pc == j.pc)
  }

  lemma JobSeenStays(c: Config, st0: State, acts: seq<Action>, a: Action, k: JobId, j: JobRec, j': JobRec)
    requires JobSeen(c, st0, acts, k, j) && SameSight(j, j')
    ensures JobSeen(c, st0, acts + [a], k, j')
  {
    var trail := j.log.trail;
    forall i | 0 < i < |trail| ensures Vouched(c, st0, acts + [a], k, i, trail[i].looks, {trail[i - 1].server}) {
      VouchedStays(c, st0, acts, a, k, i, trail[i].looks, {trail[i - 1].server});
    }
    if c.mode.Push? {
      forall i | 0 <= i < |trail| ensures SeenFit(c, st0, acts + [a], k, i, trail[i].server) {
        FitStays(c, st0, acts, a, k, i, trail[i].server);
      }
    }
    if trail != [] { VouchedStays(c, st0, acts, a, k, |trail|, j.log.looks, {Last(trail)}); }
    if InSearch(j'.pc) && j'.pc.looks != [] { VouchedStays(c, st0, acts, a, k, |trail|, j.pc.looks, Skipped(j)); }
    if j'.pc.Checking? {
      forall t: ServerId | t < j'.pc.next ensures SeenUnfit(c, st0, acts + [a], k, |trail|, t) {
        SeenStays(c, st0, acts, a, k, |trail|, t);
      }
    }
  }

  // ---------------------------------------------------------------- steps that see or decide

  /** A look adds what it finds and changes nothing else. */
  lemma LookAdds(c: Config, ss: seq<Srv>, j: JobRec, j': JobRec)
    requires LookMove(c, ss, j) == Some(j') && InSearch(j'.pc)
    ensures InSearch(j.pc) && j'.log == j.log && Skipped(j') == Skipped(j)
    ensures j'.pc.looks == j.pc.looks + [CandidateAt(ss, |j.pc.looks|, j.model, Skipped(j))]
  {
  }

  /** One look more. */
  lemma LookVouched(c: Config, st0: State, acts: seq<Action>, st: State, k: JobId, j': JobRec)
    requires After(c, st0, acts) == Some(st) && k < |st.jobs| && JobSeen(c, st0, acts, k, st.jobs[k])
    requires LookMove(c, st.servers, st.jobs[k]) == Some(j') && InSearch(j'.pc)
    ensures JobSeen(c, st0, acts, k, j')
  {
    var j := st.jobs[k];
    LookAdds(c, st.servers, j, j');
    forall t: ServerId | t < |j'.pc.looks| && !j'.pc.looks[t] && t !in Skipped(j')
      ensures SeenUnfit(c, st0, acts, k, |j'.log.trail|, t)
    {
      if t == |j.pc.looks| { SeenHere(c, st0, acts, st, k, t); }
    }
    forall t: ServerId | t < |j'.pc.looks| && j'.pc.looks[t] ensures SeenFit(c, st0, acts, k, |j'.log.trail|, t) {
      if t == |j.pc.looks| { FitHere(c, st0, acts, st, k, t); }
    }
  }

  lemma FitHere(c: Config, st0: State, acts: seq<Action>, st: State, k: JobId, t: ServerId)
    requires After(c, st0, acts) == Some(st) && k < |st.jobs| && LooksAround(st.jobs[k].pc) && Fit(st, k, t)
    ensures SeenFit(c, st0, acts, k, |st.jobs[k].log.trail|, t)
  {
    assert acts[..|acts|] == acts;
    assert FitIn(After(c, st0, acts[..|acts|]), k, |st.jobs[k].log.trail|, t);
  }

  /** The same before the first attempt of a pool job. */
  lemma CheckVouched(c: Config, st0: State, acts: seq<Action>, st: State, k: JobId, j': JobRec)
    requires After(c, st0, acts) == Some(st) && k < |st.jobs| && JobSeen(c, st0, acts, k, st.jobs[k])
    requires LookMove(c, st.servers, st.jobs[k]) == Some(j') && j'.pc.Checking?
    ensures JobSeen(c, st0, acts, k, j')
  {
    var j := st.jobs[k];
    CheckAdds(c, st.servers, j, j');
    SeenHere(c, st0, acts, st, k, j.pc.next);
    OneMoreUnfit(c, st0, acts, k, j, j');
  }

  lemma OneMoreUnfit(c: Config, st0: State, acts: seq<Action>, k: JobId, j: JobRec, j': JobRec)
    requires JobSeen(c, st0, acts, k, j) && j.pc.Checking? && j'.pc == Checking(j.pc.next + 1) && j'.log == j.log
    requires SeenUnfit(c, st0, acts, k, |j.log.trail|, j.pc.next)
    ensures JobSeen(c, st0, acts, k, j')
  {
    assert UnfitUpTo(c, st0, acts, k, |j.log.trail|, j.pc.next);
    forall t: ServerId | t < j.pc.next + 1 ensures SeenUnfit(c, st0, acts, k, |j.log.trail|, t) {
    }
  }

  lemma CheckAdds(c: Config, ss: seq<Srv>, j: JobRec, j': JobRec)
    requires LookMove(c, ss, j) == Some(j') && j'.pc.Checking?
    ensures j.pc.Checking? && j'.pc.next == j.pc.next + 1 && j'.log == j.log && !CandidateAt(ss, j.pc.next, j.model, {})
  {
  }

  /** What holds at the end of a run was seen in it. */
  lemma SeenHere(c: Config, st0: State, acts: seq<Action>, st: State, k: JobId, t: ServerId)
    requires After(c, st0, acts) == Some(st) && k < |st.jobs| && LooksAround(st.jobs[k].pc)
    requires !Fit(st, k, t)
    ensures SeenUnfit(c, st0, acts, k, |st.jobs[k].log.trail|, t)
  {
    assert acts[..|acts|] == acts;
    assert UnfitIn(After(c, st0, acts[..|acts|]), k, |st.jobs[k].log.trail|, t);
  }

  /** A first search leaves out no server but that of the last attempt. */
  lemma SkipsTheLast(c: Config, st: State, k: JobId)
    requires Sound(c, st) && k < |st.jobs| && st.jobs[k].log.trail != []
    ensures InSearch(st.jobs[k].pc) ==> Skipped(st.jobs[k]) <= {Last(st.jobs[k].log.trail)}
  {
    var j := st.jobs[k];
    assert JobOrderly(c, |st.servers|, j);
    if c.mode.Push? { assert PushTrail(|st.servers|, j); } else { assert PullTrail(|st.servers|, j); }
  }

  /** A search may leave out less than it does. */
  lemma Widened(c: Config, st0: State, acts: seq<Action>, k: JobId, i: nat, looks: seq<bool>, a: set<ServerId>, b: set<ServerId>)
    requires Vouched(c, st0, acts, k, i, looks, a) && a <= b
    ensures Vouched(c, st0, acts, k, i, looks, b)
  {
  }

  lemma ChosenShape(c: Config, j: JobRec, s: ServerId)
    requires j.pc.Choosing?
    ensures var j' := Chosen(c, j, s);
            && j'.log.trail == j.log.trail + [Visit(s, if j.pc.again then j.log.looks else j.pc.looks)] && j'.log.looks == []
            && !LooksAround(j'.pc)
  {
  }

  lemma ChosenVouched(c: Config, st0: State, acts: seq<Action>, st: State, k: JobId, s: ServerId, i: nat)
    requires Sound(c, st) && k < |st.jobs| && JobSeen(c, st0, acts, k, st.jobs[k]) && st.jobs[k].pc.Choosing?
    requires 0 < i <= |st.jobs[k].log.trail|
    ensures var trail' := st.jobs[k].log.trail + [Visit(s, if st.jobs[k].pc.again then st.jobs[k].log.looks else st.jobs[k].pc.looks)];
            Vouched(c, st0, acts, k, i, trail'[i].looks, {trail'[i - 1].server})
  {
    var j := st.jobs[k];
    var trail := j.log.trail;
    if i == |trail| {
      SkipsTheLast(c, st, k);
      Widened(c, st0, acts, k, |trail|, j.pc.looks, Skipped(j), {Last(trail)});
    }
  }

  lemma ChoiceVouched(c: Config, st0: State, acts: seq<Action>, st: State, k: JobId, s: ServerId)
    requires Sound(c, st) && k < |st.jobs| && JobSeen(c, st0, acts, k, st.jobs[k]) && st.jobs[k].pc.Choosing?
    requires s < |st.jobs[k].pc.looks| && st.jobs[k].pc.looks[s]
    ensures JobSeen(c, st0, acts, k, Chosen(c, st.jobs[k], s))
  {
    var trail, trail' := st.jobs[k].log.trail, Chosen(c, st.jobs[k], s).log.trail;
    ChosenShape(c, st.jobs[k], s);
    forall i | 0 < i < |trail'| ensures Vouched(c, st0, acts, k, i, trail'[i].looks, {trail'[i - 1].server}) {
      ChosenVouched(c, st0, acts, st, k, s, i);
    }
    forall i | 0 <= i < |trail'| ensures c.mode.Push? ==> SeenFit(c, st0, acts, k, i, trail'[i].server) {
      if i < |trail| { assert trail'[i] == trail[i]; }
    }
    NothingLooked(c, st0, acts, k, |trail'|, {Last(trail')});
  }

  lemma NothingLooked(c: Config, st0: State, acts: seq<Action>, k: JobId, i: nat, except: set<ServerId>)
    ensures Vouched(c, st0, acts, k, i, [], except)
  {
  }

  /** The first search has found nothing: the exclusion is given up. */
  lemma GivingUpVouched(c: Config, st0: State, acts: seq<Action>, st: State, k: JobId, j': JobRec)
    requires Sound(c, st) && k < |st.jobs| && JobSeen(c, st0, acts, k, st.jobs[k]) && InSearch(st.jobs[k].pc)
    requires j'.log.trail == st.jobs[k].log.trail && j'.log.looks == st.jobs[k].pc.looks
    requires (InSearch(j'.pc) ==> j'.pc.looks == []) && !j'.pc.Checking?
    ensures JobSeen(c, st0, acts, k, j')
  {
    var j := st.jobs[k];
    if j.log.trail != [] {
      SkipsTheLast(c, st, k);
      Widened(c, st0, acts, k, |j.log.trail|, j.pc.looks, Skipped(j), {Last(j.log.trail)});
    }
  }

  /** Every other act of the call. */
  lemma RestSight(c: Config, ss: seq<Srv>, now: Nanos, j: JobRec, a: SubmitAct, j': JobRec)
    requires JobMove(c, ss, now, j, a) == Some(j') && !a.Choose? && !a.PickAgain? && !a.Lift?
    requires a.Look? ==> !LooksAround(j'.pc)
    ensures SameSight(j, j')
  {
  }

  /** A call's own act. */
  lemma MoveSeen(c: Config, st0: State, acts: seq<Action>, st: State, k: JobId, a: SubmitAct, j': JobRec, next: Action)
    requires After(c, st0, acts) == Some(st) && Sound(c, st) && k < |st.jobs| && JobSeen(c, st0, acts, k, st.jobs[k])
    requires JobMove(c, st.servers, st.now, st.jobs[k], a) == Some(j')
    ensures JobSeen(c, st0, acts + [next], k, j')
  {
    if a.Look? && InSearch(j'.pc) {
      LookVouched(c, st0, acts, st, k, j');
      JobSeenStays(c, st0, acts, next, k, j', j');
    } else if a.Look? && j'.pc.Checking? {
      CheckVouched(c, st0, acts, st, k, j');
      JobSeenStays(c, st0, acts, next, k, j', j');
    } else if a.Choose? {
      ChoiceVouched(c, st0, acts, st, k, a.s);
      JobSeenStays(c, st0, acts, next, k, j', j');
    } else if a.PickAgain? || a.Lift? {
      GivingUpVouched(c, st0, acts, st, k, j');
      JobSeenStays(c, st0, acts, next, k, j', j');
    } else {
      RestSight(c, st.servers, st.now, st.jobs[k], a, j');
      JobSeenStays(c, st0, acts, next, k, st.jobs[k], j');
    }
  }

  /** In pull mode the choice counts when the run begins. */
  lemma BeginSeen(c: Config, st0: State, acts: seq<Action>, st: State, s: ServerId, st': State)
    requires Sound(c, st) && s < |st.servers| && BeginStep(c, st, s) == Some(st')
    requires JobSeen(c, st0, acts, st.servers[s].worker.job, st.jobs[st.servers[s].worker.job])
    ensures JobSeen(c, st0, acts, st.servers[s].worker.job, st'.jobs[st.servers[s].worker.job])
  {
    var k := st.servers[s].worker.job;
    assert At(st, s, k);
    Conservation.HeldAlone(st, s, k);
  }

  lemma WorkSight(c: Config, st: State, s: ServerId, a: WorkAct, st': State, x: JobId)
    requires WorkStep(c, st, s, a) == Some(st') && x < |st.jobs|
    ensures x < |st'.jobs|
    ensures SameSight(st.jobs[x], st'.jobs[x]) || (a.Begin? && s < |st.servers| && st.servers[s].worker.Marked? && st.servers[s].worker.job == x)
  {
  }

  predicate OnLine(a: SubmitAct) {
    a.Place? || a.Withdraw? || a.Nudge?
  }

  lemma LineSight(c: Config, st: State, k: JobId, a: SubmitAct, st': State)
    requires k < |st.jobs| && SubmitStep(c, st, k, a) == Some(st') && OnLine(a)
    ensures k < |st'.jobs| && SameSight(st.jobs[k], st'.jobs[k])
  {
  }

  lemma OthersSight(c: Config, st: State, k: JobId, a: SubmitAct, st': State, x: JobId)
    requires SubmitStep(c, st, k, a) == Some(st') && x < |st.jobs| && x != k
    ensures x < |st'.jobs| && st'.jobs[x] == st.jobs[x]
  {
  }

  lemma SubmitSeen(c: Config, st0: State, acts: seq<Action>, st: State, k: JobId, a: SubmitAct, st': State, x: JobId)
    requires After(c, st0, acts) == Some(st) && Sound(c, st) && AllSeen(c, st0, acts, st)
    requires SubmitStep(c, st, k, a) == Some(st') && x < |st.jobs| && x < |st'.jobs|
    ensures JobSeen(c, st0, acts + [Sub(k, a)], x, st'.jobs[x])
  {
    if x != k {
      OthersSight(c, st, k, a, st', x);
      JobSeenStays(c, st0, acts, Sub(k, a), x, st.jobs[x], st'.jobs[x]);
    } else if OnLine(a) {
      LineSight(c, st, k, a, st');
      JobSeenStays(c, st0, acts, Sub(k, a), x, st.jobs[x], st'.jobs[x]);
    } else {
      MoveSeen(c, st0, acts, st, x, a, st'.jobs[x], Sub(k, a));
    }
  }

  lemma WorkSeen(c: Config, st0: State, acts: seq<Action>, st: State, s: ServerId, a: WorkAct, st': State, x: JobId)
    requires Sound(c, st) && AllSeen(c, st0, acts, st)
    requires WorkStep(c, st, s, a) == Some(st') && x < |st.jobs| && x < |st'.jobs|
    ensures JobSeen(c, st0, acts + [Work(s, a)], x, st'.jobs[x])
  {
    WorkSight(c, st, s, a, st', x);
    if SameSight(st.jobs[x], st'.jobs[x]) {
      JobSeenStays(c, st0, acts, Work(s, a), x, st.jobs[x], st'.jobs[x]);
    } else {
      BeginSeen(c, st0, acts, st, s, st');
      JobSeenStays(c, st0, acts, Work(s, a), x, st'.jobs[x], st'.jobs[x]);
    }
  }

  lemma JobsKept(c: Config, st: State, a: Action, st': State)
    requires Step(c, st, a) == Some(st')
    ensures |st'.jobs| == |st.jobs|
    ensures !a.Sub? && !a.Work? ==> st'.jobs == st.jobs
  {
  }

  lemma StepSeen(c: Config, st0: State, acts: seq<Action>, st: State, a: Action, st': State)
    requires After(c, st0, acts) == Some(st) && Sound(c, st) && AllSeen(c, st0, acts, st) && Step(c, st, a) == Some(st')
    ensures AllSeen(c, st0, acts + [a], st')
  {
    JobsKept(c, st, a, st');
    forall x: JobId | x < |st'.jobs| ensures JobSeen(c, st0, acts + [a], x, st'.jobs[x]) {
      match a
      case Sub(k, sub) => SubmitSeen(c, st0, acts, st, k, sub, st', x);
      case Work(s, work) => WorkSeen(c, st0, acts, st, s, work, st', x);
      case _ => JobSeenStays(c, st0, acts, a, x, st.jobs[x], st'.jobs[x]);
    }
  }

  lemma SeenAtFirst(c: Config, st: State)
    requires Init(st)
    ensures AllSeen(c, st, [], st)
  {
    forall k: JobId | k < |st.jobs| ensures JobSeen(c, st, [], k, st.jobs[k]) {
      assert InitJob(st.jobs[k]);
    }
  }

  lemma SeenNext(c: Config, st0: State, acts: seq<Action>, before: seq<Action>, mid: State, st: State)
    requires acts != [] && before == acts[..|acts| - 1] && Init(st0) && After(c, st0, before) == Some(mid)
    requires Step(c, mid, acts[|acts| - 1]) == Some(st) && AllSeen(c, st0, before, mid)
    ensures AllSeen(c, st0, acts, st)
  {
    SoundAfter(c, st0, before, mid);
    StepSeen(c, st0, before, mid, acts[|acts| - 1], st);
    assert before + [acts[|acts| - 1]] == acts;
  }

  lemma {:induction false} SeenAfter(c: Config, st0: State, acts: seq<Action>, st: State)
    requires Init(st0) && After(c, st0, acts) == Some(st)
    ensures AllSeen(c, st0, acts, st)
    decreases |acts|
  {
    if acts == [] {
      SeenAtFirst(c, st);
    } else {
      var before := acts[..|acts| - 1];
      var mid := After(c, st0, before).value;
      SeenAfter(c, st0, before, mid);
      SeenNext(c, st0, acts, before, mid, st);
    }
  }

  /**
   The same server twice in a row: after the first of the two attempts and before the second was placed, every
   other server was at some moment not a healthy one with the model.
   */
  lemma SameServerTwice(c: Config, st0: State, acts: seq<Action>, st: State, k: JobId, i: nat, t: ServerId)
    requires Init(st0) && After(c, st0, acts) == Some(st) && k < |st.jobs| && t < |st.servers|
    requires 0 < i < |st.jobs[k].log.trail| && t != st.jobs[k].log.trail[i].server
    requires st.jobs[k].log.trail[i].server == st.jobs[k].log.trail[i - 1].server
    ensures SeenUnfit(c, st0, acts, k, i, t)
  {
    TwiceIsRefused(c, st0, acts, st, k, i);
    TrailVouched(c, st0, acts, st, k, i);
  }

  lemma TwiceIsRefused(c: Config, st0: State, acts: seq<Action>, st: State, k: JobId, i: nat)
    requires Init(st0) && After(c, st0, acts) == Some(st) && k < |st.jobs| && 0 < i < |st.jobs[k].log.trail|
    requires st.jobs[k].log.trail[i].server == st.jobs[k].log.trail[i - 1].server
    ensures Refused(|st.servers|, st.jobs[k].log.trail[i].looks)
  {
    SoundAfter(c, st0, acts, st);
    if c.mode.Push? { assert PushTrail(|st.servers|, st.jobs[k]); } else { assert PullTrail(|st.servers|, st.jobs[k]); }
  }

  lemma TrailVouched(c: Config, st0: State, acts: seq<Action>, st: State, k: JobId, i: nat)
    requires Init(st0) && After(c, st0, acts) == Some(st) && k < |st.jobs| && 0 < i < |st.jobs[k].log.trail|
    ensures Vouched(c, st0, acts, k, i, st.jobs[k].log.trail[i].looks, {st.jobs[k].log.trail[i - 1].server})
  {
    SeenAfter(c, st0, acts, st);
    assert JobSeen(c, st0, acts, k, st.jobs[k]);
  }

  /**
   A call that gives up for want of a server: since its last attempt every server was at some moment not a healthy
   one with the model.
   */
  lemma GivesUpInVain(c: Config, st0: State, acts: seq<Action>, st: State, k: JobId, t: ServerId)
    requires Init(st0) && After(c, st0, acts) == Some(st) && Step(c, st, Sub(k, GiveUp)).Some?
    requires k < |st.jobs| && t < |st.servers|
    ensures SeenUnfit(c, st0, acts, k, |st.jobs[k].log.trail|, t)
  {
    SeenAfter(c, st0, acts, st);
    var j := st.jobs[k];
    assert JobSeen(c, st0, acts, k, j) && Hopeless(|st.servers|, j);
    if j.pc.Choosing? {
      assert Refused(|st.servers|, j.pc.looks) && Skipped(j) == {};
      assert Vouched(c, st0, acts, k, |j.log.trail|, j.pc.looks, Skipped(j));
    } else {
      assert UnfitUpTo(c, st0, acts, k, |j.log.trail|, j.pc.next);
    }
  }

  /** In push mode every server a call chose was, at a moment of the search for that attempt, a healthy one with the model. */
  lemma ChosenWasFit(c: Config, st0: State, acts: seq<Action>, st: State, k: JobId, i: nat)
    requires Init(st0) && After(c, st0, acts) == Some(st) && c.mode.Push? && k < |st.jobs| && i < |st.jobs[k].log.trail|
    ensures SeenFit(c, st0, acts, k, i, st.jobs[k].log.trail[i].server)
  {
    SeenAfter(c, st0, acts, st);
    assert JobSeen(c, st0, acts, k, st.jobs[k]);
  }

  /** In pull mode a call goes on with its exclusion only past a healthy server with the model that is not excluded. */
  lemma PassesAFitOne(c: Config, st: State, k: JobId, st': State)
    requires Step(c, st, Sub(k, Look)) == Some(st') && k < |st.jobs| && k < |st'.jobs|
    requires (st.jobs[k].pc.Checking? || st.jobs[k].pc.Excluding?) && !LooksAround(st'.jobs[k].pc)
    ensures exists t: ServerId :: Fit(st, k, t) && (st.jobs[k].pc.Excluding? ==> t !in st.jobs[k].visited)
  {
    var t := if st.jobs[k].pc.Checking? then st.jobs[k].pc.next else |st.jobs[k].pc.looks|;
    assert Fit(st, k, t);
  }
}
