/**
 The drain on runs of the machine: while a server's line changes only by its own pops, the jobs it takes are the
 first of `DrainBy`, in that order, so at every moment it has changed its model as seldom as possible.
 */
module Backlog {
  import opened Wrappers
  import opened Selection
  import opened Machine
  import opened Conservation
  import opened Order
  import opened Attempts
  import opened Starvation
  import opened Drain

  predicate Unforced(mode: Mode) {
    mode.FairShare? ==> mode.limit <= 0
  }

  predicate OwnPop(a: Action, s: ServerId) {
    a.Work? && a.s == s && a.work.Pop?
  }

  /** Nothing arrives in the line of `s` and nobody else takes from it; no other server was found to hold its model. */
  predicate LeftAlone(c: Config, st: State, a: Action, st': State, s: ServerId) {
    && s < |st.servers| && s < |st'.servers| && st'.servers[s].models == st.servers[s].models
    && if OwnPop(a, s) then !a.work.held else Line(c, st', s) == Line(c, st, s)
  }

  predicate LeftAloneAlong(c: Config, st: State, acts: seq<Action>, s: ServerId)
    decreases |acts|
  {
    && After(c, st, acts).Some?
    && (acts != [] ==>
          && LeftAloneAlong(c, st, acts[..|acts| - 1], s)
          && LeftAlone(c, After(c, st, acts[..|acts| - 1]).value, acts[|acts| - 1], After(c, st, acts).value, s))
  }

  /** The job a step takes from the line, as its rule saw it. */
  function Taken(c: Config, st: State, a: Action, s: ServerId): seq<Entry> {
    if OwnPop(a, s) && s < |st.servers| && st.servers[s].worker.Looking? && Choice(c, st, s, a.work.held).Some? then
      [Entries(st.jobs, Line(c, st, s))[Choice(c, st, s, a.work.held).value]]
    else []
  }

  /** The jobs a run takes, in order. */
  function TakenBy(c: Config, st: State, acts: seq<Action>, s: ServerId): seq<Entry>
    decreases |acts|
  {
    if acts == [] then []
    else
      var rest := acts[..|acts| - 1];
      match After(c, st, rest)
      case None => TakenBy(c, st, rest, s)
      case Some(mid) => TakenBy(c, st, rest, s) + Taken(c, mid, acts[|acts| - 1], s)
  }

  /** What a drain from here on would take. */
  function Ahead(c: Config, st: State, s: ServerId): seq<Entry>
    requires s < |st.servers|
  {
    DrainBy(c.mode, Entries(st.jobs, Line(c, st, s)), ViewNow(st, s)).order
  }

  // ---------------------------------------------------------------- steps that take nothing

  /** A job in line keeps its model and its exclusion. */
  lemma InLine(c: Config, st: State, s: ServerId, k: JobId)
    requires Safe(c, st) && s < |st.servers| && k in Line(c, st, s)
    ensures k < |st.jobs| && Out(st.jobs[k].pc) && st.jobs[k].slot.None?
  {
    CountIsMember(Line(c, st, s), k);
    if c.mode.Push? { HeldAlone(st, s, k); } else { PooledAlone(st, k); }
  }

  lemma SubmitKeepsEntry(c: Config, st: State, x: JobId, a: SubmitAct, st': State, k: JobId)
    requires SubmitStep(c, st, x, a) == Some(st') && k < |st.jobs| && Out(st.jobs[k].pc) && st.jobs[k].slot.None?
    ensures EntryOf(st'.jobs, k) == EntryOf(st.jobs, k)
  {
    if x == k && !a.Place? && !a.Withdraw? && !a.Nudge? {
      JobMoveKeepsEntry(c, st.servers, st.now, st.jobs[x], a, st'.jobs[x]);
    }
  }

  lemma StepKeepsEntry(c: Config, st: State, a: Action, st': State, k: JobId)
    requires Step(c, st, a) == Some(st') && k < |st.jobs| && Out(st.jobs[k].pc) && st.jobs[k].slot.None?
    ensures EntryOf(st'.jobs, k) == EntryOf(st.jobs, k)
  {
    if a.Sub? {
      SubmitKeepsEntry(c, st, a.k, a.sub, st', k);
    } else if a.Work? {
      WorkSameCalls(c, st, a.s, a.work, st');
    }
  }

  lemma SubmitKeepsServer(c: Config, st: State, x: JobId, a: SubmitAct, st': State, s: ServerId)
    requires SubmitStep(c, st, x, a) == Some(st') && s < |st.servers|
    ensures s < |st'.servers| && st'.servers[s].worker == st.servers[s].worker && st'.servers[s].current == st.servers[s].current
  {
  }

  lemma SubmitKeepsModel(c: Config, st: State, x: JobId, a: SubmitAct, st': State, k: JobId)
    requires SubmitStep(c, st, x, a) == Some(st')
    ensures ModelOf(st'.jobs, k) == ModelOf(st.jobs, k)
  {
  }

  lemma SubmitKeepsModels(c: Config, st: State, x: JobId, a: SubmitAct, st': State, s: ServerId)
    requires SubmitStep(c, st, x, a) == Some(st') && s < |st.servers|
    ensures s < |st'.servers| && st'.servers[s].worker == st.servers[s].worker
    ensures ModelNow(st'.jobs, st'.servers[s]) == ModelNow(st.jobs, st.servers[s])
  {
    SubmitKeepsServer(c, st, x, a, st', s);
    if st.servers[s].worker.Holding? { SubmitKeepsModel(c, st, x, a, st', st.servers[s].worker.job); }
  }

  lemma OwnMoveKeepsModel(c: Config, jobs: seq<JobRec>, stopping: bool, sv: Srv, s: ServerId, a: WorkAct, sv': Srv)
    requires SrvMove(c, jobs, stopping, sv, s, a) == Some(sv')
    ensures ModelNow(jobs, sv') == ModelNow(jobs, sv)
    ensures sv'.worker.Looking? && sv'.worker != sv.worker ==> sv'.worker.view.allowed == sv'.models
  {
  }

  lemma WorkKeepsModels(c: Config, st: State, t: ServerId, a: WorkAct, st': State, s: ServerId)
    requires WorkStep(c, st, t, a) == Some(st') && s < |st.servers| && (t == s ==> !a.Pop?)
    ensures s < |st'.servers| && ModelNow(st'.jobs, st'.servers[s]) == ModelNow(st.jobs, st.servers[s])
    ensures st'.servers[s].worker.Looking? ==>
              st'.servers[s].worker == st.servers[s].worker || st'.servers[s].worker.view.allowed == st'.servers[s].models
  {
    WorkSameCalls(c, st, t, a, st');
    if t == s && !a.Begin? && !a.Finish? && !a.Deliver? && !a.DrainPool? {
      OwnMoveKeepsModel(c, st.jobs, st.stopping, st.servers[s], s, a, st'.servers[s]);
    }
  }

  /** A step other than an own pop leaves the view as it is. */
  lemma SameView(c: Config, st: State, a: Action, st': State, s: ServerId)
    requires Step(c, st, a) == Some(st') && LeftAlone(c, st, a, st', s) && !OwnPop(a, s)
    ensures ViewNow(st', s) == ViewNow(st, s) && (!Stale(st.servers[s]) ==> !Stale(st'.servers[s]))
  {
    match a
    case Sub(k, sub) => SubmitKeepsModels(c, st, k, sub, st', s);
    case Work(t, work) => WorkKeepsModels(c, st, t, work, st', s);
    case Poll(p, poll) =>
    case Shutdown =>
    case Tick(_) =>
  }

  lemma SameAhead(c: Config, st: State, a: Action, st': State, s: ServerId)
    requires Safe(c, st) && Step(c, st, a) == Some(st') && LeftAlone(c, st, a, st', s) && !OwnPop(a, s)
    ensures Ahead(c, st', s) == Ahead(c, st, s) && Taken(c, st, a, s) == []
  {
    var line := Line(c, st, s);
    SameView(c, st, a, st', s);
    forall i | 0 <= i < |line| ensures EntryOf(st.jobs, line[i]) == EntryOf(st'.jobs, line[i]) {
      InLine(c, st, s, line[i]);
      StepKeepsEntry(c, st, a, st', line[i]);
    }
    SameEntries(st.jobs, st'.jobs, line);
  }

  // ---------------------------------------------------------------- an own pop

  lemma ChoiceNow(c: Config, st: State, s: ServerId)
    requires Orderly(c, st) && Unforced(c.mode) && s < |st.servers| && st.servers[s].worker.Looking? && !Stale(st.servers[s])
    ensures Choice(c, st, s, false) == PopIndex(c.mode, Entries(st.jobs, Line(c, st, s)), ViewNow(st, s), false, false)
  {
    assert SrvOrderly(c, st.stopping, st.servers[s], s);
  }

  lemma AfterPop(c: Config, st: State, s: ServerId, i: nat)
    requires s < |st.servers| && i < |Line(c, st, s)|
    ensures var st', es := Took(c, st, s, Some(i)), Entries(st.jobs, Line(c, st, s));
            && s < |st'.servers| && Entries(st'.jobs, Line(c, st', s)) == Without(es, i)
            && ViewNow(st', s) == ViewNow(st, s).(current := es[i].model) && !Stale(st'.servers[s])
  {
    EntriesWithout(st.jobs, Line(c, st, s), i);
  }

  lemma AfterNoPop(c: Config, st: State, s: ServerId)
    requires s < |st.servers| && st.servers[s].worker.Looking?
    ensures var st' := Took(c, st, s, None);
            && s < |st'.servers| && Ahead(c, st', s) == Ahead(c, st, s) && !Stale(st'.servers[s])
  {
    var st' := Took(c, st, s, None);
    assert ViewNow(st', s) == ViewNow(st, s) && Line(c, st', s) == Line(c, st, s);
  }

  lemma PopAhead(c: Config, st: State, a: Action, st': State, s: ServerId)
    requires Safe(c, st) && Unforced(c.mode) && Step(c, st, a) == Some(st') && OwnPop(a, s) && !a.work.held
    requires s < |st.servers| && !Stale(st.servers[s])
    ensures s < |st'.servers| && Ahead(c, st, s) == Taken(c, st, a, s) + Ahead(c, st', s) && !Stale(st'.servers[s])
  {
    var i := Choice(c, st, s, false);
    ChoiceNow(c, st, s);
    assert st' == Took(c, st, s, i);
    if i.Some? {
      AfterPop(c, st, s, i.value);
      DrainStep(c.mode, Entries(st.jobs, Line(c, st, s)), ViewNow(st, s), i.value);
    } else {
      AfterNoPop(c, st, s);
    }
  }

  // ---------------------------------------------------------------- runs

  /** One step, own pop or not. */
  lemma AheadStep(c: Config, st: State, a: Action, st': State, s: ServerId)
    requires Safe(c, st) && Unforced(c.mode) && Step(c, st, a) == Some(st') && LeftAlone(c, st, a, st', s)
    requires s < |st.servers| && !Stale(st.servers[s])
    ensures s < |st'.servers| && !Stale(st'.servers[s]) && Ahead(c, st, s) == Taken(c, st, a, s) + Ahead(c, st', s)
  {
    if OwnPop(a, s) {
      PopAhead(c, st, a, st', s);
    } else {
      SameAhead(c, st, a, st', s);
      SameView(c, st, a, st', s);
      EmptyFirst(Taken(c, st, a, s), Ahead(c, st', s));
    }
  }

  lemma EmptyFirst<T>(a: seq<T>, b: seq<T>)
    requires a == []
    ensures a + b == b
  {
  }

  /** What is taken and what a drain would take from there on make up what a drain would take at first. */
  lemma {:induction false} TakenIsDrained(c: Config, st: State, acts: seq<Action>, s: ServerId)
    requires Safe(c, st) && Unforced(c.mode) && s < |st.servers| && !Stale(st.servers[s]) && LeftAloneAlong(c, st, acts, s)
    ensures var last := After(c, st, acts).value;
            && Safe(c, last) && s < |last.servers| && !Stale(last.servers[s])
            && TakenBy(c, st, acts, s) + Ahead(c, last, s) == Ahead(c, st, s)
    decreases |acts|
  {
    if acts != [] {
      var rest, a := acts[..|acts| - 1], acts[|acts| - 1];
      var mid, last := After(c, st, rest).value, After(c, st, acts).value;
      TakenIsDrained(c, st, rest, s);
      SafeStep(c, mid, a, last);
      AheadStep(c, mid, a, last, s);
      Regrouped(TakenBy(c, st, rest, s), Taken(c, mid, a, s), Ahead(c, last, s));
    }
  }

  lemma Regrouped<T>(x: seq<T>, y: seq<T>, z: seq<T>)
    ensures (x + y) + z == x + (y + z)
  {
  }

  // ---------------------------------------------------------------- beginnings of a drain

  lemma {:induction false} SwitchesAppend(current: string, ms: seq<string>, m: string)
    ensures Switches(current, ms + [m])
            == Switches(current, ms) + (if m == (if ms == [] then current else ms[|ms| - 1]) then 0 else 1)
    decreases |ms|
  {
    if ms == [] {
      assert [m][1..] == [];
    } else {
      assert (ms + [m])[1..] == ms[1..] + [m];
      SwitchesAppend(ms[0], ms[1..], m);
    }
  }

  /** When a sequence has no switch too many, neither has its beginning. */
  lemma {:induction false} BeginningIsGrouped(current: string, ms: seq<string>, n: nat)
    requires n <= |ms| && Switches(current, ms) == |Range(ms) - {current}|
    ensures Switches(current, ms[..n]) == |Range(ms[..n]) - {current}|
    decreases |ms|
  {
    if n == |ms| {
      assert ms[..n] == ms;
    } else {
      var front, last := ms[..|ms| - 1], ms[|ms| - 1];
      assert ms == front + [last];
      SwitchesAppend(current, front, last);
      SwitchesAtLeast(current, front);
      OneFewer(current, front, last);
      BeginningIsGrouped(current, front, n);
      assert front[..n] == ms[..n];
    }
  }

  /** The last model either is the one before it, or adds at most one to those loaded. */
  lemma OneFewer(current: string, front: seq<string>, last: string)
    ensures |Range(front + [last]) - {current}| <= |Range(front) - {current}| + 1
    ensures last == (if front == [] then current else front[|front| - 1]) ==>
              |Range(front + [last]) - {current}| == |Range(front) - {current}|
  {
    AtMostOneMore(Range(front + [last]) - {current}, Range(front) - {current}, last);
    if last == (if front == [] then current else front[|front| - 1]) {
      assert Range(front + [last]) - {current} == Range(front) - {current};
    }
  }

  lemma {:induction false} LoadsOfBeginning(current: string, front: seq<string>, back: seq<string>, m: string)
    ensures Loads(current, front, m) <= Loads(current, front + back, m)
    decreases |front|
  {
    if front == [] {
      assert front + back == back;
    } else {
      assert (front + back)[1..] == front[1..] + back;
      LoadsOfBeginning(front[0], front[1..], back, m);
    }
  }

  lemma ModelsOfBoth(a: seq<Entry>, b: seq<Entry>)
    ensures ModelsOf(a + b) == ModelsOf(a) + ModelsOf(b)
  {
  }

  /**
   In every run from a reachable state on, while the line of `s` is left alone and its rule is not forced to switch:
   what it has taken so far has loaded no model twice, the one already there not at all, and no other order of
   the same jobs would have changed the model less often.
   */
  lemma RunDrainsOptimally(c: Config, st: State, acts: seq<Action>, s: ServerId, m: string, other: seq<Entry>)
    requires Reachable(c, st) && Unforced(c.mode) && s < |st.servers| && !Stale(st.servers[s])
    requires LeftAloneAlong(c, st, acts, s) && SameJobs(other, TakenBy(c, st, acts, s))
    ensures var current, ms := ViewNow(st, s).current, ModelsOf(TakenBy(c, st, acts, s));
            && Loads(current, ms, m) <= (if m == current then 0 else 1)
            && Switches(current, ms) <= Switches(current, ModelsOf(other))
  {
    SafeReachable(c, st);
    LineNamed(c, st, s);
    TakenIsDrained(c, st, acts, s);
    var v, es := ViewNow(st, s), Entries(st.jobs, Line(c, st, s));
    var taken, later := TakenBy(c, st, acts, s), Ahead(c, After(c, st, acts).value, s);
    LoadsOnce(c.mode, es, v, m);
    DrainSwitches(c.mode, es, v);
    ModelsOfBoth(taken, later);
    LoadsOfBeginning(v.current, ModelsOf(taken), ModelsOf(later), m);
    BeginningIsGrouped(v.current, ModelsOf(taken) + ModelsOf(later), |taken|);
    assert (ModelsOf(taken) + ModelsOf(later))[..|taken|] == ModelsOf(taken);
    SwitchesAtLeast(v.current, ModelsOf(other));
    SameRange(taken, other);
  }
}
