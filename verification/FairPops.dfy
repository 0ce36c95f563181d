/**
 The fair-share limit as the machine keeps it: what a streak counts, and that a pop leaves a loaded model with jobs
 to take exactly when the streak has reached the limit and another model waits.
 */
module FairPops {
  import opened Wrappers
  import opened Selection
  import opened Machine
  import opened Conservation
  import opened Order
  import opened Attempts
  import opened Starvation

  // ---------------------------------------------------------------- what a streak counts

  /** The model server `s` begins to serve with a step. */
  function ServedIn(st: State, a: Action, s: ServerId): seq<string> {
    if a == Work(s, Start) && s < |st.servers| && st.servers[s].worker.Holding? then
      [ModelOf(st.jobs, st.servers[s].worker.job)]
    else []
  }

  /** The models it has begun to serve along a run, in order. */
  function Served(c: Config, st: State, acts: seq<Action>, s: ServerId): seq<string>
    decreases |acts|
  {
    if acts == [] then []
    else
      var rest := acts[..|acts| - 1];
      Served(c, st, rest, s)
      + if After(c, st, rest).Some? then ServedIn(After(c, st, rest).value, acts[|acts| - 1], s) else []
  }

  /** How many of the last ones are the same. */
  function LastAlike(ms: seq<string>): nat {
    if ms == [] then 0
    else if |ms| > 1 && ms[|ms| - 1] == ms[|ms| - 2] then LastAlike(ms[..|ms| - 1]) + 1
    else 1
  }

  function LastOf(ms: seq<string>): string {
    if ms == [] then NO_MODEL else ms[|ms| - 1]
  }

  lemma SubmitKeepsStreak(c: Config, st: State, k: JobId, a: SubmitAct, st': State, s: ServerId)
    requires SubmitStep(c, st, k, a) == Some(st') && s < |st.servers|
    ensures s < |st'.servers| && st'.servers[s].streak == st.servers[s].streak
    ensures st'.servers[s].lastDispatched == st.servers[s].lastDispatched
  {
  }

  lemma WorkKeepsStreak(c: Config, st: State, t: ServerId, a: WorkAct, st': State, s: ServerId)
    requires WorkStep(c, st, t, a) == Some(st') && s < |st.servers| && !(t == s && a.Start?)
    ensures s < |st'.servers| && st'.servers[s].streak == st.servers[s].streak
    ensures st'.servers[s].lastDispatched == st.servers[s].lastDispatched
  {
  }

  predicate Counts(sv: Srv, ms: seq<string>) {
    sv.streak == LastAlike(ms) && sv.lastDispatched == LastOf(ms)
  }

  lemma StartCounts(c: Config, st: State, st': State, s: ServerId, ms: seq<string>)
    requires WorkStep(c, st, s, Start) == Some(st') && s < |st.servers| && Counts(st.servers[s], ms)
    ensures s < |st'.servers| && Counts(st'.servers[s], ms + ServedIn(st, Work(s, Start), s))
  {
    OneMoreServed(ms, ModelOf(st.jobs, st.servers[s].worker.job));
  }

  lemma StreakStep(c: Config, st: State, a: Action, st': State, s: ServerId, ms: seq<string>)
    requires Step(c, st, a) == Some(st') && s < |st.servers| && Counts(st.servers[s], ms)
    ensures s < |st'.servers| && Counts(st'.servers[s], ms + ServedIn(st, a, s))
  {
    if a == Work(s, Start) {
      StartCounts(c, st, st', s, ms);
    } else {
      if a.Sub? { SubmitKeepsStreak(c, st, a.k, a.sub, st', s); }
      if a.Work? { WorkKeepsStreak(c, st, a.s, a.work, st', s); }
      assert ms + ServedIn(st, a, s) == ms;
    }
  }

  /** The streak is the number of the last dispatches that were of one model. */
  lemma {:induction false} StreakCounts(c: Config, st0: State, acts: seq<Action>, st: State, s: ServerId)
    requires Init(st0) && After(c, st0, acts) == Some(st) && s < |st0.servers|
    ensures s < |st.servers|
    ensures st.servers[s].streak == LastAlike(Served(c, st0, acts, s))
    ensures st.servers[s].lastDispatched == LastOf(Served(c, st0, acts, s))
    decreases |acts|
  {
    if acts == [] {
      assert InitSrv(st0.servers[s]);
    } else {
      var mid := After(c, st0, acts[..|acts| - 1]).value;
      StreakCounts(c, st0, acts[..|acts| - 1], mid, s);
      StreakStep(c, mid, acts[|acts| - 1], st, s, Served(c, st0, acts[..|acts| - 1], s));
    }
  }

  lemma OneMoreServed(ms: seq<string>, m: string)
    ensures LastOf(ms + [m]) == m
    ensures LastAlike(ms + [m]) == if m == LastOf(ms) then LastAlike(ms) + 1 else 1
  {
    assert (ms + [m])[..|ms|] == ms;
  }

  // ---------------------------------------------------------------- what a pop does at the limit and below

  /** The pool entry at position `i` is the first of those that satisfy `p`. */
  predicate IsFirst(es: seq<Entry>, p: Entry -> bool, i: nat) {
    i < |es| && p(es[i]) && forall k | 0 <= k < i :: !p(es[k])
  }

  /**
   A pop of the machine under the fair-share rule, from any reachable state. `st'.servers[s].worker` holds the job
   it took. Below the limit a loaded model with jobs to take is not left; with the limit reached the first job of
   another model that the server may take goes first.
   */
  lemma PopAtLimit(c: Config, st: State, s: ServerId, held: bool, st': State)
    requires Reachable(c, st) && c.mode.FairShare? && s < |st.servers| && s < |st'.servers|
    requires Step(c, st, Work(s, Pop(held))) == Some(st')
    ensures var sv, es, v := st.servers[s], Entries(st.jobs, st.pool), st.servers[s].worker.view;
            && (c.mode.limit <= 0 || sv.streak < c.mode.limit ==>
                  (exists k :: 0 <= k < |es| && OfLoaded(es[k], v)) ==>
                    st'.servers[s].worker.Holding? && ModelOf(st.jobs, st'.servers[s].worker.job) == sv.current)
            && (c.mode.limit > 0 && sv.streak >= c.mode.limit && sv.lastDispatched != NO_MODEL && sv.current != NO_MODEL ==>
                  forall i: nat | IsFirst(es, e => Takeable(e, v) && e.model != sv.current, i) ::
                    st'.servers[s].worker == Holding(st.pool[i]))
  {
    SafeReachable(c, st);
    assert SrvOrderly(c, st.stopping, st.servers[s], s);
    var sv, es, v := st.servers[s], Entries(st.jobs, st.pool), st.servers[s].worker.view;
    var r := Choice(c, st, s, held);
    if r.Some? { assert es[r.value] == EntryOf(st.jobs, st.pool[r.value]); }
    if c.mode.limit <= 0 || sv.streak < c.mode.limit {
      if k :| 0 <= k < |es| && OfLoaded(es[k], v) {
        BelowLimit(es, v, k);
      }
    } else if sv.lastDispatched != NO_MODEL && sv.current != NO_MODEL {
      forall i: nat | IsFirst(es, e => Takeable(e, v) && e.model != sv.current, i)
        ensures st'.servers[s].worker == Holding(st.pool[i])
      {
        FirstSwitching(es, v, i);
      }
    }
  }

  lemma BelowLimit(es: seq<Entry>, v: View, k: nat)
    requires k < |es| && OfLoaded(es[k], v)
    ensures FairShareIndex(es, v, false).Some? && es[FairShareIndex(es, v, false).value].model == v.current
  {
    var r := FairShareIndex(es, v, false);
    assert r.Some?;
    assert !Abandons(es, v, r.value);
  }

  lemma FirstSwitching(es: seq<Entry>, v: View, i: nat)
    requires v.current != NO_MODEL && IsFirst(es, e => Takeable(e, v) && e.model != v.current, i)
    ensures FairShareIndex(es, v, true) == Some(i)
  {
    assert Switching(es[i], v);
    assert forall k | 0 <= k < i :: !Switching(es[k], v);
  }
}
