/**
 One server draining a backlog that nobody else touches: it loads each model at most once, and no other
 order of the same jobs needs fewer loads. This holds for the push rule and for every pool rule that is
 not forced to switch and whose model nobody else holds.
 */
module Drain {
  import opened Wrappers
  import opened Selection
  import opened Machine
  import opened Conservation
  import opened Order
  import opened Attempts

  datatype Drained = Drained(order: seq<Entry>, left: seq<Entry>)

  /** Pop after pop until the rule finds nothing; each pop loads the model of its job. */
  function DrainBy(mode: Mode, es: seq<Entry>, v: View): (d: Drained)
    decreases |es|
  {
    match PopIndex(mode, es, v, false, false)
    case None => Drained([], es)
    case Some(i) =>
      var d := DrainBy(mode, Without(es, i), v.(current := es[i].model));
      Drained([es[i]] + d.order, d.left)
  }

  function ModelsOf(es: seq<Entry>): (ms: seq<string>)
    ensures |ms| == |es|
  {
    seq(|es|, i requires 0 <= i < |es| => es[i].model)
  }

  /** How often a server that starts with `current` changes its model while it works through `ms`. */
  function Switches(current: string, ms: seq<string>): nat
    decreases |ms|
  {
    if ms == [] then 0 else (if ms[0] != current then 1 else 0) + Switches(ms[0], ms[1..])
  }

  /** How often it loads model `m` on the way. */
  function Loads(current: string, ms: seq<string>, m: string): nat
    decreases |ms|
  {
    if ms == [] then 0 else (if ms[0] != current && ms[0] == m then 1 else 0) + Loads(ms[0], ms[1..], m)
  }

  function Range<T(==)>(s: seq<T>): set<T> {
    set x | x in s
  }

  predicate AllNamed(es: seq<Entry>) {
    forall i | 0 <= i < |es| :: es[i].model != NO_MODEL
  }

  // ---------------------------------------------------------------- what a drain takes

  lemma DrainStep(mode: Mode, es: seq<Entry>, v: View, i: nat)
    requires PopIndex(mode, es, v, false, false) == Some(i)
    ensures var d := DrainBy(mode, Without(es, i), v.(current := es[i].model));
            && DrainBy(mode, es, v) == Drained([es[i]] + d.order, d.left)
            && ModelsOf(DrainBy(mode, es, v).order)[1..] == ModelsOf(d.order)
  {
    ModelsOfMore(es[i], DrainBy(mode, Without(es, i), v.(current := es[i].model)).order);
  }

  lemma ModelsOfMore(e: Entry, es: seq<Entry>)
    ensures ModelsOf([e] + es)[1..] == ModelsOf(es)
  {
  }

  /** What is taken comes from the backlog and, in pull mode, does not exclude the server. */
  lemma {:induction false} TakenAre(mode: Mode, es: seq<Entry>, v: View)
    ensures forall e | e in DrainBy(mode, es, v).order :: e in es && (!mode.Push? ==> v.self !in e.visited)
    decreases |es|
  {
    var r := PopIndex(mode, es, v, false, false);
    if r.Some? {
      TakenAre(mode, Without(es, r.value), v.(current := es[r.value].model));
    }
  }

  /** Nothing is lost or invented, and what is left the server could not take. */
  lemma {:induction false} DrainIsComplete(mode: Mode, es: seq<Entry>, v: View, e: Entry)
    ensures Count(DrainBy(mode, es, v).order, e) + Count(DrainBy(mode, es, v).left, e) == Count(es, e)
    ensures e in DrainBy(mode, es, v).left ==> !mode.Push? && !Takeable(e, v)
    decreases |es|
  {
    var r := PopIndex(mode, es, v, false, false);
    if r.Some? {
      DrainIsComplete(mode, Without(es, r.value), v.(current := es[r.value].model), e);
      CountWithout(es, r.value, e);
    }
  }

  /** Once the rule has left a model, nothing of that model is taken any more. */
  lemma NeverAgain(mode: Mode, es: seq<Entry>, v: View, i: nat)
    requires PopIndex(mode, es, v, false, false) == Some(i) && es[i].model != v.current && AllNamed(es)
    ensures v.current !in ModelsOf(DrainBy(mode, Without(es, i), v.(current := es[i].model)).order)
  {
    var rest := Without(es, i);
    var order := DrainBy(mode, rest, v.(current := es[i].model)).order;
    TakenAre(mode, rest, v.(current := es[i].model));
    forall k | 0 <= k < |order| ensures order[k].model != v.current {
      assert order[k] in rest && order[k] in es;
      NotHeld(mode, es, v, i, order[k]);
    }
  }

  lemma NotHeld(mode: Mode, es: seq<Entry>, v: View, i: nat, e: Entry)
    requires PopIndex(mode, es, v, false, false) == Some(i) && es[i].model != v.current && AllNamed(es)
    requires e in es && (!mode.Push? ==> v.self !in e.visited)
    ensures e.model != v.current
  {
    if v.current != NO_MODEL && !mode.Push? {
      assert !Abandons(es, v, i);
      assert !OfLoaded(e, v);
    }
  }

  lemma NamedWithout(es: seq<Entry>, i: nat)
    requires AllNamed(es) && i < |es|
    ensures AllNamed(Without(es, i))
  {
  }

  // ---------------------------------------------------------------- each model at most once

  lemma {:induction false} NotLoaded(current: string, ms: seq<string>, m: string)
    requires m !in ms
    ensures Loads(current, ms, m) == 0
    decreases |ms|
  {
    if ms != [] {
      NotLoaded(ms[0], ms[1..], m);
    }
  }

  /** The model already there is not loaded again; every other is loaded at most once. */
  lemma {:induction false} LoadsOnce(mode: Mode, es: seq<Entry>, v: View, m: string)
    requires AllNamed(es)
    ensures Loads(v.current, ModelsOf(DrainBy(mode, es, v).order), m) <= if m == v.current then 0 else 1
    decreases |es|
  {
    var r := PopIndex(mode, es, v, false, false);
    if r.Some? {
      var w := v.(current := es[r.value].model);
      DrainStep(mode, es, v, r.value);
      NamedWithout(es, r.value);
      LoadsOnce(mode, Without(es, r.value), w, m);
      if es[r.value].model != v.current && m == v.current {
        NeverAgain(mode, es, v, r.value);
        NotLoaded(w.current, ModelsOf(DrainBy(mode, Without(es, r.value), w).order), m);
      }
    }
  }

  // ---------------------------------------------------------------- and never more than any other order

  lemma RangeSplit(ms: seq<string>)
    requires ms != []
    ensures Range(ms) == {ms[0]} + Range(ms[1..])
  {
    assert ms == [ms[0]] + ms[1..];
  }

  lemma {:induction false} SwitchesAtLeast(current: string, ms: seq<string>)
    ensures Switches(current, ms) >= |Range(ms) - {current}|
    decreases |ms|
  {
    if ms != [] {
      SwitchesAtLeast(ms[0], ms[1..]);
      var rest := Range(ms[1..]) - {ms[0]};
      RangeSplit(ms);
      if ms[0] == current {
        assert Range(ms) - {current} == rest;
      } else {
        AtMostOneMore(Range(ms) - {current}, rest, ms[0]);
      }
    }
  }

  lemma AtMostOneMore<T>(a: set<T>, b: set<T>, x: T)
    requires a <= b + {x}
    ensures |a| <= |b| + 1
  {
    SubsetSize(a, b + {x});
  }

  lemma {:induction false} SubsetSize<T>(a: set<T>, b: set<T>)
    requires a <= b
    ensures |a| <= |b|
  {
    if a != {} {
      var x :| x in a;
      SubsetSize(a - {x}, b - {x});
    }
  }

  lemma {:induction false} DrainSwitches(mode: Mode, es: seq<Entry>, v: View)
    requires AllNamed(es)
    ensures Switches(v.current, ModelsOf(DrainBy(mode, es, v).order)) == |Range(ModelsOf(DrainBy(mode, es, v).order)) - {v.current}|
    decreases |es|
  {
    var r := PopIndex(mode, es, v, false, false);
    if r.Some? {
      var w := v.(current := es[r.value].model);
      DrainStep(mode, es, v, r.value);
      NamedWithout(es, r.value);
      DrainSwitches(mode, Without(es, r.value), w);
      if w.current != v.current { NeverAgain(mode, es, v, r.value); }
      FirstSwitch(v.current, ModelsOf(DrainBy(mode, es, v).order));
    }
  }

  lemma FirstSwitch(current: string, ms: seq<string>)
    requires ms != [] && Switches(ms[0], ms[1..]) == |Range(ms[1..]) - {ms[0]}|
    requires ms[0] != current ==> current !in ms[1..]
    ensures Switches(current, ms) == |Range(ms) - {current}|
  {
    RangeSplit(ms);
    if ms[0] == current {
      assert Range(ms) - {current} == Range(ms[1..]) - {ms[0]};
    } else {
      assert Range(ms) - {current} == (Range(ms[1..]) - {ms[0]}) + {ms[0]};
    }
  }

  /** The same jobs, in some order. */
  ghost predicate SameJobs(a: seq<Entry>, b: seq<Entry>) {
    forall e: Entry :: Count(a, e) == Count(b, e)
  }

  /** No other order of the jobs the drain takes changes the model less often. */
  lemma DrainIsOptimal(mode: Mode, es: seq<Entry>, v: View, other: seq<Entry>)
    requires AllNamed(es)
    requires SameJobs(other, DrainBy(mode, es, v).order)
    ensures Switches(v.current, ModelsOf(DrainBy(mode, es, v).order)) <= Switches(v.current, ModelsOf(other))
  {
    var order := DrainBy(mode, es, v).order;
    DrainSwitches(mode, es, v);
    SwitchesAtLeast(v.current, ModelsOf(other));
    SameRange(order, other);
  }

  lemma SameRange(a: seq<Entry>, b: seq<Entry>)
    requires SameJobs(a, b)
    ensures Range(ModelsOf(a)) == Range(ModelsOf(b))
  {
    forall i | 0 <= i < |a| ensures a[i].model in Range(ModelsOf(b)) { Carry(a, b, i); }
    forall i | 0 <= i < |b| ensures b[i].model in Range(ModelsOf(a)) { Carry(b, a, i); }
  }

  lemma Carry(a: seq<Entry>, b: seq<Entry>, i: nat)
    requires i < |a| && Count(a, a[i]) == Count(b, a[i])
    ensures a[i].model in Range(ModelsOf(b))
  {
    CountIsMember(a, a[i]);
    CountIsMember(b, a[i]);
    var k :| 0 <= k < |b| && b[k] == a[i];
    assert ModelsOf(b)[k] == a[i].model;
  }

  // ---------------------------------------------------------------- the lines of a reachable state

  /** A call that has found a server for its model has a model with a name. */
  predicate NamedJob(j: JobRec) {
    || j.model != NO_MODEL || j.pc.Returned?
    || (j.total == 0 && (j.pc.Fresh? || j.pc.Checking? || (j.pc.Choosing? && forall i | 0 <= i < |j.pc.looks| :: !j.pc.looks[i])))
  }

  ghost predicate EverybodyNamed(st: State) {
    forall k: JobId | k < |st.jobs| :: NamedJob(st.jobs[k])
  }

  lemma MoveNamed(c: Config, st: State, j: JobRec, a: SubmitAct, j': JobRec)
    requires Orderly(c, st) && JobMove(c, st.servers, st.now, j, a) == Some(j') && NamedJob(j)
    ensures NamedJob(j')
  {
    forall s | 0 <= s < |st.servers| ensures NO_MODEL !in st.servers[s].models {
      assert SrvOrderly(c, st.stopping, st.servers[s], s);
    }
  }

  lemma NamedSub(c: Config, st: State, k: JobId, a: SubmitAct, st': State)
    requires Orderly(c, st) && EverybodyNamed(st) && SubmitStep(c, st, k, a) == Some(st')
    ensures EverybodyNamed(st')
  {
    assert NamedJob(st.jobs[k]);
    if !a.Place? && !a.Withdraw? && !a.Nudge? {
      MoveNamed(c, st, st.jobs[k], a, st'.jobs[k]);
    }
    assert NamedJob(st'.jobs[k]);
  }

  lemma NamedStep(c: Config, st: State, a: Action, st': State)
    requires Orderly(c, st) && EverybodyNamed(st) && Step(c, st, a) == Some(st')
    ensures EverybodyNamed(st')
  {
    if a.Sub? {
      NamedSub(c, st, a.k, a.sub, st');
    } else if a.Work? {
      WorkSameCalls(c, st, a.s, a.work, st');
    }
  }

  lemma {:induction false} NamedAfter(c: Config, st0: State, acts: seq<Action>, st: State)
    requires Init(st0) && After(c, st0, acts) == Some(st)
    ensures EverybodyNamed(st)
    decreases |acts|
  {
    if acts != [] {
      var mid := After(c, st0, acts[..|acts| - 1]).value;
      NamedAfter(c, st0, acts[..|acts| - 1], mid);
      SafeAfter(c, st0, acts[..|acts| - 1], mid);
      NamedStep(c, mid, acts[|acts| - 1], st);
    }
  }

  lemma LineIsNamed(c: Config, st: State, s: ServerId)
    requires Safe(c, st) && EverybodyNamed(st) && s < |st.servers|
    ensures AllNamed(Entries(st.jobs, Line(c, st, s)))
  {
    forall i | 0 <= i < |Line(c, st, s)| ensures ModelOf(st.jobs, Line(c, st, s)[i]) != NO_MODEL {
      var k := Line(c, st, s)[i];
      CountIsMember(Line(c, st, s), k);
      if c.mode.Push? { HeldAlone(st, s, k); } else { PooledAlone(st, k); }
      assert NamedJob(st.jobs[k]);
    }
  }

  /**
   Whatever has happened so far: from here on, a server that drains the line it looks at by its own rule
   loads no model twice and does not change its model more often than any other order would.
   */
  lemma BacklogDrainsOptimally(c: Config, st: State, s: ServerId, v: View, m: string, other: seq<Entry>)
    requires Reachable(c, st) && s < |st.servers|
    requires SameJobs(other, DrainBy(c.mode, Entries(st.jobs, Line(c, st, s)), v).order)
    ensures var order := DrainBy(c.mode, Entries(st.jobs, Line(c, st, s)), v).order;
            && Loads(v.current, ModelsOf(order), m) <= (if m == v.current then 0 else 1)
            && Switches(v.current, ModelsOf(order)) <= Switches(v.current, ModelsOf(other))
  {
    LineNamed(c, st, s);
    LoadsOnce(c.mode, Entries(st.jobs, Line(c, st, s)), v, m);
    DrainIsOptimal(c.mode, Entries(st.jobs, Line(c, st, s)), v, other);
  }

  lemma LineNamed(c: Config, st: State, s: ServerId)
    requires Reachable(c, st) && s < |st.servers|
    ensures AllNamed(Entries(st.jobs, Line(c, st, s)))
  {
    var st0: State, acts: seq<Action> :| Init(st0) && After(c, st0, acts) == Some(st);
    SafeAfter(c, st0, acts, st);
    NamedAfter(c, st0, acts, st);
    LineIsNamed(c, st, s);
  }
}
