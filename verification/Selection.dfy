/**
 The selection rules of the scheduler, as functions on the sequence of waiting jobs.
 A rule answers with the position of the job it would take. The classes in `Pool` are
 proved to implement these rules in place; the state machine in `Machine` steps by them.
 */
module Selection {
  import opened Wrappers

  // Configuration forbids two backends of the same name, so a backend is identified by a number.
  type ServerId = nat

  // CurrentModelString answers with the empty string when no model is loaded.
  const NO_MODEL: string := ""

  /** What a selection rule sees of a waiting job: its model and the servers it must avoid. */
  datatype Entry = Entry(model: string, visited: set<ServerId>)

  /** What a selection rule knows of the server it works for. */
  datatype View = View(self: ServerId, current: string, allowed: set<string>)

  datatype Mode = Push | Deferred | FairShare(limit: int) | Coverage

  predicate Takeable(e: Entry, v: View) {
    e.model in v.allowed && v.self !in e.visited
  }

  predicate OfLoaded(e: Entry, v: View) {
    v.current != NO_MODEL && e.model == v.current && v.self !in e.visited
  }

  predicate Switching(e: Entry, v: View) {
    Takeable(e, v) && e.model != v.current
  }

  /** The first position at or after `from` whose job satisfies `p`. */
  function FirstFrom(es: seq<Entry>, p: Entry -> bool, from: nat): (r: Option<nat>)
    requires from <= |es|
    ensures r.Some? ==> from <= r.value < |es| && p(es[r.value])
    ensures r.Some? ==> forall i | from <= i < r.value :: !p(es[i])
    ensures r.None? ==> forall i | from <= i < |es| :: !p(es[i])
    decreases |es| - from
  {
    if from == |es| then None else if p(es[from]) then Some(from) else FirstFrom(es, p, from + 1)
  }

  function First(es: seq<Entry>, p: Entry -> bool): (r: Option<nat>)
    ensures r.Some? ==> r.value < |es| && p(es[r.value])
    ensures r.Some? ==> forall i | 0 <= i < r.value :: !p(es[i])
    ensures r.None? ==> forall i | 0 <= i < |es| :: !p(es[i])
  {
    FirstFrom(es, p, 0)
  }

  /** Job `i` is the earliest of its model that does not exclude the server. */
  predicate EarliestOfItsModel(es: seq<Entry>, self: ServerId, i: nat)
    requires i < |es|
  {
    && self !in es[i].visited
    && forall k | 0 <= k < i :: es[k].model == es[i].model ==> self in es[k].visited
  }

  /** Taking job `i` makes the server leave a loaded model that still has jobs it could take. */
  predicate Abandons(es: seq<Entry>, v: View, i: nat)
    requires i < |es|
  {
    && es[i].model != v.current
    && exists k | 0 <= k < |es| :: OfLoaded(es[k], v)
  }

  /** Drain the loaded model first, in order; otherwise take the first compatible job. */
  function DeferredIndex(es: seq<Entry>, v: View): (r: Option<nat>)
    ensures r.None? <==> forall k | 0 <= k < |es| :: !OfLoaded(es[k], v) && !Takeable(es[k], v)
    ensures r.Some? ==> r.value < |es| && EarliestOfItsModel(es, v.self, r.value)
    ensures r.Some? ==> es[r.value].model in v.allowed + {v.current}
    ensures r.Some? ==> !Abandons(es, v, r.value)
  {
    match First(es, e => OfLoaded(e, v))
    case Some(i) => Some(i)
    case None => First(es, e => Takeable(e, v))
  }

  /** As `DeferredIndex`, but when `force` holds a compatible job of another model goes first. */
  function FairShareIndex(es: seq<Entry>, v: View, force: bool): (r: Option<nat>)
    ensures r.None? <==> forall k | 0 <= k < |es| :: !OfLoaded(es[k], v) && !Takeable(es[k], v)
    ensures r.Some? ==> r.value < |es| && EarliestOfItsModel(es, v.self, r.value)
    ensures r.Some? ==> es[r.value].model in v.allowed + {v.current}
    ensures r.Some? && Abandons(es, v, r.value) ==> force
    ensures !force ==> r == DeferredIndex(es, v)
  {
    if force && v.current != NO_MODEL && First(es, e => Switching(e, v)).Some? then
      First(es, e => Switching(e, v))
    else
      DeferredIndex(es, v)
  }

  /** Take the first compatible job, unless that would lose the only copy of the loaded model. */
  function CoverageIndex(es: seq<Entry>, v: View, otherHolds: bool): (r: Option<nat>)
    ensures r.None? <==> forall k | 0 <= k < |es| :: !Takeable(es[k], v)
    ensures r.Some? ==> r.value < |es| && EarliestOfItsModel(es, v.self, r.value)
    ensures r.Some? ==> es[r.value].model in v.allowed + {v.current}
    ensures r.Some? && Abandons(es, v, r.value) ==> otherHolds
    ensures r.Some? && otherHolds ==> forall k | 0 <= k < r.value :: !Takeable(es[k], v)
  {
    match First(es, e => Takeable(e, v))
    case None => None
    case Some(head) =>
      if v.current == NO_MODEL || es[head].model == v.current || otherHolds then Some(head)
      else match First(es, e => OfLoaded(e, v))
           case Some(i) => Some(i)
           case None => Some(head)
  }

  /** The push rule on a server's own queue: the first job of the loaded model, else the head. */
  function PushIndex(es: seq<Entry>, current: string): (r: Option<nat>)
    ensures r.None? <==> es == []
    ensures r.Some? ==> r.value < |es| && forall k | 0 <= k < r.value :: es[k].model != es[r.value].model
    ensures r.Some? && current != NO_MODEL && es[r.value].model != current ==>
              forall k | 0 <= k < |es| :: es[k].model != current
    ensures r.Some? && es[r.value].model != current ==> r.value == 0
  {
    if es == [] then None
    else if current != NO_MODEL && First(es, (e: Entry) => e.model == current).Some? then
      First(es, (e: Entry) => e.model == current)
    else Some(0)
  }

  /** The rule of each strategy, on the sequence its worker looks at. */
  function PopIndex(mode: Mode, es: seq<Entry>, v: View, force: bool, otherHolds: bool): (r: Option<nat>)
    ensures r.Some? ==> r.value < |es|
    ensures !mode.Push? && r.None? ==> forall k | 0 <= k < |es| :: !Takeable(es[k], v)
    ensures mode.Push? && r.None? ==> es == []
    ensures !mode.Push? && r.Some? ==> EarliestOfItsModel(es, v.self, r.value)
    ensures !mode.Push? && r.Some? ==> es[r.value].model in v.allowed + {v.current}
  {
    match mode
    case Push => PushIndex(es, v.current)
    case Deferred => DeferredIndex(es, v)
    case FairShare(_) => FairShareIndex(es, v, force)
    case Coverage => CoverageIndex(es, v, otherHolds)
  }

  /** The sequence without its element at `i`; the order of the others is kept. */
  function Without<T>(s: seq<T>, i: nat): (r: seq<T>)
    requires i < |s|
    ensures |r| == |s| - 1
  {
    s[..i] + s[i + 1..]
  }

  function Count<T(==)>(s: seq<T>, x: T): nat {
    if s == [] then 0 else (if s[0] == x then 1 else 0) + Count(s[1..], x)
  }

  lemma {:induction false} CountConcat<T>(s: seq<T>, t: seq<T>, x: T)
    ensures Count(s + t, x) == Count(s, x) + Count(t, x)
  {
    if s == [] {
      assert s + t == t;
    } else {
      assert (s + t)[1..] == s[1..] + t;
      CountConcat(s[1..], t, x);
    }
  }

  lemma {:induction false} CountWithout<T>(s: seq<T>, i: nat, x: T)
    requires i < |s|
    ensures Count(Without(s, i), x) + (if s[i] == x then 1 else 0) == Count(s, x)
  {
    if i == 0 {
      assert Without(s, 0) == s[1..];
    } else {
      CountWithout(s[1..], i - 1, x);
      assert Without(s, i)[1..] == Without(s[1..], i - 1);
    }
  }

  lemma {:induction false} CountMember<T>(s: seq<T>, i: nat)
    requires i < |s|
    ensures Count(s, s[i]) > 0
  {
    if i > 0 {
      assert s[1..][i - 1] == s[i];
      CountMember(s[1..], i - 1);
    }
  }

  lemma {:induction false} CountIsMember<T>(s: seq<T>, x: T)
    ensures Count(s, x) > 0 <==> x in s
  {
    if s != [] {
      CountIsMember(s[1..], x);
      assert s == [s[0]] + s[1..];
    }
  }
}
