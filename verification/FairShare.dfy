/**
 No starvation under fair share. With a limit N > 0 a server makes fewer than (a+1)*(N+1) pops while a
 job it may take stays in the pool, where `a` is the number of jobs it may take ahead of that job,
 whatever others remove and whatever arrives.
 */
module FairShare {
  import opened Wrappers
  import opened Selection
  import opened Machine
  import opened Conservation
  import opened Order

  // ---------------------------------------------------------------- on a sequence of waiting jobs

  function Ahead(es: seq<Entry>, v: View, i: nat): nat
    requires i <= |es|
  {
    if i == 0 then 0 else Ahead(es, v, i - 1) + if Takeable(es[i - 1], v) then 1 else 0
  }

  /** Some takeable job up to `i` is of the loaded model, or of another one. */
  predicate SomeUpTo(es: seq<Entry>, v: View, i: nat, loaded: bool) {
    exists x | 0 <= x < |es| :: x <= i && Takeable(es[x], v) && (es[x].model == v.current) == loaded
  }

  predicate Forced(v: View, streak: nat, limit: nat) {
    v.current != NO_MODEL && streak >= limit
  }

  /** The job the server takes next. */
  function FairShareIndexOf(es: seq<Entry>, v: View, streak: nat, limit: nat): Option<nat> {
    FairShareIndex(es, v, Forced(v, streak, limit))
  }

  /** How many pops may pass until one takes a job up to position `i`. */
  function Delay(es: seq<Entry>, v: View, i: nat, streak: nat, limit: nat): nat {
    if v.current == NO_MODEL then 1
    else if SomeUpTo(es, v, i, true) then if streak >= limit && !SomeUpTo(es, v, i, false) then limit + 1 else 1
    else if streak >= limit then 1 else limit - streak + 1
  }

  function Potential(es: seq<Entry>, v: View, i: nat, streak: nat, limit: nat): nat
    requires i <= |es|
  {
    Ahead(es, v, i) * (limit + 1) + Delay(es, v, i, streak, limit)
  }

  lemma {:induction false} AheadAgrees(es: seq<Entry>, fs: seq<Entry>, v: View, w: View, i: nat)
    requires i <= |es| && i <= |fs| && v.self == w.self && v.allowed == w.allowed
    requires forall x | 0 <= x < i :: es[x] == fs[x]
    ensures Ahead(es, v, i) == Ahead(fs, w, i)
  {
    if i > 0 {
      AheadAgrees(es, fs, v, w, i - 1);
    }
  }

  /** Where position `i` is after position `x` has gone. */
  function Shift(i: nat, x: nat): nat
    requires x != i
  {
    if x < i then i - 1 else i
  }

  lemma {:induction false} AheadWithout(es: seq<Entry>, v: View, w: View, i: nat, x: nat)
    requires i <= |es| && x < i && v.self == w.self && v.allowed == w.allowed
    ensures Ahead(Without(es, x), w, i - 1) + (if Takeable(es[x], v) then 1 else 0) == Ahead(es, v, i)
  {
    var fs := Without(es, x);
    if x == i - 1 {
      AheadAgrees(es, fs, v, w, i - 1);
    } else {
      AheadWithout(es, v, w, i - 1, x);
      assert fs[i - 2] == es[i - 1];
    }
  }

  lemma AheadAfter(es: seq<Entry>, v: View, w: View, i: nat, x: nat)
    requires i < |es| && x < |es| && x != i && v.self == w.self && v.allowed == w.allowed
    ensures Ahead(Without(es, x), w, Shift(i, x)) + (if x < i && Takeable(es[x], v) then 1 else 0) == Ahead(es, v, i)
  {
    if x < i {
      AheadWithout(es, v, w, i, x);
    } else {
      AheadAgrees(es, Without(es, x), v, w, i);
    }
  }

  lemma DelayBound(es: seq<Entry>, v: View, i: nat, streak: nat, limit: nat)
    requires v.current != NO_MODEL ==> streak > 0
    ensures 1 <= Delay(es, v, i, streak, limit) <= limit + 1
  {
  }

  /** Removing a job up to `i` that the server could take pays for any later delay. */
  lemma TakingAheadPays(es: seq<Entry>, v: View, i: nat, streak: nat, limit: nat, x: nat, w: View, streak': nat)
    requires i < |es| && x < i && Takeable(es[x], v) && v.self == w.self && v.allowed == w.allowed
    requires (v.current != NO_MODEL ==> streak > 0) && (w.current != NO_MODEL ==> streak' > 0)
    ensures Potential(Without(es, x), w, i - 1, streak', limit) < Potential(es, v, i, streak, limit)
  {
    AheadAfter(es, v, w, i, x);
    DelayBound(es, v, i, streak, limit);
    DelayBound(Without(es, x), w, i - 1, streak', limit);
    var a := Ahead(Without(es, x), w, i - 1);
    assert (a + 1) * (limit + 1) == a * (limit + 1) + (limit + 1);
  }

  /** Takeable jobs up to `i` reappear, under `f`, up to `j`. */
  lemma Carried(es: seq<Entry>, fs: seq<Entry>, v: View, i: nat, j: nat, f: int -> int, loaded: bool)
    requires i < |es| && j < |fs|
    requires forall x | 0 <= x <= i :: Takeable(es[x], v) ==> 0 <= f(x) <= j && fs[f(x)] == es[x]
    ensures SomeUpTo(es, v, i, loaded) ==> SomeUpTo(fs, v, j, loaded)
  {
    if SomeUpTo(es, v, i, loaded) {
      var x :| 0 <= x < |es| && x <= i && Takeable(es[x], v) && (es[x].model == v.current) == loaded;
      assert fs[f(x)] == es[x];
    }
  }

  lemma WithoutSameUpTo(es: seq<Entry>, v: View, i: nat, x: nat, loaded: bool)
    requires i < |es| && x < |es| && x != i && (x > i || !Takeable(es[x], v))
    ensures SomeUpTo(es, v, i, loaded) <==> SomeUpTo(Without(es, x), v, Shift(i, x), loaded)
  {
    var fs := Without(es, x);
    Carried(es, fs, v, i, Shift(i, x), y => if y < x then y else y - 1, loaded);
    Carried(fs, es, v, Shift(i, x), i, z => if z < x then z else z + 1, loaded);
  }

  /** Another worker or a cancelled call removes a job: the potential does not grow. */
  lemma OthersRemove(es: seq<Entry>, v: View, i: nat, streak: nat, limit: nat, x: nat)
    requires i < |es| && x < |es| && x != i && (v.current != NO_MODEL ==> streak > 0)
    ensures Potential(Without(es, x), v, Shift(i, x), streak, limit) <= Potential(es, v, i, streak, limit)
  {
    if x < i && Takeable(es[x], v) {
      TakingAheadPays(es, v, i, streak, limit, x, v, streak);
    } else {
      AheadAfter(es, v, v, i, x);
      WithoutSameUpTo(es, v, i, x, true);
      WithoutSameUpTo(es, v, i, x, false);
    }
  }

  /** An arrival changes nothing. */
  lemma OthersArrive(es: seq<Entry>, e: Entry, v: View, i: nat, streak: nat, limit: nat)
    requires i < |es|
    ensures Potential(es + [e], v, i, streak, limit) == Potential(es, v, i, streak, limit)
  {
    AheadAgrees(es, es + [e], v, v, i);
    forall loaded: bool ensures SomeUpTo(es, v, i, loaded) <==> SomeUpTo(es + [e], v, i, loaded) {
      Carried(es, es + [e], v, i, i, x => x, loaded);
      Carried(es + [e], es, v, i, i, x => x, loaded);
    }
  }

  // ---------------------------------------------------------------- the server's own pop

  function NextStreak(v: View, streak: nat, model: string): nat {
    if v.current == model then streak + 1 else 1
  }

  /** A pop that takes a job the server could not have been waiting for: the loaded model, behind `i` or not takeable. */
  lemma DrainCounts(es: seq<Entry>, v: View, i: nat, streak: nat, limit: nat, x: nat)
    requires i < |es| && x < |es| && x != i && v.current != NO_MODEL && streak > 0
    requires es[x].model == v.current && !SomeUpTo(es, v, i, true) && streak < limit
    ensures Potential(Without(es, x), v, Shift(i, x), streak + 1, limit) < Potential(es, v, i, streak, limit)
  {
    assert x > i || !Takeable(es[x], v);
    AheadAfter(es, v, v, i, x);
    WithoutSameUpTo(es, v, i, x, true);
  }

  /** A forced switch to a model that only waits behind `i`. */
  lemma SwitchCounts(es: seq<Entry>, v: View, i: nat, streak: nat, limit: nat, x: nat)
    requires i < |es| && i < x < |es| && Takeable(es[i], v) && v.current != NO_MODEL && streak >= limit > 0
    requires es[x].model != v.current && !SomeUpTo(es, v, i, false) && es[x].model != NO_MODEL
    ensures var w := v.(current := es[x].model);
            Potential(Without(es, x), w, i, 1, limit) < Potential(es, v, i, streak, limit)
  {
    var w := v.(current := es[x].model);
    var fs := Without(es, x);
    AheadAfter(es, v, w, i, x);
    assert es[i].model == v.current;
    assert forall y | 0 <= y < |fs| && y <= i :: Takeable(fs[y], w) ==> Takeable(es[y], v) && es[y] == fs[y];
  }

  /** The server's own pop: it takes job `i` itself, or the potential falls. */
  lemma OwnPopPays(es: seq<Entry>, v: View, i: nat, streak: nat, limit: nat)
    requires i < |es| && Takeable(es[i], v) && limit > 0 && NO_MODEL !in v.allowed
    requires v.current != NO_MODEL ==> streak > 0
    ensures var p := FairShareIndexOf(es, v, streak, limit);
            && p.Some?
            && (p.value != i ==>
                  var w := v.(current := es[p.value].model);
                  Potential(Without(es, p.value), w, Shift(i, p.value), NextStreak(v, streak, es[p.value].model), limit)
                  < Potential(es, v, i, streak, limit))
  {
    var p := FairShareIndexOf(es, v, streak, limit);
    assert p.Some? by { assert Takeable(es[i], v); }
    var x := p.value;
    var w := v.(current := es[x].model);
    if x != i {
      if x < i && Takeable(es[x], v) {
        TakingAheadPays(es, v, i, streak, limit, x, w, NextStreak(v, streak, es[x].model));
      } else if es[x].model == v.current {
        LoadedPopBehind(es, v, i, streak, limit, x);
        assert w == v;
        DrainCounts(es, v, i, streak, limit, x);
      } else {
        OtherPopBehind(es, v, i, streak, limit, x);
        SwitchCounts(es, v, i, streak, limit, x);
      }
    }
  }

  lemma LoadedPopBehind(es: seq<Entry>, v: View, i: nat, streak: nat, limit: nat, x: nat)
    requires i < |es| && Takeable(es[i], v) && limit > 0 && NO_MODEL !in v.allowed
    requires FairShareIndexOf(es, v, streak, limit) == Some(x)
    requires x != i && !(x < i && Takeable(es[x], v)) && es[x].model == v.current
    ensures v.current != NO_MODEL && !SomeUpTo(es, v, i, true) && streak < limit
  {
    assert forall y | 0 <= y <= i :: Takeable(es[y], v) && es[y].model == v.current ==> OfLoaded(es[y], v);
    assert es[i].model != v.current ==> Switching(es[i], v);
  }

  lemma OtherPopBehind(es: seq<Entry>, v: View, i: nat, streak: nat, limit: nat, x: nat)
    requires i < |es| && Takeable(es[i], v) && limit > 0 && NO_MODEL !in v.allowed
    requires FairShareIndexOf(es, v, streak, limit) == Some(x)
    requires x != i && !(x < i && Takeable(es[x], v)) && es[x].model != v.current
    ensures i < x && v.current != NO_MODEL && streak >= limit && !SomeUpTo(es, v, i, false) && es[x].model != NO_MODEL
  {
    assert forall y | 0 <= y <= i :: Takeable(es[y], v) && es[y].model != v.current ==> Switching(es[y], v);
    assert Switching(es[x], v);
  }
}
