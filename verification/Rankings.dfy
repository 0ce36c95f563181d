/** Names with counts, by count descending and then by name: there is one such order, however the counts came about. */
module Rankings {
  import opened TimeText

  datatype NameCount = NameCount(name: string, count: int)

  /** The order of sortedCounts; names compare byte by byte. */
  predicate Goes(a: NameCount, b: NameCount) {
    a.count > b.count || (a.count == b.count && Less(a.name, b.name))
  }

  lemma {:induction false} Trichotomy(s: string, t: string)
    ensures Less(s, t) || Less(t, s) || s == t
  {
    if s != [] && t != [] && s[0] == t[0] {
      Trichotomy(s[1..], t[1..]);
      assert s == [s[0]] + s[1..] && t == [t[0]] + t[1..];
    }
  }

  lemma {:induction false} Transitive(s: string, t: string, u: string)
    requires Less(s, t) && Less(t, u)
    ensures Less(s, u)
  {
    if s != [] && s[0] == t[0] && t[0] == u[0] {
      Transitive(s[1..], t[1..], u[1..]);
    }
  }

  lemma GoesTransitive(a: NameCount, b: NameCount, c: NameCount)
    requires Goes(a, b) && Goes(b, c)
    ensures Goes(a, c)
  {
    if a.count == b.count == c.count { Transitive(a.name, b.name, c.name); }
  }

  lemma GoesOneWay(a: NameCount, b: NameCount)
    requires Goes(a, b)
    ensures !Goes(b, a) && a != b
  {
    if a.count == b.count { Asymmetric(b.name, a.name); }
  }

  predicate Ranked(out: seq<NameCount>) {
    forall i, j | 0 <= i < j < |out| :: Goes(out[i], out[j])
  }

  /** The entries of a map, each once. */
  predicate Lists(out: seq<NameCount>, m: map<string, int>) {
    && (forall i | 0 <= i < |out| :: out[i].name in m && m[out[i].name] == out[i].count)
    && (forall k | k in m :: NameCount(k, m[k]) in out)
  }

  predicate RankingOf(out: seq<NameCount>, m: map<string, int>) {
    Ranked(out) && Lists(out, m)
  }

  lemma FirstGoesBefore(a: seq<NameCount>, e: NameCount)
    requires Ranked(a) && e in a
    ensures e == a[0] || Goes(a[0], e)
  {
  }

  /** Both lists hold the same entries, so their first ones are the same. */
  lemma SameFirst(a: seq<NameCount>, b: seq<NameCount>)
    requires Ranked(a) && Ranked(b) && a != [] && forall e :: e in a <==> e in b
    ensures b != [] && a[0] == b[0]
  {
    assert a[0] in b;
    FirstGoesBefore(b, a[0]);
    FirstGoesBefore(a, b[0]);
    if Goes(a[0], b[0]) { GoesOneWay(a[0], b[0]); }
  }

  lemma FirstIsNotLater(a: seq<NameCount>)
    requires Ranked(a) && a != []
    ensures Ranked(a[1..]) && a[0] !in a[1..]
    ensures forall e :: e in a <==> e == a[0] || e in a[1..]
  {
    assert a == [a[0]] + a[1..];
    if a[0] in a[1..] {
      var i :| 0 <= i < |a[1..]| && a[1..][i] == a[0];
      assert Goes(a[0], a[i + 1]);
      GoesOneWay(a[0], a[i + 1]);
    }
  }

  lemma {:induction false} SameEntriesSameOrder(a: seq<NameCount>, b: seq<NameCount>)
    requires Ranked(a) && Ranked(b) && forall e :: e in a <==> e in b
    ensures a == b
  {
    if a == [] {
      assert forall i | 0 <= i < |b| :: b[i] in a;
    } else {
      SameFirst(a, b);
      FirstIsNotLater(a);
      FirstIsNotLater(b);
      SameEntriesSameOrder(a[1..], b[1..]);
    }
  }

  /** There is exactly one ranking of a map. */
  lemma RankingIsUnique(a: seq<NameCount>, b: seq<NameCount>, m: map<string, int>)
    requires RankingOf(a, m) && RankingOf(b, m)
    ensures a == b
  {
    forall e ensures e in a <==> e in b {
      if e in a { assert e == NameCount(e.name, m[e.name]); }
      if e in b { assert e == NameCount(e.name, m[e.name]); }
    }
    SameEntriesSameOrder(a, b);
  }

  /** Where `e` belongs among ranked entries. */
  method Place(out: seq<NameCount>, e: NameCount) returns (i: nat)
    requires Ranked(out) && forall k | 0 <= k < |out| :: out[k].name != e.name
    ensures i <= |out|
    ensures forall k | 0 <= k < i :: Goes(out[k], e)
    ensures forall k | i <= k < |out| :: Goes(e, out[k])
  {
    i := 0;
    while i < |out| && Goes(out[i], e)
      invariant i <= |out| && forall k | 0 <= k < i :: Goes(out[k], e)
    {
      i := i + 1;
    }
    if i < |out| {
      Trichotomy(out[i].name, e.name);
      forall k | i <= k < |out| ensures Goes(e, out[k]) {
        if k > i { GoesTransitive(e, out[i], out[k]); }
      }
    }
  }

  method Insert(out: seq<NameCount>, e: NameCount) returns (r: seq<NameCount>)
    requires Ranked(out) && forall k | 0 <= k < |out| :: out[k].name != e.name
    ensures Ranked(r) && forall x :: x in r <==> x in out || x == e
  {
    var i := Place(out, e);
    r := out[..i] + [e] + out[i..];
    assert out == out[..i] + out[i..];
  }

  /** Insertion in rank order; the result does not depend on the order in which the map is read. */
  method SortedCounts(m: map<string, int>) returns (out: seq<NameCount>)
    ensures RankingOf(out, m)
    ensures forall i, j | 0 <= i < j < |out| ::
              out[i].count > out[j].count || (out[i].count == out[j].count && Less(out[i].name, out[j].name))
  {
    out := [];
    var keys := m.Keys;
    while keys != {}
      invariant keys <= m.Keys && Ranked(out)
      invariant forall x :: x in out <==> x.name in m && x.name !in keys && x.count == m[x.name]
      decreases |keys|
    {
      var k :| k in keys;
      assert forall i | 0 <= i < |out| :: out[i] in out;
      out := Insert(out, NameCount(k, m[k]));
      keys := keys - {k};
    }
    assert forall i | 0 <= i < |out| :: out[i] in out;
  }
}
