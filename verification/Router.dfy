/** The push strategies: which server a Submit call hands its job to. */
module Router {
  import opened Backoff
  import opened Selection
  import opened Servers

  datatype Strategy = ModelAffinityLeastBusy | RoundRobin | LeastBusy

  predicate IsCandidate(srv: ServerInfo, model: string, exclude: set<ServerId>)
    reads srv
  {
    srv.name !in exclude && srv.healthy && model in srv.models
  }

  function Load(srv: ServerInfo): nat
    reads srv
  {
    |srv.queue| + if srv.inFlight then 1 else 0
  }

  /** `a` goes before `b` in the ranking: less load, then less priority. */
  predicate Before(a: ServerInfo, b: ServerInfo)
    reads a, b
  {
    Load(a) < Load(b) || (Load(a) == Load(b) && a.priority < b.priority)
  }

  /** The first of the servers that no other goes before. */
  ghost predicate Foremost(srv: ServerInfo, all: seq<ServerInfo>)
    reads srv, all
  {
    exists b | 0 <= b < |all| ::
      && srv == all[b]
      && (forall t | 0 <= t < |all| :: !Before(all[t], srv))
      && (forall t | 0 <= t < b :: Before(srv, all[t]))
  }

  /** Those of the servers that may take the model, in the same order. */
  ghost function Candidates(all: seq<ServerInfo>, model: string, exclude: set<ServerId>): (r: seq<ServerInfo>)
    reads all
    ensures forall i | 0 <= i < |r| :: r[i] in all && IsCandidate(r[i], model, exclude)
    ensures forall s | s in all :: IsCandidate(s, model, exclude) ==> s in r
  {
    if all == [] then []
    else Candidates(all[..|all| - 1], model, exclude)
         + if IsCandidate(all[|all| - 1], model, exclude) then [all[|all| - 1]] else []
  }

  ghost function Loaded(all: seq<ServerInfo>, model: string): (r: seq<ServerInfo>)
    reads all
    ensures forall i | 0 <= i < |r| :: r[i] in all && r[i].CurrentModelString() == model
    ensures forall s | s in all :: s.CurrentModelString() == model ==> s in r
  {
    if all == [] then []
    else Loaded(all[..|all| - 1], model) + if all[|all| - 1].CurrentModelString() == model then [all[|all| - 1]] else []
  }

  /** Queued jobs and the one in flight count; of equally busy servers the one of least priority value, of those the first. */
  method PickLeastBusy(candidates: seq<ServerInfo>) returns (srv: ServerInfo)
    requires candidates != []
    ensures srv in candidates && Foremost(srv, candidates)
    ensures forall t | 0 <= t < |candidates| ::
              var a := |srv.queue| + if srv.inFlight then 1 else 0;
              var b := |candidates[t].queue| + if candidates[t].inFlight then 1 else 0;
              a < b || (a == b && srv.priority <= candidates[t].priority)
  {
    srv := candidates[0];
    ghost var b := 0;
    for i := 1 to |candidates|
      invariant 0 <= b < i && srv == candidates[b]
      invariant forall t | 0 <= t < i :: !Before(candidates[t], srv)
      invariant forall t | 0 <= t < b :: Before(srv, candidates[t])
    {
      var load, best := Load(candidates[i]), Load(srv);
      if load < best || (load == best && candidates[i].priority < srv.priority) {
        srv, b := candidates[i], i;
      }
    }
  }

  method PickModelAffinityLeastBusy(model: string, candidates: seq<ServerInfo>) returns (srv: ServerInfo)
    requires candidates != []
    ensures Foremost(srv, if Loaded(candidates, model) != [] then Loaded(candidates, model) else candidates)
    ensures srv in candidates
    ensures (exists s :: s in candidates && s.CurrentModelString() == model) ==> srv.CurrentModelString() == model
    ensures forall s | s in candidates && s.CurrentModelString() == srv.CurrentModelString() ::
              var a, b := |srv.queue| + (if srv.inFlight then 1 else 0), |s.queue| + (if s.inFlight then 1 else 0);
              a < b || (a == b && srv.priority <= s.priority)
  {
    var preferred, others: seq<ServerInfo> := [], [];
    for i := 0 to |candidates|
      invariant preferred == Loaded(candidates[..i], model)
      invariant preferred == [] ==> others == candidates[..i]
    {
      assert candidates[..i + 1][..i] == candidates[..i];
      if candidates[i].CurrentModelString() == model {
        preferred := preferred + [candidates[i]];
      } else {
        others := others + [candidates[i]];
      }
    }
    assert candidates[..|candidates|] == candidates;
    if |preferred| > 0 {
      srv := PickLeastBusy(preferred);
    } else {
      srv := PickLeastBusy(others);
    }
  }

  predicate InRegister(x: int) {
    -TWO_63 <= x < TWO_63
  }

  /** The remainder of the program, which has the sign of the dividend. */
  function Index(x: int, n: nat): (i: int)
    requires n > 0
    ensures 0 < n + i && i < n
    ensures x >= 0 ==> i == x % n
    ensures i < 0 <==> x < 0 && -x % n != 0
  {
    if x >= 0 then x % n else -(-x % n)
  }

  /** The old value of the counter is what the new one less one is. */
  lemma WrapBack(x: int)
    requires InRegister(x)
    ensures InRegister(Wrap64(x + 1)) && Wrap64(Wrap64(x + 1) - 1) == x
  {
    WrapIs(x + 1);
    WrapIs(Wrap64(x + 1) - 1);
  }

  lemma WrapIs(x: int)
    requires -TWO_63 - 1 <= x <= TWO_63
    ensures Wrap64(x) == if x == TWO_63 then -TWO_63 else if x == -TWO_63 - 1 then TWO_63 - 1 else x
  {
  }

  class Router {
    const servers: seq<ServerInfo>
    const strategy: Strategy
    var rrIdx: int

    constructor (servers: seq<ServerInfo>, strategy: Strategy)
      ensures this.servers == servers && this.strategy == strategy && rrIdx == 0
    {
      this.servers, this.strategy, rrIdx := servers, strategy, 0;
    }

    method CandidatesFor(model: string, exclude: set<ServerId>) returns (out: seq<ServerInfo>)
      ensures out == Candidates(servers, model, exclude)
    {
      out := [];
      for i := 0 to |servers|
        invariant out == Candidates(servers[..i], model, exclude)
      {
        assert servers[..i + 1][..i] == servers[..i];
        var s := servers[i];
        if s.name in exclude || !s.healthy { continue; }
        var has := s.HasModel(model);
        if has {
          out := out + [s];
        }
      }
      assert servers[..|servers|] == servers;
    }

    method PickRoundRobin(candidates: seq<ServerInfo>) returns (srv: ServerInfo?, panicked: bool)
      requires InRegister(rrIdx) && candidates != []
      modifies this`rrIdx
      ensures InRegister(rrIdx) && rrIdx == Wrap64(old(rrIdx) + 1)
      ensures panicked <==> Index(old(rrIdx), |candidates|) < 0
      ensures panicked <==> srv == null
      ensures !panicked ==> srv == candidates[Index(old(rrIdx), |candidates|)]
    {
      WrapBack(rrIdx);
      rrIdx := Wrap64(rrIdx + 1);
      var idx := Index(Wrap64(rrIdx - 1), |candidates|);
      if idx < 0 { return null, true; }
      return candidates[idx], false;
    }

    /**
     No server when there is no candidate; otherwise the strategy's choice among them. Round robin panics when its
     64-bit counter has wrapped and the index is negative.
     */
    method Pick(model: string, exclude: set<ServerId>) returns (srv: ServerInfo?, panicked: bool)
      requires InRegister(rrIdx)
      modifies this`rrIdx
      ensures InRegister(rrIdx)
      ensures panicked <==> var cs := Candidates(servers, model, exclude); strategy.RoundRobin? && cs != [] && Index(old(rrIdx), |cs|) < 0
      ensures srv == null <==> panicked || forall s | s in servers :: !(s.healthy && s.name !in exclude && model in s.models)
      ensures srv != null ==> srv in servers && srv.healthy && srv.name !in exclude && model in srv.models
      ensures srv != null && strategy.RoundRobin? ==>
                var cs := Candidates(servers, model, exclude);
                srv == cs[Index(old(rrIdx), |cs|)]
      ensures srv != null && strategy.LeastBusy? ==> Foremost(srv, Candidates(servers, model, exclude))
      ensures srv != null && strategy.ModelAffinityLeastBusy? ==>
                var cs := Candidates(servers, model, exclude);
                Foremost(srv, if Loaded(cs, model) != [] then Loaded(cs, model) else cs)
      ensures rrIdx == if strategy.RoundRobin? && Candidates(servers, model, exclude) != [] then Wrap64(old(rrIdx) + 1) else old(rrIdx)
    {
      var candidates := CandidatesFor(model, exclude);
      panicked := false;
      if |candidates| == 0 { return null, false; }
      assert candidates[0] in servers;
      match strategy {
        case RoundRobin =>
          srv, panicked := PickRoundRobin(candidates);
        case LeastBusy =>
          srv := PickLeastBusy(candidates);
        case ModelAffinityLeastBusy =>
          srv := PickModelAffinityLeastBusy(model, candidates);
      }
    }
  }

  /** The candidate that the pick number `start + u` answers with. */
  function Turn(start: nat, u: nat, n: nat): nat
    requires n > 0
  {
    (start + u) % n
  }

  lemma NonZeroMultiple(d: int, n: int)
    requires d != 0 && n > 0
    ensures d * n >= n || d * n <= -n
  {
  }

  lemma RemainderIs(x: int, q: int, n: nat, r: nat)
    requires r < n && x == q * n + r
    ensures x % n == r
  {
    var d := x / n - q;
    assert x == (x / n) * n + x % n;
    assert d * n == r - x % n;
    if d != 0 { NonZeroMultiple(d, n); }
  }

  lemma TurnIs(start: nat, u: nat, n: nat)
    requires u < n
    ensures Turn(start, u, n) == if start % n + u < n then start % n + u else start % n + u - n
  {
    var q, r := start / n, start % n;
    assert start == q * n + r;
    if r + u < n {
      RemainderIs(start + u, q, n, r + u);
    } else {
      assert start + u == (q + 1) * n + (r + u - n);
      RemainderIs(start + u, q + 1, n, r + u - n);
    }
  }

  /** Pick number `k` panics exactly when the counter has wrapped and the distance to the next wrap is no multiple of `n`. */
  lemma PickPanicsIff(k: nat, n: nat)
    requires n > 0 && k < 2 * TWO_63
    ensures Index(Wrap64(k), n) < 0 <==> k >= TWO_63 && (2 * TWO_63 - k) % n != 0
    ensures k < TWO_63 ==> Index(Wrap64(k), n) == Turn(k, 0, n)
  {
    assert Wrap64(k) == if k < TWO_63 then k else k - 2 * TWO_63;
  }

  /** Over `n` picks in a row among the same `n` candidates, round robin gives each exactly one turn. */
  lemma RoundRobinTurn(start: nat, n: nat, i: nat)
    requires i < n
    ensures exists t: nat | t < n :: Turn(start, t, n) == i && forall u: nat | u < n :: Turn(start, u, n) == i ==> u == t
  {
    var r := start % n;
    var t: nat := if i >= r then i - r else i - r + n;
    TurnIs(start, t, n);
    forall u: nat | u < n ensures Turn(start, u, n) == i ==> u == t {
      TurnIs(start, u, n);
    }
  }
}
