/** The shared pool, updated in place, against the rules of `Selection`. */
module Pool {
  import opened Wrappers
  import opened Selection
  import opened Machine
  import opened Servers

  // ---------------------------------------------------------------- where the loops of a rule stop

  predicate NoLoaded(es: seq<Entry>, v: View, n: nat) {
    forall k | 0 <= k < n && k < |es| :: !OfLoaded(es[k], v)
  }

  predicate NoTakeable(es: seq<Entry>, v: View, n: nat) {
    forall k | 0 <= k < n && k < |es| :: !Takeable(es[k], v)
  }

  predicate NoSwitching(es: seq<Entry>, v: View, n: nat) {
    forall k | 0 <= k < n && k < |es| :: !Switching(es[k], v)
  }

  lemma StopsAtLoaded(es: seq<Entry>, v: View, i: nat)
    requires i < |es| && OfLoaded(es[i], v) && NoLoaded(es, v, i)
    ensures DeferredIndex(es, v) == Some(i)
  {
  }

  lemma StopsAtTakeable(es: seq<Entry>, v: View, i: nat)
    requires i < |es| && Takeable(es[i], v) && NoTakeable(es, v, i) && NoLoaded(es, v, |es|)
    ensures DeferredIndex(es, v) == Some(i)
  {
  }

  lemma StopsNowhere(es: seq<Entry>, v: View)
    requires NoTakeable(es, v, |es|) && NoLoaded(es, v, |es|)
    ensures DeferredIndex(es, v) == None
  {
  }

  lemma StopsAtSwitch(es: seq<Entry>, v: View, i: nat)
    requires i < |es| && Switching(es[i], v) && NoSwitching(es, v, i) && v.current != NO_MODEL
    ensures FairShareIndex(es, v, true) == Some(i)
  {
  }

  lemma NoSwitch(es: seq<Entry>, v: View, force: bool)
    requires force && v.current != NO_MODEL ==> NoSwitching(es, v, |es|)
    ensures FairShareIndex(es, v, force) == DeferredIndex(es, v)
  {
  }

  lemma StopsAtHead(es: seq<Entry>, v: View, other: bool, i: nat)
    requires i < |es| && Takeable(es[i], v) && NoTakeable(es, v, i)
    requires v.current == NO_MODEL || es[i].model == v.current || other || NoLoaded(es, v, |es|)
    ensures CoverageIndex(es, v, other) == Some(i)
  {
  }

  lemma StopsAtCover(es: seq<Entry>, v: View, head: nat, i: nat)
    requires head < |es| && Takeable(es[head], v) && NoTakeable(es, v, head)
    requires v.current != NO_MODEL && es[head].model != v.current
    requires i < |es| && OfLoaded(es[i], v) && NoLoaded(es, v, i)
    ensures CoverageIndex(es, v, false) == Some(i)
  {
  }

  lemma NothingToCover(es: seq<Entry>, v: View, other: bool)
    requires NoTakeable(es, v, |es|)
    ensures CoverageIndex(es, v, other) == None
  {
  }

  class JobPool {
    var jobs: seq<Job>

    constructor ()
      ensures jobs == []
    {
      jobs := [];
    }

    method Push(j: Job)
      modifies this`jobs
      ensures jobs == old(jobs) + [j]
    {
      jobs := jobs + [j];
    }

    /** Cut out the job at `i`; the order of the others stays. */
    method Take(i: nat) returns (j: Job)
      requires i < |jobs|
      modifies this`jobs
      ensures Cut(old(jobs), Some(i), jobs, j)
    {
      j := jobs[i];
      jobs := jobs[..i] + jobs[i + 1..];
    }

    /** The loop over the jobs of the loaded model. */
    method FindLoaded(srv: ServerInfo, current: string) returns (i: nat)
      requires current == srv.CurrentModelString()
      ensures i <= |jobs| && NoLoaded(EntriesOf(jobs), srv.AsView(), i)
      ensures i < |jobs| ==> OfLoaded(EntriesOf(jobs)[i], srv.AsView())
    {
      if current == NO_MODEL { return |jobs|; }
      ghost var es, v := EntriesOf(jobs), srv.AsView();
      for k := 0 to |jobs|
        invariant NoLoaded(es, v, k)
      {
        var j := jobs[k];
        if j.model != current || srv.name in j.visited { continue; }
        return k;
      }
      return |jobs|;
    }

    /** The loop over the jobs the server can do at all. */
    method FindCompatible(srv: ServerInfo, allowed: set<string>) returns (i: nat)
      requires allowed == srv.Allowed()
      ensures i <= |jobs| && NoTakeable(EntriesOf(jobs), srv.AsView(), i)
      ensures i < |jobs| ==> Takeable(EntriesOf(jobs)[i], srv.AsView())
    {
      ghost var es, v := EntriesOf(jobs), srv.AsView();
      for k := 0 to |jobs|
        invariant NoTakeable(es, v, k)
      {
        var j := jobs[k];
        if j.model !in allowed || srv.name in j.visited { continue; }
        return k;
      }
      return |jobs|;
    }

    /** The loop over the jobs of another model that the server can do. */
    method FindSwitch(srv: ServerInfo, allowed: set<string>, current: string) returns (i: nat)
      requires allowed == srv.Allowed() && current == srv.CurrentModelString()
      ensures i <= |jobs| && NoSwitching(EntriesOf(jobs), srv.AsView(), i)
      ensures i < |jobs| ==> Switching(EntriesOf(jobs)[i], srv.AsView())
    {
      ghost var es, v := EntriesOf(jobs), srv.AsView();
      for k := 0 to |jobs|
        invariant NoSwitching(es, v, k)
      {
        var j := jobs[k];
        if j.model !in allowed || j.model == current || srv.name in j.visited { continue; }
        return k;
      }
      return |jobs|;
    }

    method PopFor(srv: ServerInfo) returns (r: Job?)
      modifies this`jobs
      ensures if srv.healthy then Cut(old(jobs), old(DeferredIndex(EntriesOf(jobs), srv.AsView())), jobs, r)
              else r == null && jobs == old(jobs)
    {
      if !srv.healthy { return null; }
      var current := srv.CurrentModelString();
      var allowed := srv.ModelsSnapshot();
      ghost var es, v := EntriesOf(jobs), srv.AsView();
      var i := FindLoaded(srv, current);
      if i < |jobs| {
        StopsAtLoaded(es, v, i);
        r := Take(i);
        return;
      }
      i := FindCompatible(srv, allowed);
      if i < |jobs| {
        StopsAtTakeable(es, v, i);
        r := Take(i);
        return;
      }
      StopsNowhere(es, v);
      return null;
    }

    /**
     Below the limit, or without one, as `PopFor`: a loaded model is not left while it has jobs to take. With the
     limit reached the first job of another model goes first, if there is one.
     */
    method PopForFairShare(srv: ServerInfo, maxConsecutive: int) returns (r: Job?)
      modifies this`jobs
      ensures !srv.healthy ==> r == null && jobs == old(jobs)
      ensures srv.healthy && (maxConsecutive <= 0 || srv.consecutiveModelCount < maxConsecutive) ==>
                Cut(old(jobs), old(DeferredIndex(EntriesOf(jobs), srv.AsView())), jobs, r)
      ensures srv.healthy && maxConsecutive > 0 && srv.consecutiveModelCount >= maxConsecutive
              && srv.lastDispatchedModel != NO_MODEL && srv.CurrentModelString() != NO_MODEL ==>
                forall i: nat | old(i < |jobs| && Switching(EntriesOf(jobs)[i], srv.AsView()) && NoSwitching(EntriesOf(jobs), srv.AsView(), i)) ::
                  Cut(old(jobs), Some(i), jobs, r)
      ensures srv.healthy && old(NoSwitching(EntriesOf(jobs), srv.AsView(), |jobs|)) ==>
                Cut(old(jobs), old(DeferredIndex(EntriesOf(jobs), srv.AsView())), jobs, r)
      ensures forall c: Config | srv.healthy && c.mode == FairShare(maxConsecutive) ::
                Cut(old(jobs), old(FairShareIndex(EntriesOf(jobs), srv.AsView(), ForcesSwitch(c, srv.Shape(Awake, Idle, 0)))), jobs, r)
    {
      if !srv.healthy { return null; }
      var current := srv.CurrentModelString();
      var allowed := srv.ModelsSnapshot();
      var forceSwitch := maxConsecutive > 0 && srv.lastDispatchedModel != NO_MODEL
                         && srv.consecutiveModelCount >= maxConsecutive;
      ghost var es, v := EntriesOf(jobs), srv.AsView();
      if forceSwitch && current != NO_MODEL {
        var i := FindSwitch(srv, allowed, current);
        if i < |jobs| {
          StopsAtSwitch(es, v, i);
          r := Take(i);
          return;
        }
      }
      NoSwitch(es, v, forceSwitch);
      r := PopFor(srv);
    }

    method PopForCoverage(srv: ServerInfo, allServers: seq<ServerInfo>) returns (r: Job?)
      modifies this`jobs
      ensures if srv.healthy then
                Cut(old(jobs), old(CoverageIndex(EntriesOf(jobs), srv.AsView(), Covers(allServers, srv))), jobs, r)
              else r == null && jobs == old(jobs)
    {
      if !srv.healthy { return null; }
      var current := srv.CurrentModelString();
      var allowed := srv.ModelsSnapshot();
      ghost var es, v := EntriesOf(jobs), srv.AsView();
      var headIdx := FindCompatible(srv, allowed);
      if headIdx == |jobs| {
        NothingToCover(es, v, Covers(allServers, srv));
        return null;
      }
      var otherHasCurrent := OtherHasCurrent(allServers, srv, current);
      if current == NO_MODEL || jobs[headIdx].model == current || otherHasCurrent {
        StopsAtHead(es, v, otherHasCurrent, headIdx);
        r := Take(headIdx);
        return;
      }
      var i := FindLoaded(srv, current);
      if i < |jobs| {
        StopsAtCover(es, v, headIdx, i);
        r := Take(i);
        return;
      }
      StopsAtHead(es, v, otherHasCurrent, headIdx);
      r := Take(headIdx);
    }

    method Remove(id: JobId) returns (ok: bool)
      modifies this`jobs
      ensures ok == IndexOf(Ids(old(jobs)), id).Some?
      ensures ok ==> jobs == Without(old(jobs), IndexOf(Ids(old(jobs)), id).value)
      ensures !ok ==> jobs == old(jobs)
    {
      for i := 0 to |jobs|
        invariant jobs == old(jobs)
        invariant forall k | 0 <= k < i :: Ids(jobs)[k] != id
      {
        if jobs[i].id == id {
          assert Ids(jobs)[i] == id;
          jobs := jobs[..i] + jobs[i + 1..];
          return true;
        }
      }
      return false;
    }

    /** Each mark replaces the one before. */
    method MarkVisited(j: Job, server: ServerId)
      modifies j`visited
      ensures j.visited == {server}
    {
      j.visited := {server};
    }

    method ClearVisited(j: Job)
      modifies j`visited
      ensures j.visited == {}
    {
      j.visited := {};
    }

    method DrainAll() returns (out: seq<Job>)
      modifies this`jobs
      ensures out == old(jobs) && jobs == []
    {
      out := jobs;
      jobs := [];
    }
  }

  /** Another healthy server has the model that `srv` has loaded. */
  ghost predicate Covers(all: seq<ServerInfo>, srv: ServerInfo)
    reads srv, all
  {
    exists t | 0 <= t < |all| :: all[t] != srv && all[t].healthy && all[t].CurrentModelString() == srv.CurrentModelString()
  }

  method OtherHasCurrent(all: seq<ServerInfo>, srv: ServerInfo, current: string) returns (r: bool)
    requires current == srv.CurrentModelString()
    ensures r <==> exists t | 0 <= t < |all| :: all[t] != srv && all[t].healthy && all[t].CurrentModelString() == srv.CurrentModelString()
    ensures r <==> Covers(all, srv)
  {
    for t := 0 to |all|
      invariant forall u | 0 <= u < t :: !(all[u] != srv && all[u].healthy && all[u].CurrentModelString() == current)
    {
      if all[t] != srv && all[t].healthy && all[t].CurrentModelString() == current { return true; }
    }
    return false;
  }

  // ---------------------------------------------------------------- what a submitter asks of the servers

  predicate Compatible(srv: ServerInfo, model: string, visited: set<ServerId>)
    reads srv
  {
    srv.healthy && srv.name !in visited && model in srv.models
  }

  method AnyHealthyCompatible(servers: seq<ServerInfo>, model: string, visited: set<ServerId>) returns (r: bool)
    ensures r <==> exists s | 0 <= s < |servers| :: servers[s].healthy && servers[s].name !in visited && model in servers[s].models
  {
    for s := 0 to |servers|
      invariant forall t | 0 <= t < s :: !Compatible(servers[t], model, visited)
    {
      var srv := servers[s];
      if !srv.healthy || srv.name in visited { continue; }
      var has := srv.HasModel(model);
      if has { return true; }
    }
    return false;
  }

  predicate IdleFor(srv: ServerInfo, model: string, visited: set<ServerId>)
    reads srv
  {
    Compatible(srv, model, visited) && !srv.inFlight
  }

  /** The first idle server of the least priority value, or null when none is idle. */
  method PickIdleByPriority(servers: seq<ServerInfo>, model: string, visited: set<ServerId>) returns (r: ServerInfo?)
    ensures r == null <==> forall s | 0 <= s < |servers| ::
              !(servers[s].healthy && !servers[s].inFlight && servers[s].name !in visited && model in servers[s].models)
    ensures r != null ==> r.healthy && !r.inFlight && r.name !in visited && model in r.models
    ensures r != null ==> exists b | 0 <= b < |servers| ::
              && r == servers[b] && IdleFor(r, model, visited)
              && (forall s | 0 <= s < |servers| :: IdleFor(servers[s], model, visited) ==> r.priority <= servers[s].priority)
              && (forall s | 0 <= s < b :: IdleFor(servers[s], model, visited) ==> r.priority < servers[s].priority)
  {
    r := null;
    ghost var b := 0;
    for s := 0 to |servers|
      invariant r == null ==> forall t | 0 <= t < s :: !IdleFor(servers[t], model, visited)
      invariant r != null ==> b < s && r == servers[b] && IdleFor(r, model, visited)
      invariant r != null ==> forall t | 0 <= t < s :: IdleFor(servers[t], model, visited) ==> r.priority <= servers[t].priority
      invariant r != null ==> forall t | 0 <= t < b :: IdleFor(servers[t], model, visited) ==> r.priority < servers[t].priority
    {
      var srv := servers[s];
      if !srv.healthy || srv.inFlight || srv.name in visited { continue; }
      var has := srv.HasModel(model);
      if has && (r == null || srv.priority < r.priority) {
        r, b := srv, s;
      }
    }
  }
}
