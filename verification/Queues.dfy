/** A server's own queue and the result channels, as a worker and a Submit call update them. */
module Queues {
  import opened Wrappers
  import opened Selection
  import opened Machine
  import opened Servers
  import opened Pool

  /** Push mode: the first job of the loaded model, else the head, which is then the loaded model. */
  method PickNext(srv: ServerInfo) returns (r: Job?)
    modifies srv`queue, srv`currentModel
    ensures if srv.healthy then Cut(old(srv.queue), old(PushIndex(EntriesOf(srv.queue), srv.CurrentModelString())), srv.queue, r)
            else r == null && srv.queue == old(srv.queue)
    ensures srv.CurrentModelString() == if r == null then old(srv.CurrentModelString()) else r.model
  {
    if !srv.healthy { return null; }
    ghost var es := EntriesOf(srv.queue);
    if |srv.queue| == 0 { return null; }
    var current := srv.CurrentModelString();
    if current != NO_MODEL {
      for i := 0 to |srv.queue|
        invariant srv.queue == old(srv.queue) && srv.currentModel == old(srv.currentModel)
        invariant forall k | 0 <= k < i :: es[k].model != current
      {
        var j := srv.queue[i];
        if j.model == current {
          srv.queue := srv.queue[..i] + srv.queue[i + 1..];
          return j;
        }
      }
    }
    var first := srv.queue[0];
    srv.queue := srv.queue[1..];
    srv.SetCurrentModel(first.model);
    return first;
  }

  method CancelQueued(srv: ServerInfo, id: JobId) returns (ok: bool)
    modifies srv`queue
    ensures ok == IndexOf(Ids(old(srv.queue)), id).Some?
    ensures ok ==> srv.queue == Without(old(srv.queue), IndexOf(Ids(old(srv.queue)), id).value)
    ensures !ok ==> srv.queue == old(srv.queue)
  {
    for i := 0 to |srv.queue|
      invariant srv.queue == old(srv.queue)
      invariant forall k | 0 <= k < i :: Ids(srv.queue)[k] != id
    {
      if srv.queue[i].id == id {
        assert Ids(srv.queue)[i] == id;
        srv.queue := srv.queue[..i] + srv.queue[i + 1..];
        return true;
      }
    }
    return false;
  }

  function Offered(done: Option<Result>, res: Result): Option<Result> {
    if done.None? then Some(res) else done
  }

  /** Every job of the list is offered the result; a job that already has one keeps it. */
  method OfferAll(js: seq<Job>, res: Result)
    modifies js
    ensures forall j | j in js :: j.done == Offered(old(j.done), res) && j.visited == old(j.visited)
  {
    for i := 0 to |js|
      invariant forall j | j in js[..i] :: j.done == Offered(old(j.done), res)
      invariant forall j | j in js && j !in js[..i] :: j.done == old(j.done)
      invariant forall j | j in js :: j.visited == old(j.visited)
    {
      js[i].Offer(res);
      assert js[..i + 1] == js[..i] + [js[i]];
    }
    assert js[..|js|] == js;
  }

  /** A server that just went down empties its queue; every job in it learns so. */
  method FailServerQueue(srv: ServerInfo)
    modifies srv`queue, srv.queue
    ensures srv.queue == []
    ensures forall j | j in old(srv.queue) ::
              j.done == Offered(old(j.done), Result(Failed, false, false, Some(srv.name))) && j.visited == old(j.visited)
  {
    var queue := srv.queue;
    srv.queue := [];
    OfferAll(queue, Result(Failed, false, false, Some(srv.name)));
  }

  /** Shutdown: a worker empties its queue and, in pull mode, the pool everybody shares. */
  method FailPending(srv: ServerInfo, pool: JobPool?)
    requires pool != null ==> forall j | j in pool.jobs :: j !in srv.queue
    modifies srv`queue, srv.queue, pool, if pool != null then pool.jobs else []
    ensures srv.queue == [] && (pool != null ==> pool.jobs == [])
    ensures forall j | j in old(srv.queue) :: j.done == Offered(old(j.done), Result(Cancelled, false, false, None))
    ensures pool != null ==> forall j | j in old(pool.jobs) :: j.done == Offered(old(j.done), Result(Cancelled, false, false, None))
  {
    var queue := srv.queue;
    srv.queue := [];
    OfferAll(queue, Result(Cancelled, false, false, None));
    if pool != null {
      var drained := pool.DrainAll();
      OfferAll(drained, Result(Cancelled, false, false, None));
    }
  }
}
