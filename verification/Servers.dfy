/**
 The objects the scheduler updates in place: jobs and servers. Each method is tied to the step of
 the machine that stands for it: `Shape` is what the machine sees of a server.
 */
module Servers {
  import opened Wrappers
  import opened Selection
  import opened Machine

  /** The parts of a Job that other goroutines touch; `done` is the one-slot result channel. */
  class Job {
    const id: JobId
    const model: string
    var visited: set<ServerId>
    var done: Option<Result>

    constructor (id: JobId, model: string)
      ensures this.id == id && this.model == model && visited == {} && done == None
    {
      this.id, this.model := id, model;
      visited, done := {}, None;
    }

    /** A send that gives up when the slot is full. */
    method Offer(res: Result)
      modifies this`done
      ensures done == if old(done).None? then Some(res) else old(done)
    {
      if done.None? {
        done := Some(res);
      }
    }
  }

  ghost function EntriesOf(js: seq<Job>): (es: seq<Entry>)
    reads js
    ensures |es| == |js|
    ensures forall i | 0 <= i < |js| :: es[i] == Entry(js[i].model, js[i].visited)
  {
    seq(|js|, i requires 0 <= i < |js| reads js => Entry(js[i].model, js[i].visited))
  }

  function Ids(js: seq<Job>): (ids: seq<JobId>)
    ensures |ids| == |js|
  {
    seq(|js|, i requires 0 <= i < |js| => js[i].id)
  }

  /** Job `r`, found at position `i`, was cut out of `before`; None stands for "no job". */
  predicate Cut(before: seq<Job>, i: Option<nat>, after: seq<Job>, r: Job?) {
    match i
    case None => r == null && after == before
    case Some(p) => p < |before| && r == before[p] && after == Without(before, p)
  }

  class ServerInfo {
    const name: ServerId
    const priority: int
    var healthy: bool
    var inFlight: bool
    var currentModel: Option<string>
    var models: seq<string>
    var queue: seq<Job>
    var notify: bool
    var lastDispatchedModel: string
    var consecutiveModelCount: nat

    constructor (name: ServerId, priority: int)
      ensures this.name == name && this.priority == priority
      ensures Shape(Asleep, Idle, 0) == Srv(false, NO_MODEL, {}, [], false, false, NO_MODEL, 0, priority, Asleep, Idle, 0)
    {
      this.name, this.priority := name, priority;
      healthy, inFlight, currentModel, notify := false, false, None, false;
      models, queue := [], [];
      lastDispatchedModel, consecutiveModelCount := NO_MODEL, 0;
    }

    function CurrentModelString(): string
      reads this
    {
      match currentModel
      case None => NO_MODEL
      case Some(m) => m
    }

    ghost function Allowed(): set<string>
      reads this
    {
      set m | m in models
    }

    ghost function AsView(): View
      reads this
    {
      View(name, CurrentModelString(), Allowed())
    }

    /** The machine's picture of this server, its worker and its poller standing at the given points. */
    ghost function Shape(worker: Worker, poller: Poller, failedPolls: nat): Srv
      reads this
    {
      Srv(healthy, CurrentModelString(), Allowed(), Ids(queue), notify, inFlight, lastDispatchedModel,
          consecutiveModelCount, priority, worker, poller, failedPolls)
    }

    /** A send on a channel of capacity one that never blocks: a second wake is absorbed by the first. */
    method Wake()
      modifies this`notify
      ensures notify
    {
      if !notify {
        notify := true;
      }
    }

    method SetCurrentModel(model: string)
      modifies this`currentModel
      ensures CurrentModelString() == model
    {
      if model == NO_MODEL {
        currentModel := None;
      } else {
        currentModel := Some(model);
      }
    }

    method ModelsSnapshot() returns (out: set<string>)
      ensures out == Allowed()
    {
      out := {};
      for i := 0 to |models|
        invariant out == set m | m in models[..i]
      {
        out := out + {models[i]};
        assert models[..i + 1] == models[..i] + [models[i]];
      }
      assert models[..|models|] == models;
    }

    method HasModel(model: string) returns (r: bool)
      ensures r <==> model in Allowed()
    {
      for i := 0 to |models|
        invariant model !in models[..i]
      {
        if models[i] == model { return true; }
      }
      return false;
    }

    /** The reaction to a job just taken: the loaded model, the streak, the in-flight flag. */
    method MarkDispatched(j: Job)
      requires !inFlight
      modifies this
      ensures Shape(Marked(j.id), Idle, 0) == Dispatched(old(Shape(Holding(j.id), Idle, 0)), j.id, j.model)
    {
      if CurrentModelString() != j.model {
        SetCurrentModel(j.model);
      }
      if lastDispatchedModel == j.model {
        consecutiveModelCount := consecutiveModelCount + 1;
      } else {
        lastDispatchedModel := j.model;
        consecutiveModelCount := 1;
      }
      inFlight := true;
    }
  }

  /** toModelInfos drops empty names. */
  method ToModelInfos(names: seq<string>) returns (out: seq<string>)
    ensures (set m | m in out) == (set m | m in names && m != NO_MODEL)
  {
    out := [];
    for i := 0 to |names|
      invariant forall m :: m in out <==> m in names[..i] && m != NO_MODEL
    {
      if names[i] != NO_MODEL {
        out := out + [names[i]];
      }
    }
  }

  datatype Answer = Models(names: seq<string>) | Unreachable | WrongShape

  /** One server as discovery knows it. */
  class DiscoveryEntry {
    const server: ServerInfo
    const explicitModels: seq<string>
    var failedPolls: nat

    /** AddServer: with a configured list the server has those models before the first poll. */
    constructor (server: ServerInfo, explicitModels: seq<string>)
      modifies server`models
      ensures this.server == server && this.explicitModels == explicitModels && failedPolls == 0
      ensures server.Allowed() == if explicitModels != [] then set m | m in explicitModels && m != NO_MODEL else old(server.Allowed())
    {
      this.server, this.explicitModels := server, explicitModels;
      failedPolls := 0;
      new;
      if explicitModels != [] {
        var infos := ToModelInfos(explicitModels);
        server.models := infos;
      }
    }

    /** What one undisturbed poll makes of a server: the machine's poll acts from Idle back to Idle. */
    ghost function Polled(c: Config, sv: Srv, ans: Answer): Option<Srv> {
      match ans
      case Unreachable => PollMove(c, server.name, sv, PollFail)
      case WrongShape =>
        if explicitModels == [] then PollMove(c, server.name, sv, PollFail)
        else Then(c, Then(c, PollMove(c, server.name, sv, ShapeLoad), ShapeStore), PollWake)
      case Models(names) =>
        Then(c, Then(c, PollMove(c, server.name, sv, PollOk), PollWake), PollList(set m | m in names && m != NO_MODEL))
    }

    /** The next act of the poll, unless the poll is over or has nothing to do at this point. */
    ghost function Then(c: Config, sv: Option<Srv>, a: PollAct): Option<Srv> {
      if sv.None? || sv.value.poller.Idle? || PollMove(c, server.name, sv.value, a).None? then sv
      else PollMove(c, server.name, sv.value, a)
    }

    ghost predicate Describes(c: Config) {
      && (server.name in c.explicit <==> explicitModels != [])
      && (explicitModels != [] ==> server.name in c.oddShape)
    }

    /** One poll with nobody else acting between its steps. */
    method PollOne(ghost c: Config, threshold: int, ans: Answer)
      requires Describes(c) && c.threshold == threshold
      modifies this`failedPolls, server`healthy, server`notify, server`models
      ensures Some(server.Shape(Asleep, Idle, failedPolls)) == Polled(c, old(server.Shape(Asleep, Idle, failedPolls)), ans)
    {
      if !ans.Models? {
        if explicitModels != [] && ans.WrongShape? {
          failedPolls := 0;
          var wasUnhealthy := !server.healthy;
          server.healthy := true;
          if wasUnhealthy {
            server.Wake();
          }
          return;
        }
        failedPolls := failedPolls + 1;
        if failedPolls >= threshold && server.healthy {
          server.healthy := false;
        }
        return;
      }
      failedPolls := 0;
      if !server.healthy {
        server.healthy := true;
        server.Wake();
      }
      if explicitModels != [] {
        return;
      }
      server.models := ToModelInfos(ans.names);
    }
  }
}
