/**
 When a server goes down and when it comes up again, said of the answers to its polls and of the ends of its runs;
 and what becomes of the queue of a server that went down.
 */
module Health {
  import opened Wrappers
  import opened Selection
  import opened Machine
  import opened Servers

  // ---------------------------------------------------------------- a series of polls

  /** An answer that counts as one: the models, or with a configured list also an answer of another shape. */
  predicate Alive(explicit: bool, ans: Answer) {
    ans.Models? || (ans.WrongShape? && explicit)
  }

  /** The failures since the last success. */
  function FailuresInARow(explicit: bool, answers: seq<Answer>): nat {
    if answers == [] || Alive(explicit, answers[|answers| - 1]) then 0
    else FailuresInARow(explicit, answers[..|answers| - 1]) + 1
  }

  predicate AnyAlive(explicit: bool, answers: seq<Answer>) {
    exists i | 0 <= i < |answers| :: Alive(explicit, answers[i])
  }

  /** The names of the last list, or `before` when there was none. */
  function LastListed(answers: seq<Answer>, before: set<string>): set<string> {
    if answers == [] then before
    else
      match answers[|answers| - 1]
      case Models(names) => set m | m in names && m != NO_MODEL
      case Unreachable => LastListed(answers[..|answers| - 1], before)
      case WrongShape => LastListed(answers[..|answers| - 1], before)
  }

  /** A server polled again and again with nobody else acting. */
  ghost function PolledAll(e: DiscoveryEntry, c: Config, sv: Srv, answers: seq<Answer>): Option<Srv> {
    if answers == [] then Some(sv)
    else match PolledAll(e, c, sv, answers[..|answers| - 1])
         case None => None
         case Some(mid) => e.Polled(c, mid, answers[|answers| - 1])
  }

  /** One poll: an answer resets the count, heals the server, and wakes it when it was down; a failure adds one. */
  lemma OnePoll(e: DiscoveryEntry, c: Config, sv: Srv, ans: Answer)
    requires e.Describes(c) && sv.poller.Idle?
    ensures e.Polled(c, sv, ans).Some?
    ensures var sv', explicit := e.Polled(c, sv, ans).value, e.explicitModels != [];
            && sv'.poller.Idle?
            && (if Alive(explicit, ans) then
                  sv'.failedPolls == 0 && sv'.healthy && (sv'.token <==> sv.token || !sv.healthy)
                else
                  && sv'.failedPolls == sv.failedPolls + 1 && sv'.token == sv.token
                  && (sv'.healthy <==> sv.healthy && sv.failedPolls + 1 < c.threshold))
            && sv'.models == (if ans.Models? && !explicit then set m | m in ans.names && m != NO_MODEL else sv.models)
  {
  }

  lemma AliveSplit(explicit: bool, answers: seq<Answer>)
    requires answers != []
    ensures AnyAlive(explicit, answers) <==>
              AnyAlive(explicit, answers[..|answers| - 1]) || Alive(explicit, answers[|answers| - 1])
  {
    if AnyAlive(explicit, answers[..|answers| - 1]) {
      var i :| 0 <= i < |answers| - 1 && Alive(explicit, answers[..|answers| - 1][i]);
      assert Alive(explicit, answers[i]);
    }
    if AnyAlive(explicit, answers) && !Alive(explicit, answers[|answers| - 1]) {
      var i :| 0 <= i < |answers| && Alive(explicit, answers[i]);
      assert Alive(explicit, answers[..|answers| - 1][i]);
    }
  }

  /**
   Over any series of polls with nobody else writing: the server is healthy afterwards exactly when it was so at first
   or some poll was answered, and the failures since then are fewer than the threshold.
   */
  lemma {:induction false} PollsDecide(e: DiscoveryEntry, c: Config, sv: Srv, answers: seq<Answer>)
    requires e.Describes(c) && sv.poller.Idle?
    ensures PolledAll(e, c, sv, answers).Some?
    ensures var sv', explicit := PolledAll(e, c, sv, answers).value, e.explicitModels != [];
            var failures := FailuresInARow(explicit, answers) + if AnyAlive(explicit, answers) then 0 else sv.failedPolls;
            && sv'.poller.Idle? && sv'.failedPolls == failures
            && (sv'.healthy <==>
                  && (sv.healthy || AnyAlive(explicit, answers))
                  && (FailuresInARow(explicit, answers) == 0 || failures < c.threshold))
            && (sv.token ==> sv'.token)
            && sv'.models == if explicit then sv.models else LastListed(answers, sv.models)
  {
    if answers != [] {
      var rest, ans := answers[..|answers| - 1], answers[|answers| - 1];
      PollsDecide(e, c, sv, rest);
      OnePoll(e, c, PolledAll(e, c, sv, rest).value, ans);
      AliveSplit(e.explicitModels != [], answers);
    }
  }

  /** The case the setting is made for: a healthy server with a clean record. */
  lemma DownAfterThreshold(e: DiscoveryEntry, c: Config, sv: Srv, answers: seq<Answer>)
    requires e.Describes(c) && sv.poller.Idle? && sv.healthy && sv.failedPolls == 0 && c.threshold >= 1
    ensures PolledAll(e, c, sv, answers).Some?
    ensures !PolledAll(e, c, sv, answers).value.healthy <==> FailuresInARow(e.explicitModels != [], answers) >= c.threshold
  {
    PollsDecide(e, c, sv, answers);
  }

  /** The polling loop of one server, with the answers it gets. */
  method PollAll(e: DiscoveryEntry, ghost c: Config, threshold: int, answers: seq<Answer>)
    requires e.Describes(c) && c.threshold == threshold
    modifies e`failedPolls, e.server`healthy, e.server`notify, e.server`models
    ensures var explicit := e.explicitModels != [];
            && (e.server.healthy <==>
                  && (old(e.server.healthy) || AnyAlive(explicit, answers))
                  && (FailuresInARow(explicit, answers) == 0
                      || FailuresInARow(explicit, answers) + (if AnyAlive(explicit, answers) then 0 else old(e.failedPolls)) < threshold))
            && e.server.Allowed() == if explicit then old(e.server.Allowed()) else LastListed(answers, old(e.server.Allowed()))
  {
    ghost var sv := e.server.Shape(Asleep, Idle, e.failedPolls);
    for i := 0 to |answers|
      invariant PolledAll(e, c, sv, answers[..i]) == Some(e.server.Shape(Asleep, Idle, e.failedPolls))
    {
      assert answers[..i + 1][..i] == answers[..i];
      e.PollOne(c, threshold, answers[i]);
    }
    assert answers[..|answers|] == answers;
    PollsDecide(e, c, sv, answers);
  }

  // ---------------------------------------------------------------- over all steps of the machine

  /** The run of server `s` ends with a connection error before any response. */
  predicate RunFailsToConnect(st: State, a: Action, s: ServerId)
    requires s < |st.servers|
  {
    && a.Work? && a.s == s && a.work.Finish? && st.servers[s].worker.Running?
    && a.work.out.Finished? && a.work.out.err != NoError && !a.work.out.started && a.work.out.connection
  }

  lemma WorkHealth(c: Config, st: State, t: ServerId, a: WorkAct, st': State, s: ServerId)
    requires WorkStep(c, st, t, a) == Some(st') && s < |st.servers|
    ensures s < |st'.servers| && (st'.servers[s].healthy <==> st.servers[s].healthy && !RunFailsToConnect(st, Work(t, a), s))
  {
  }

  lemma SubmitHealth(c: Config, st: State, k: JobId, a: SubmitAct, st': State, s: ServerId)
    requires SubmitStep(c, st, k, a) == Some(st') && s < |st.servers|
    ensures s < |st'.servers| && st'.servers[s].healthy == st.servers[s].healthy
  {
  }

  /**
   A server goes down with a run that fails to connect or a failed poll that reaches the threshold, and comes up with
   an answered poll; no other step of anybody changes its health.
   */
  lemma HealthChangesIff(c: Config, st: State, a: Action, st': State, s: ServerId)
    requires Step(c, st, a) == Some(st') && s < |st.servers|
    ensures s < |st'.servers|
    ensures st.servers[s].healthy ==>
              (!st'.servers[s].healthy <==>
                 RunFailsToConnect(st, a, s) || (a == Poll(s, PollFail) && st.servers[s].failedPolls + 1 >= c.threshold))
    ensures !st.servers[s].healthy ==> (st'.servers[s].healthy <==> a == Poll(s, PollOk) || a == Poll(s, ShapeStore))
  {
    match a
    case Sub(k, sub) => SubmitHealth(c, st, k, sub, st', s);
    case Work(t, work) => WorkHealth(c, st, t, work, st', s);
    case Poll(_, _) =>
    case Shutdown =>
    case Tick(_) =>
  }

  /** Whoever brought the server down next takes the whole queue in hand, and has told every job in it before going on. */
  lemma CrashEmptiesQueue(c: Config, st: State, s: ServerId, a: WorkAct, st': State)
    requires Step(c, st, Work(s, a)) == Some(st') && s < |st.servers| && s < |st'.servers|
    ensures RunFailsToConnect(st, Work(s, a), s) && st.servers[s].healthy ==> st'.servers[s].worker.Crashing?
    ensures st.servers[s].worker.Crashing? ==>
              st'.servers[s].queue == [] && st'.servers[s].worker.Failing? && st'.servers[s].worker.rest == st.servers[s].queue
    ensures st.servers[s].worker.Failing? ==>
              var told := if a.Deliver? then 1 else 0;
              |st.servers[s].worker.rest| >= told
              && if st'.servers[s].worker.Failing? then st'.servers[s].worker.rest == st.servers[s].worker.rest[told..]
                 else st.servers[s].worker.rest == []
  {
  }
}
