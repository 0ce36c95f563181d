/** Nobody is stuck: in every reachable state every actor can act, but for those who wait for somebody else. */
module Progress {
  import opened Wrappers
  import opened Selection
  import opened Machine
  import opened Conservation
  import opened Order
  import opened Attempts
  import opened Guarantees

  /** A call that has returned, or waits for its result. */
  predicate MayRest(j: JobRec) {
    j.pc.Returned? || ((j.pc.Waiting? || j.pc.Forced?) && j.slot.None?)
  }

  /** What a call does next. */
  function NextOf(n: nat, j: JobRec): SubmitAct {
    match j.pc
    case Fresh => Submit
    case Checking(next) => if next < n then Look else GiveUp
    case Choosing(looks, again) =>
      if |looks| < n then Look
      else if Refused(n, looks) then if again || j.lastFailed.None? then GiveUp else PickAgain
      else Choose(FoundIn(looks, 0))
    case Excluding(looks) => if |looks| < n then Look else Lift
    case Pausing(_) => Resume
    case Placing(_) => Place
    case Scanning(_, _) => Scan
    case Nudging(_, _) => Nudge
    case Waiting(_) => Receive
    case Withdrawing(_) => Withdraw
    case Forced(_) => Receive
    case Returned(_) => Submit
  }

  /** The first server a search found. */
  function FoundIn(looks: seq<bool>, from: nat): (s: nat)
    ensures (exists i :: from <= i < |looks| && looks[i]) ==> s < |looks| && looks[s]
    decreases |looks| - from
  {
    if from >= |looks| then 0 else if looks[from] then from else FoundIn(looks, from + 1)
  }

  lemma SearchGoesOn(c: Config, ss: seq<Srv>, now: Nanos, j: JobRec)
    requires j.pc.Checking? || j.pc.Choosing? || j.pc.Excluding?
    requires (j.pc.Choosing? || j.pc.Excluding?) ==> |j.pc.looks| <= |ss|
    ensures JobMove(c, ss, now, j, NextOf(|ss|, j)).Some?
  {
    if j.pc.Choosing? && |j.pc.looks| == |ss| && !Refused(|ss|, j.pc.looks) {
      var i :| 0 <= i < |ss| && j.pc.looks[i];
    }
  }

  lemma OwnActGoesOn(c: Config, ss: seq<Srv>, now: Nanos, j: JobRec)
    requires JobOrderly(c, |ss|, j) && !MayRest(j) && !j.pc.Placing? && !j.pc.Withdrawing? && !j.pc.Nudging?
    ensures JobMove(c, ss, now, j, NextOf(|ss|, j)).Some?
  {
    if j.pc.Checking? || j.pc.Choosing? || j.pc.Excluding? { SearchGoesOn(c, ss, now, j); }
  }

  /** A call can act unless it rests. */
  lemma CallGoesOn(c: Config, st: State, k: JobId)
    requires Reachable(c, st) && k < |st.jobs| && !MayRest(st.jobs[k])
    ensures Step(c, st, Sub(k, NextOf(|st.servers|, st.jobs[k]))).Some?
  {
    SoundReachable(c, st);
    var j := st.jobs[k];
    assert JobOrderly(c, |st.servers|, j);
    if j.pc.Placing? || j.pc.Withdrawing? || j.pc.Nudging? {
      LineActGoesOn(c, st, k);
    } else {
      OwnActGoesOn(c, st.servers, st.now, j);
      OwnActSteps(c, st, k, NextOf(|st.servers|, j));
    }
  }

  lemma LineActGoesOn(c: Config, st: State, k: JobId)
    requires k < |st.jobs| && JobOrderly(c, |st.servers|, st.jobs[k])
    requires st.jobs[k].pc.Placing? || st.jobs[k].pc.Withdrawing? || st.jobs[k].pc.Nudging?
    ensures SubmitStep(c, st, k, NextOf(|st.servers|, st.jobs[k])).Some?
  {
  }

  lemma OwnActSteps(c: Config, st: State, k: JobId, a: SubmitAct)
    requires k < |st.jobs| && JobMove(c, st.servers, st.now, st.jobs[k], a).Some?
    ensures SubmitStep(c, st, k, a).Some?
  {
  }

  // ---------------------------------------------------------------- workers

  /** A worker that has stopped, or sleeps with no wake token before the shutdown. */
  predicate MaySleep(st: State, sv: Srv) {
    sv.worker.Stopped? || (sv.worker.Asleep? && !sv.token && !st.stopping)
  }

  /** What a worker does next; `out` is how a run under way ends. */
  function NextWork(c: Config, sv: Srv, out: Outcome): WorkAct {
    match sv.worker
    case Asleep => if sv.token then WakeUp else Stop
    case Awake => LookIn
    case Looking(_, _) => Pop(false)
    case Holding(_) => Start
    case Marked(_) => Begin
    case Running(_, _) => Finish(out)
    case Crashing(_, _) => TakeQueue
    case Failing(_, _, rest) => if rest == [] then Unwind else Deliver
    case Sending(_, _) => Deliver
    case Releasing => Release
    case Draining(rest) => if rest != [] then Deliver else if c.mode.Push? then Unwind else DrainPool
    case DrainingPool(rest) => if rest == [] then Unwind else Deliver
    case Stopped => Stop
  }

  lemma HandsGoOn(c: Config, st: State, s: ServerId, out: Outcome)
    requires Balanced(st) && s < |st.servers|
    requires st.servers[s].worker.Marked? || st.servers[s].worker.Running? || st.servers[s].worker.Sending?
    ensures WorkStep(c, st, s, NextWork(c, st.servers[s], out)).Some?
  {
    assert At(st, s, st.servers[s].worker.job);
    HeldAlone(st, s, st.servers[s].worker.job);
  }

  lemma OthersGoOn(c: Config, st: State, s: ServerId, out: Outcome)
    requires s < |st.servers| && SrvOrderly(c, st.stopping, st.servers[s], s) && !MaySleep(st, st.servers[s])
    requires !st.servers[s].worker.Marked? && !st.servers[s].worker.Running? && !st.servers[s].worker.Sending?
    ensures WorkStep(c, st, s, NextWork(c, st.servers[s], out)).Some?
  {
  }

  /** A worker can act unless it sleeps; above all, no send into a result slot ever blocks. */
  lemma WorkerGoesOn(c: Config, st: State, s: ServerId, out: Outcome)
    requires Reachable(c, st) && s < |st.servers| && !MaySleep(st, st.servers[s])
    ensures Step(c, st, Work(s, NextWork(c, st.servers[s], out))).Some?
  {
    SoundReachable(c, st);
    assert SrvOrderly(c, st.stopping, st.servers[s], s);
    var w := st.servers[s].worker;
    if w.Marked? || w.Running? || w.Sending? {
      HandsGoOn(c, st, s, out);
    } else {
      OthersGoOn(c, st, s, out);
    }
  }

  /** A worker with nothing to take sleeps and does not spin. */
  lemma NothingToTakeSleeps(c: Config, st: State, s: ServerId, held: bool)
    requires s < |st.servers| && st.servers[s].worker.Looking? && Line(c, st, s) == []
    ensures PopStep(c, st, s, held) == Some(PutSrv(st, s, st.servers[s].(worker := Asleep)))
  {
    assert Entries(st.jobs, Line(c, st, s)) == [];
  }

  lemma DownSleeps(c: Config, st: State, s: ServerId, st': State)
    requires WorkStep(c, st, s, LookIn) == Some(st') && s < |st.servers| && !st.servers[s].healthy
    ensures st' == PutSrv(st, s, st.servers[s].(worker := Asleep))
  {
  }

  /** A worker with nothing to take, or whose server is down, sleeps; a wake that came meanwhile stays. */
  lemma NothingToDoSleeps(c: Config, st: State, s: ServerId, a: WorkAct, st': State)
    requires Step(c, st, Work(s, a)) == Some(st') && s < |st.servers| && s < |st'.servers|
    requires (a.Pop? && Line(c, st, s) == []) || (a.LookIn? && !st.servers[s].healthy)
    ensures st'.servers[s].worker == Asleep && st'.servers[s].token == st.servers[s].token
  {
    if a.Pop? { NothingToTakeSleeps(c, st, s, a.held); } else { DownSleeps(c, st, s, st'); }
  }

  /** A worker that wakes up has used the token; the next wake is a new one. */
  lemma WakeUsesToken(c: Config, st: State, s: ServerId, a: WorkAct, st': State)
    requires Step(c, st, Work(s, a)) == Some(st') && s < |st.servers| && s < |st'.servers|
    requires st.servers[s].worker.Asleep? && st'.servers[s].worker.Awake?
    ensures st.servers[s].token && !st'.servers[s].token
  {
  }

  /** A call that waits or pauses can be cancelled at any moment, even with its result there. */
  lemma CanBeCancelled(c: Config, st: State, k: JobId)
    requires k < |st.jobs| && (st.jobs[k].pc.Waiting? || st.jobs[k].pc.Pausing?)
    ensures Step(c, st, Sub(k, if st.jobs[k].pc.Waiting? then Cancel else CancelPause)).Some?
  {
  }
}
