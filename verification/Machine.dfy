/**
 The scheduler as a machine of interleaved steps. One `Submitter` per job, one `Worker` and one
 `Poller` per server. A step is what the program does between two points where another goroutine
 may come in: a critical section, an atomic load or store, a channel operation.
 */
module Machine {
  import opened Wrappers
  import opened Selection

  type JobId = nat
  type Nanos = nat

  const NANOS_PER_MS: nat := 1_000_000

  // ---------------------------------------------------------------- results of an attempt

  /** No error; an error that wraps the end of a context; any other error. */
  datatype Failure = NoError | Cancelled | Failed

  datatype Result = Result(err: Failure, started: bool, connection: bool, server: Option<ServerId>)

  /** How `Job.Run` ends. `wrote` says whether bytes had reached the client before a panic. */
  datatype Outcome =
    | Finished(err: Failure, started: bool, connection: bool)
    | Panicked(wrote: bool)

  predicate WroteBytes(out: Outcome) {
    match out
    case Finished(_, started, _) => started
    case Panicked(wrote) => wrote
  }

  /** runWithPanicGuard: a panic becomes a fresh result, so `started` is lost. */
  function Guarded(out: Outcome, s: ServerId): Result {
    match out
    case Finished(err, started, connection) => Result(err, started, connection, Some(s))
    case Panicked(_) => Result(Failed, false, false, Some(s))
  }

  predicate IsFinal(res: Result) {
    res.err == NoError || res.started
  }

  // ---------------------------------------------------------------- the actors

  /**
   Where a Submit call stands; `to` is the server whose queue holds the job, or None for the pool. `looks`
   is what a search through the servers has found so far, one server after the other.
   */
  datatype Submitter =
    | Fresh
    | Checking(next: nat)
    | Choosing(looks: seq<bool>, again: bool)
    | Pausing(to: Option<ServerId>)
    | Placing(to: Option<ServerId>)
    | Scanning(next: nat, best: Option<ServerId>)
    | Nudging(to: Option<ServerId>, whom: ServerId)
    | Waiting(to: Option<ServerId>)
    | Withdrawing(to: Option<ServerId>)
    | Forced(to: Option<ServerId>)
    | Excluding(looks: seq<bool>)
    | Returned(err: Failure)

  datatype Worker =
    | Asleep
    | Awake
    | Looking(view: View, force: bool)
    | Holding(job: JobId)
    | Marked(job: JobId)
    | Running(job: JobId, since: Nanos)
    | Crashing(job: JobId, res: Result)
    | Failing(job: JobId, res: Result, rest: seq<JobId>)
    | Sending(job: JobId, res: Result)
    | Releasing
    | Draining(rest: seq<JobId>)
    | DrainingPool(rest: seq<JobId>)
    | Stopped

  datatype Poller = Idle | WakingUp | Listing | Judged(wasUnhealthy: bool)

  datatype Srv = Srv(
    healthy: bool, current: string, models: set<string>, queue: seq<JobId>, token: bool,
    inFlight: bool, lastDispatched: string, streak: nat, priority: int,
    worker: Worker, poller: Poller, failedPolls: nat)

  /** A chosen server; `looks` is what the last search that excluded the failed server had found. */
  datatype Visit = Visit(server: ServerId, looks: seq<bool>)

  /** One run of a job, by the clock, and how it ended. */
  datatype Span = Span(began: Nanos, ended: Nanos, out: Outcome)

  /**
   What happened to a job so far; the program does not keep this. `looks` is the search that made the call
   give up the exclusion, `waits` lists the attempts paused for.
   */
  datatype Log = Log(
    placed: nat, runs: nat, trail: seq<Visit>, looks: seq<bool>, final: bool, wrote: bool, leaked: bool,
    waits: seq<nat>, spans: seq<Span>)

  datatype JobRec = JobRec(
    model: string, visited: set<ServerId>, slot: Option<Result>, pc: Submitter, total: nat,
    lastFailed: Option<ServerId>, submittedAt: Nanos, dispatched: bool, queueMs: nat, runMs: nat, log: Log)

  datatype State = State(servers: seq<Srv>, jobs: seq<JobRec>, pool: seq<JobId>, stopping: bool, now: Nanos)

  /** `oddShape`: servers with a configured model list whose /v1/models may answer in another shape. */
  datatype Config = Config(
    mode: Mode, maxAttempts: int, threshold: int,
    explicit: set<ServerId>, oddShape: set<ServerId>)

  /** Acts of a Submit call that change nothing but its own job, and those that touch a line or a server. */
  datatype SubmitAct =
    | Submit | Look | Choose(s: ServerId) | PickAgain | GiveUp | Lift | Resume | CancelPause | Scan | Receive | Cancel
    | Place | Withdraw | Nudge

  datatype WorkAct =
    | WakeUp | Stop | LookIn | Start | TakeQueue | Unwind | Release
    | Pop(held: bool) | Begin | Finish(out: Outcome) | Deliver | DrainPool

  datatype PollAct = PollOk | PollWake | PollList(models: set<string>) | PollFail | ShapeLoad | ShapeStore

  datatype Action =
    | Sub(k: JobId, sub: SubmitAct)
    | Work(s: ServerId, work: WorkAct)
    | Poll(p: ServerId, poll: PollAct)
    | Shutdown
    | Tick(d: nat)

  // ---------------------------------------------------------------- looking things up

  function Cap(c: Config): nat {
    if c.maxAttempts < 1 then 1 else c.maxAttempts
  }

  function ModelOf(jobs: seq<JobRec>, k: JobId): string {
    if k < |jobs| then jobs[k].model else NO_MODEL
  }

  function VisitedOf(jobs: seq<JobRec>, k: JobId): set<ServerId> {
    if k < |jobs| then jobs[k].visited else {}
  }

  function EntryOf(jobs: seq<JobRec>, k: JobId): Entry {
    Entry(ModelOf(jobs, k), VisitedOf(jobs, k))
  }

  function Entries(jobs: seq<JobRec>, ids: seq<JobId>): (es: seq<Entry>)
    ensures |es| == |ids|
  {
    seq(|ids|, i requires 0 <= i < |ids| => EntryOf(jobs, ids[i]))
  }

  predicate Candidate(sv: Srv, model: string) {
    sv.healthy && model in sv.models
  }

  predicate CandidateAt(ss: seq<Srv>, s: ServerId, model: string, exclude: set<ServerId>) {
    s < |ss| && s !in exclude && Candidate(ss[s], model)
  }

  predicate AnyCandidate(ss: seq<Srv>, model: string, exclude: set<ServerId>) {
    exists s | 0 <= s < |ss| :: CandidateAt(ss, s, model, exclude)
  }

  function Exclusion(j: JobRec): set<ServerId> {
    if j.lastFailed.Some? then {j.lastFailed.value} else {}
  }

  /** Submit stops after this result. */
  predicate Settles(c: Config, total: nat, res: Result) {
    IsFinal(res) || res.err == Cancelled || total >= c.maxAttempts
  }

  function IndexOf(ids: seq<JobId>, k: JobId): (r: Option<nat>)
    ensures r.Some? ==> r.value < |ids| && ids[r.value] == k && forall x | 0 <= x < r.value :: ids[x] != k
    ensures r.None? ==> k !in ids
  {
    if ids == [] then None
    else if ids[0] == k then Some(0)
    else match IndexOf(ids[1..], k)
         case None => None
         case Some(i) => Some(i + 1)
  }

  // ---------------------------------------------------------------- writing things down

  function PutJob(st: State, k: JobId, j: JobRec): State
    requires k < |st.jobs|
  {
    st.(jobs := st.jobs[k := j])
  }

  function PutSrv(st: State, s: ServerId, sv: Srv): State
    requires s < |st.servers|
  {
    st.(servers := st.servers[s := sv])
  }

  /** A send that gives up when the one-slot channel is full. */
  function TrySend(jobs: seq<JobRec>, k: JobId, res: Result): (r: seq<JobRec>)
    ensures |r| == |jobs|
  {
    if k < |jobs| && jobs[k].slot.None? then jobs[k := jobs[k].(slot := Some(res))] else jobs
  }

  // ---------------------------------------------------------------- steps of a Submit call

  /** The next attempt is ready; before a repeated one the call pauses. */
  function Attempting(c: Config, j: JobRec, attempt: nat, to: Option<ServerId>): JobRec {
    if attempt <= 1 then j.(pc := Placing(to))
    else j.(pc := Pausing(to), log := j.log.(waits := j.log.waits + [attempt]))
  }

  /** A search has looked at every one of the servers and found none. */
  predicate Refused(n: nat, looks: seq<bool>) {
    |looks| == n && forall i | 0 <= i < n :: !looks[i]
  }

  /** What Pick leaves out: the server that failed last, but nothing the second time. */
  function LeftOut(j: JobRec, again: bool): set<ServerId> {
    if again then {} else Exclusion(j)
  }

  function Chosen(c: Config, j: JobRec, s: ServerId): JobRec
    requires j.pc.Choosing?
  {
    var v := Visit(s, if j.pc.again then j.log.looks else j.pc.looks);
    var j' := j.(total := j.total + 1, log := j.log.(trail := j.log.trail + [v], looks := []));
    Attempting(c, j', j.total + 1, Some(s))
  }

  /** What submitPush does with a result. */
  function AfterPush(c: Config, j: JobRec, s: ServerId, res: Result): JobRec {
    if Settles(c, j.total, res) then j.(slot := None, pc := Returned(res.err))
    else j.(slot := None, pc := Choosing([], false), lastFailed := Some(s))
  }

  /** What submitDeferred does with a result; MarkVisited replaces the former exclusion. */
  function AfterPull(c: Config, j: JobRec, res: Result): JobRec {
    var j' := j.(slot := None, total := j.total + 1);
    if Settles(c, j'.total, res) then j'.(pc := Returned(res.err))
    else if res.server.Some? then j'.(pc := Excluding([]), visited := {res.server.value})
    else j'.(pc := Excluding([]))
  }

  /** pickIdleByPriority looks at server `i`. */
  function Scanned(ss: seq<Srv>, j: JobRec, i: nat, best: Option<ServerId>): Option<ServerId>
    requires i < |ss|
  {
    if !ss[i].healthy || ss[i].inFlight || i in j.visited || j.model !in ss[i].models then best
    else if best.Some? && best.value < |ss| && ss[best.value].priority <= ss[i].priority then best
    else Some(i)
  }

  /** Pick and anyHealthyCompatible look at one server after the other; the latter stops at the first it finds. */
  function LookMove(c: Config, ss: seq<Srv>, j: JobRec): Option<JobRec> {
    match j.pc
    case Checking(next) =>
      if next >= |ss| then None
      else Some(j.(pc := if CandidateAt(ss, next, j.model, {}) then Placing(None) else Checking(next + 1)))
    case Choosing(looks, again) =>
      if |looks| >= |ss| then None
      else Some(j.(pc := Choosing(looks + [CandidateAt(ss, |looks|, j.model, LeftOut(j, again))], again)))
    case Excluding(looks) =>
      if |looks| >= |ss| then None
      else if CandidateAt(ss, |looks|, j.model, j.visited) then Some(Attempting(c, j, j.total + 1, None))
      else Some(j.(pc := Excluding(looks + [false])))
    case _ => None
  }

  /** Nothing found and nothing left to try: no server for the model. */
  predicate Hopeless(n: nat, j: JobRec) {
    match j.pc
    case Checking(next) => next >= n
    case Choosing(looks, again) => Refused(n, looks) && (again || j.lastFailed.None?)
    case _ => false
  }

  /** The acts of a Submit call that change only its own job. */
  function JobMove(c: Config, ss: seq<Srv>, now: Nanos, j: JobRec, a: SubmitAct): Option<JobRec> {
    match a
    case Submit =>
      if !j.pc.Fresh? then None
      else Some(j.(pc := if c.mode.Push? then Choosing([], false) else Checking(0), submittedAt := now))
    case Look => LookMove(c, ss, j)
    case Choose(s) =>
      if j.pc.Choosing? && |j.pc.looks| == |ss| && s < |ss| && j.pc.looks[s] then Some(Chosen(c, j, s)) else None
    case PickAgain =>
      if j.pc.Choosing? && !j.pc.again && Refused(|ss|, j.pc.looks) && j.lastFailed.Some? then
        Some(j.(pc := Choosing([], true), log := j.log.(looks := j.pc.looks)))
      else None
    case GiveUp => if Hopeless(|ss|, j) then Some(j.(pc := Returned(Failed))) else None
    case Lift =>
      if j.pc.Excluding? && |j.pc.looks| == |ss| then
        Some(Attempting(c, j.(visited := {}, log := j.log.(looks := j.pc.looks)), j.total + 1, None))
      else None
    case Resume => if !j.pc.Pausing? then None else Some(j.(pc := Placing(j.pc.to)))
    case CancelPause => if !j.pc.Pausing? then None else Some(j.(pc := Returned(Cancelled)))
    case Scan =>
      if !j.pc.Scanning? then None
      else if j.pc.next < |ss| then Some(j.(pc := Scanning(j.pc.next + 1, Scanned(ss, j, j.pc.next, j.pc.best))))
      else if j.pc.best.Some? then Some(j.(pc := Nudging(None, j.pc.best.value)))
      else Some(j.(pc := Waiting(None)))
    case Receive =>
      if !(j.pc.Waiting? || j.pc.Forced?) || j.slot.None? then None
      else if j.pc.to.Some? then Some(AfterPush(c, j, j.pc.to.value, j.slot.value))
      else if j.pc.Forced? then Some(j.(slot := None, pc := Returned(Cancelled)))
      else Some(AfterPull(c, j, j.slot.value))
    case Cancel => if !j.pc.Waiting? then None else Some(j.(pc := Withdrawing(j.pc.to)))
    case Place => None
    case Withdraw => None
    case Nudge => None
  }

  function Placed(j: JobRec, pc: Submitter): JobRec {
    j.(pc := pc, log := j.log.(placed := j.log.placed + 1))
  }

  /** Push: append to the server's queue. Pull: append to the pool. */
  function PlaceStep(st: State, k: JobId): Option<State>
    requires k < |st.jobs|
  {
    var j := st.jobs[k];
    if !j.pc.Placing? then None
    else if j.pc.to.None? then Some(PutJob(st, k, Placed(j, Scanning(0, None))).(pool := st.pool + [k]))
    else if j.pc.to.value >= |st.servers| then None
    else
      var s := j.pc.to.value;
      var sv := st.servers[s];
      Some(PutSrv(PutJob(st, k, Placed(j, Nudging(Some(s), s))), s, sv.(queue := sv.queue + [k])))
  }

  /** cancelQueued and JobPool.Remove: the caller's context ended while the job may still be in line. */
  function WithdrawStep(st: State, k: JobId): Option<State>
    requires k < |st.jobs|
  {
    var j := st.jobs[k];
    if !j.pc.Withdrawing? then None
    else if j.pc.to.None? then
      match IndexOf(st.pool, k)
      case None => Some(PutJob(st, k, j.(pc := Forced(None))))
      case Some(i) => Some(PutJob(st, k, j.(pc := Returned(Cancelled))).(pool := Without(st.pool, i)))
    else if j.pc.to.value >= |st.servers| then None
    else
      var s := j.pc.to.value;
      var sv := st.servers[s];
      match IndexOf(sv.queue, k)
      case None => Some(PutJob(st, k, j.(pc := Forced(Some(s)))))
      case Some(i) => Some(PutSrv(PutJob(st, k, j.(pc := Returned(Cancelled))), s, sv.(queue := Without(sv.queue, i))))
  }

  function NudgeStep(st: State, k: JobId): Option<State>
    requires k < |st.jobs|
  {
    var j := st.jobs[k];
    if !j.pc.Nudging? || j.pc.whom >= |st.servers| then None
    else Some(PutSrv(PutJob(st, k, j.(pc := Waiting(j.pc.to))), j.pc.whom, st.servers[j.pc.whom].(token := true)))
  }

  function SubmitStep(c: Config, st: State, k: JobId, a: SubmitAct): Option<State> {
    if k >= |st.jobs| then None else
    match a
    case Place => PlaceStep(st, k)
    case Withdraw => WithdrawStep(st, k)
    case Nudge => NudgeStep(st, k)
    case _ =>
      match JobMove(c, st.servers, st.now, st.jobs[k], a)
      case None => None
      case Some(j) => Some(PutJob(st, k, j))
  }

  // ---------------------------------------------------------------- steps of a worker

  predicate ForcesSwitch(c: Config, sv: Srv) {
    c.mode.FairShare? && c.mode.limit > 0 && sv.lastDispatched != NO_MODEL && sv.streak >= c.mode.limit
  }

  function Dispatched(sv: Srv, k: JobId, model: string): Srv {
    sv.(current := model,
        streak := if sv.lastDispatched == model then sv.streak + 1 else 1,
        lastDispatched := model, inFlight := true, worker := Marked(k))
  }

  /** The acts of a worker that change only its own server. */
  function SrvMove(c: Config, jobs: seq<JobRec>, stopping: bool, sv: Srv, s: ServerId, a: WorkAct): Option<Srv> {
    match a
    case WakeUp => if sv.worker.Asleep? && sv.token then Some(sv.(worker := Awake, token := false)) else None
    case Stop =>
      if (sv.worker.Asleep? || sv.worker.Awake?) && stopping then Some(sv.(worker := Draining(sv.queue), queue := []))
      else None
    case LookIn =>
      if !sv.worker.Awake? then None
      else if !sv.healthy then Some(sv.(worker := Asleep))
      else Some(sv.(worker := Looking(View(s, sv.current, sv.models), ForcesSwitch(c, sv))))
    case Start =>
      if !sv.worker.Holding? then None else Some(Dispatched(sv, sv.worker.job, ModelOf(jobs, sv.worker.job)))
    case TakeQueue =>
      if !sv.worker.Crashing? then None
      else Some(sv.(worker := Failing(sv.worker.job, sv.worker.res, sv.queue), queue := []))
    case Unwind =>
      (match sv.worker
       case Failing(k, res, rest) => if rest != [] then None else Some(sv.(worker := Sending(k, res)))
       case Draining(rest) => if rest != [] || !c.mode.Push? then None else Some(sv.(worker := Stopped))
       case DrainingPool(rest) => if rest != [] then None else Some(sv.(worker := Stopped))
       case _ => None)
    case Release => if !sv.worker.Releasing? then None else Some(sv.(worker := Awake, inFlight := false))
    case _ => None
  }

  /** The sequence a worker takes jobs from. */
  function Line(c: Config, st: State, s: ServerId): seq<JobId>
    requires s < |st.servers|
  {
    if c.mode.Push? then st.servers[s].queue else st.pool
  }

  /** The worker takes the job at position `i` of its line, or goes to sleep. */
  function Took(c: Config, st: State, s: ServerId, i: Option<nat>): State
    requires s < |st.servers|
    requires i.Some? ==> i.value < |Line(c, st, s)|
  {
    var sv := st.servers[s];
    var line := Line(c, st, s);
    if i.None? then PutSrv(st, s, sv.(worker := Asleep))
    else if c.mode.Push? then
      PutSrv(st, s, sv.(queue := Without(line, i.value), worker := Holding(line[i.value]),
                        current := ModelOf(st.jobs, line[i.value])))
    else
      PutSrv(st, s, sv.(worker := Holding(line[i.value]))).(pool := Without(line, i.value))
  }

  /**
   The position pickNext or a pool rule answers with; the view was taken before the lock. `held` is what the rule
   found out about the model loaded elsewhere: it reads the other servers one by one while they change, so it may
   come out either way.
   */
  function Choice(c: Config, st: State, s: ServerId, held: bool): (r: Option<nat>)
    requires s < |st.servers| && st.servers[s].worker.Looking?
    ensures r.Some? ==> r.value < |Line(c, st, s)|
  {
    PopIndex(c.mode, Entries(st.jobs, Line(c, st, s)), st.servers[s].worker.view, st.servers[s].worker.force, held)
  }

  function PopStep(c: Config, st: State, s: ServerId, held: bool): Option<State>
    requires s < |st.servers|
  {
    if !st.servers[s].worker.Looking? then None else Some(Took(c, st, s, Choice(c, st, s, held)))
  }

  /** The clock readings before Run; pull mode learns the server only now. */
  function Began(c: Config, j: JobRec, s: ServerId, now: Nanos): JobRec {
    var j' := if j.dispatched then j
              else j.(dispatched := true,
                      queueMs := if j.submittedAt <= now then (now - j.submittedAt) / NANOS_PER_MS else 0);
    var log := if c.mode.Push? then j.log else j.log.(trail := j.log.trail + [Visit(s, j.log.looks)], looks := []);
    j'.(log := log.(runs := log.runs + 1))
  }

  function Ran(j: JobRec, since: Nanos, now: Nanos, s: ServerId, out: Outcome): JobRec {
    j.(runMs := j.runMs + (if since <= now then (now - since) / NANOS_PER_MS else 0),
       log := j.log.(spans := j.log.spans + [Span(since, now, out)],
                     final := j.log.final || IsFinal(Guarded(out, s)),
                     wrote := j.log.wrote || WroteBytes(out),
                     leaked := j.log.leaked || out == Panicked(true)))
  }

  predicate BringsDown(sv: Srv, res: Result) {
    res.err != NoError && !res.started && res.connection && sv.healthy
  }

  function BeginStep(c: Config, st: State, s: ServerId): Option<State>
    requires s < |st.servers|
  {
    var sv := st.servers[s];
    if !sv.worker.Marked? || sv.worker.job >= |st.jobs| then None else
    var k := sv.worker.job;
    Some(PutSrv(PutJob(st, k, Began(c, st.jobs[k], s, st.now)), s, sv.(worker := Running(k, st.now))))
  }

  function FinishStep(st: State, s: ServerId, out: Outcome): Option<State>
    requires s < |st.servers|
  {
    var sv := st.servers[s];
    if !sv.worker.Running? || sv.worker.job >= |st.jobs| then None else
    var k := sv.worker.job;
    var res := Guarded(out, s);
    var sv' := if BringsDown(sv, res) then sv.(healthy := false, worker := Crashing(k, res)) else sv.(worker := Sending(k, res));
    Some(PutSrv(PutJob(st, k, Ran(st.jobs[k], sv.worker.since, st.now, s, out)), s, sv'))
  }

  /** A result on its way into a job's slot, and the worker afterwards. */
  datatype Parcel = Parcel(job: JobId, res: Result, worker: Worker)

  function NextParcel(w: Worker, s: ServerId): Option<Parcel> {
    match w
    case Sending(k, res) => Some(Parcel(k, res, Releasing))
    case Failing(k, res, rest) =>
      if rest == [] then None
      else Some(Parcel(rest[0], Result(Failed, false, false, Some(s)), Failing(k, res, rest[1..])))
    case Draining(rest) =>
      if rest == [] then None else Some(Parcel(rest[0], Result(Cancelled, false, false, None), Draining(rest[1..])))
    case DrainingPool(rest) =>
      if rest == [] then None else Some(Parcel(rest[0], Result(Cancelled, false, false, None), DrainingPool(rest[1..])))
    case _ => None
  }

  /** dispatch blocks while the slot is full; the other senders drop the result then. */
  function DeliverStep(st: State, s: ServerId): Option<State>
    requires s < |st.servers|
  {
    var sv := st.servers[s];
    match NextParcel(sv.worker, s)
    case None => None
    case Some(p) =>
      if sv.worker.Sending? && (p.job >= |st.jobs| || st.jobs[p.job].slot.Some?) then None
      else Some(PutSrv(st, s, sv.(worker := p.worker)).(jobs := TrySend(st.jobs, p.job, p.res)))
  }

  function DrainPoolStep(c: Config, st: State, s: ServerId): Option<State>
    requires s < |st.servers|
  {
    var sv := st.servers[s];
    if sv.worker != Draining([]) || c.mode.Push? then None
    else Some(PutSrv(st, s, sv.(worker := DrainingPool(st.pool))).(pool := []))
  }

  function WorkStep(c: Config, st: State, s: ServerId, a: WorkAct): Option<State> {
    if s >= |st.servers| then None else
    match a
    case Pop(held) => PopStep(c, st, s, held)
    case Begin => BeginStep(c, st, s)
    case Finish(out) => FinishStep(st, s, out)
    case Deliver => DeliverStep(st, s)
    case DrainPool => DrainPoolStep(c, st, s)
    case _ =>
      match SrvMove(c, st.jobs, st.stopping, st.servers[s], s, a)
      case None => None
      case Some(sv) => Some(PutSrv(st, s, sv))
  }

  // ---------------------------------------------------------------- steps of a poller

  /** After a successful poll the model list is replaced, unless the configuration fixes it. */
  function Listed(c: Config, s: ServerId): Poller {
    if s in c.explicit then Idle else Listing
  }

  function PollMove(c: Config, s: ServerId, sv: Srv, a: PollAct): Option<Srv> {
    match a
    case PollOk =>
      if !sv.poller.Idle? then None
      else if sv.healthy then Some(sv.(failedPolls := 0, poller := Listed(c, s)))
      else Some(sv.(failedPolls := 0, healthy := true, poller := WakingUp))
    case PollWake =>
      if !sv.poller.WakingUp? then None else Some(sv.(token := true, poller := Listed(c, s)))
    case PollList(models) =>
      if sv.poller.Listing? && NO_MODEL !in models then Some(sv.(models := models, poller := Idle)) else None
    case PollFail =>
      if !sv.poller.Idle? then None
      else Some(sv.(failedPolls := sv.failedPolls + 1, healthy := sv.healthy && sv.failedPolls + 1 < c.threshold))
    case ShapeLoad =>
      if sv.poller.Idle? && s in c.explicit && s in c.oddShape then
        Some(sv.(failedPolls := 0, poller := Judged(!sv.healthy)))
      else None
    case ShapeStore =>
      if !sv.poller.Judged? then None
      else Some(sv.(healthy := true, poller := if sv.poller.wasUnhealthy then WakingUp else Idle))
  }

  function PollStep(c: Config, st: State, s: ServerId, a: PollAct): Option<State> {
    if s >= |st.servers| then None else
    match PollMove(c, s, st.servers[s], a)
    case None => None
    case Some(sv) => Some(PutSrv(st, s, sv))
  }

  // ---------------------------------------------------------------- runs

  function Step(c: Config, st: State, a: Action): Option<State> {
    match a
    case Sub(k, sub) => SubmitStep(c, st, k, sub)
    case Work(s, work) => WorkStep(c, st, s, work)
    case Poll(s, poll) => PollStep(c, st, s, poll)
    case Shutdown => Some(st.(stopping := true))
    case Tick(d) => Some(st.(now := st.now + d))
  }

  /** The state after the actions, or None when one of them could not happen. */
  function After(c: Config, st: State, acts: seq<Action>): Option<State>
    decreases |acts|
  {
    if acts == [] then Some(st)
    else match After(c, st, acts[..|acts| - 1])
         case None => None
         case Some(mid) => Step(c, mid, acts[|acts| - 1])
  }

  const EMPTY_LOG := Log(0, 0, [], [], false, false, false, [], [])

  predicate InitJob(j: JobRec) {
    j == JobRec(j.model, {}, None, Fresh, 0, None, 0, false, 0, 0, EMPTY_LOG)
  }

  predicate InitSrv(sv: Srv) {
    && NO_MODEL !in sv.models
    && sv == Srv(sv.healthy, NO_MODEL, sv.models, [], false, false, NO_MODEL, 0, sv.priority, Asleep, Idle, 0)
  }

  /** Any number of servers, in any health; any number of jobs, none submitted yet. */
  predicate Init(st: State) {
    && st.pool == [] && !st.stopping
    && (forall s | 0 <= s < |st.servers| :: InitSrv(st.servers[s]))
    && (forall k | 0 <= k < |st.jobs| :: InitJob(st.jobs[k]))
  }

  ghost predicate Reachable(c: Config, st: State) {
    exists st0: State, acts: seq<Action> :: Init(st0) && After(c, st0, acts) == Some(st)
  }

  lemma InitReachable(c: Config, st: State)
    requires Init(st)
    ensures Reachable(c, st)
  {
    assert After(c, st, []) == Some(st);
  }

  lemma StepReachable(c: Config, st: State, a: Action)
    requires Reachable(c, st) && Step(c, st, a).Some?
    ensures Reachable(c, Step(c, st, a).value)
  {
    var st0: State, acts: seq<Action> :| Init(st0) && After(c, st0, acts) == Some(st);
    assert (acts + [a])[..|acts|] == acts;
    assert After(c, st0, acts + [a]) == Step(c, st, a);
  }
}
