/** What the scheduler promises, over every run: the step lemmas of the other modules put together. */
module Guarantees {
  import opened Wrappers
  import opened Selection
  import opened Backoff
  import opened Machine
  import opened Conservation
  import opened Order
  import opened Attempts
  import opened Finality
  import opened Failover
  import opened Timing

  ghost predicate Sound(c: Config, st: State) {
    && Safe(c, st) && AllCounted(c, st) && RunsBounded(st) && FinalKept(st)
    && PushTrails(c, st) && PullTrails(c, st) && TimesKept(st)
  }

  lemma SoundInit(c: Config, st: State)
    requires Init(st)
    ensures Sound(c, st)
  {
    BalancedInit(st);
    OrderInit(c, st);
    forall k: JobId ensures RunsOf(st.jobs, k) + Waitlist(st, k) <= PlacedOf(st.jobs, k) {
      NoTally(Unbegun, st.servers, k);
    }
    forall k: JobId | k < |st.jobs| ensures Counted(c, st.jobs[k]) && Accounted(st.jobs[k], st.now) {
      assert InitJob(st.jobs[k]);
    }
  }

  lemma SoundStep(c: Config, st: State, a: Action, st': State)
    requires Sound(c, st) && Step(c, st, a) == Some(st')
    ensures Sound(c, st')
  {
    SafeStep(c, st, a, st');
    CountedStep(c, st, a, st');
    RunsBoundedStep(c, st, a, st');
    FinalStep(c, st, a, st');
    PushTrailsStep(c, st, a, st');
    PullTrailsStep(c, st, a, st');
    TimesStep(c, st, a, st');
  }

  lemma {:induction false} SoundAfter(c: Config, st0: State, acts: seq<Action>, st: State)
    requires Init(st0) && After(c, st0, acts) == Some(st)
    ensures Sound(c, st)
    decreases |acts|
  {
    if acts == [] {
      SoundInit(c, st0);
    } else {
      var mid := After(c, st0, acts[..|acts| - 1]).value;
      SoundAfter(c, st0, acts[..|acts| - 1], mid);
      SoundStep(c, mid, acts[|acts| - 1], st);
    }
  }

  lemma SoundReachable(c: Config, st: State)
    requires Reachable(c, st)
    ensures Sound(c, st)
  {
    var st0: State, acts: seq<Action> :| Init(st0) && After(c, st0, acts) == Some(st);
    SoundAfter(c, st0, acts, st);
  }

  // ---------------------------------------------------------------- retries

  /** At most MaxAttempts runs per Submit, and consecutive attempts avoid the server that failed. */
  lemma RetrySafety(c: Config, st: State, k: JobId)
    requires Reachable(c, st) && k < |st.jobs|
    ensures st.jobs[k].log.runs <= Cap(c)
    ensures Alternates(|st.servers|, st.jobs[k].log.trail)
  {
    SoundReachable(c, st);
    assert Counted(c, st.jobs[k]);
    assert RunsOf(st.jobs, k) + Waitlist(st, k) <= PlacedOf(st.jobs, k);
    if c.mode.Push? { assert PushTrail(|st.servers|, st.jobs[k]); } else { assert PullTrail(|st.servers|, st.jobs[k]); }
  }

  /** A worker about to call Run: the job has attempts left, is not final, and is at the server chosen last. */
  lemma AboutToRun(c: Config, st: State, s: ServerId)
    requires Reachable(c, st) && s < |st.servers| && st.servers[s].worker.Marked?
    ensures var k := st.servers[s].worker.job;
            && k < |st.jobs| && st.jobs[k].log.runs < Cap(c)
            && !st.jobs[k].log.final && (st.jobs[k].log.wrote ==> st.jobs[k].log.leaked)
            && (c.mode.Push? ==> st.jobs[k].log.trail != [] && Last(st.jobs[k].log.trail) == s)
            && (!c.mode.Push? && st.jobs[k].log.trail != [] && Last(st.jobs[k].log.trail) == s ==> Refused(|st.servers|, st.jobs[k].log.looks))
  {
    SoundReachable(c, st);
    var k := st.servers[s].worker.job;
    assert At(st, s, k);
    HeldAlone(st, s, k);
    TallyUpdate(Unbegun, st.servers, s, st.servers[s], k);
    assert RunsOf(st.jobs, k) + Waitlist(st, k) <= PlacedOf(st.jobs, k);
    assert Counted(c, st.jobs[k]) && JobFinal(st.jobs[k]);
    assert !FinalOf(st.jobs, k);
    if c.mode.Push? {
      assert SentTo(st.jobs, k, s) && PushTrail(|st.servers|, st.jobs[k]);
    } else {
      assert HandTrail(|st.servers|, st.jobs, s, st.servers[s].worker);
    }
  }

  // ---------------------------------------------------------------- bytes already sent

  /** A worker is about to run a job whose client already received bytes. */
  predicate RerunsWritten(st: State) {
    exists s: ServerId | s < |st.servers| ::
      st.servers[s].worker.Marked? && st.servers[s].worker.job < |st.jobs| && st.jobs[st.servers[s].worker.job].log.wrote
  }

  lemma RerunNeedsAttempts(c: Config, st: State)
    requires Reachable(c, st) && RerunsWritten(st)
    ensures c.maxAttempts >= 2
  {
    var s: ServerId :| s < |st.servers| && st.servers[s].worker.Marked? && st.servers[s].worker.job < |st.jobs|
                       && st.jobs[st.servers[s].worker.job].log.wrote;
    SoundReachable(c, st);
    AboutToRun(c, st, s);
    assert Accounted(st.jobs[st.servers[s].worker.job], st.now);
  }

  // ---------------------------------------------------------------- time

  /**
   RunMs is the sum of the runs, QueueMs the whole milliseconds from Submit to the begin of the first run; together
   they never exceed the milliseconds since Submit.
   */
  lemma TimeAccounting(c: Config, st: State, k: JobId)
    requires Reachable(c, st) && k < |st.jobs| && !st.jobs[k].pc.Fresh?
    ensures st.jobs[k].submittedAt <= st.now
    ensures st.jobs[k].queueMs + st.jobs[k].runMs <= (st.now - st.jobs[k].submittedAt) / NANOS_PER_MS
    ensures st.jobs[k].runMs == Millis(st.jobs[k].log.spans)
    ensures st.jobs[k].log.runs == 0 ==> st.jobs[k].queueMs == 0 && st.jobs[k].runMs == 0
    ensures st.jobs[k].log.spans != [] ==>
              var began := st.jobs[k].log.spans[0].began;
              began >= st.jobs[k].submittedAt && st.jobs[k].queueMs == (began - st.jobs[k].submittedAt) / NANOS_PER_MS
    ensures st.jobs[k].log.runs > 0 && st.jobs[k].log.spans == [] ==>
              exists s: ServerId :: s < |st.servers| && st.servers[s].worker.Running? && st.servers[s].worker.job == k
    ensures forall s: ServerId | s < |st.servers| && st.servers[s].worker.Running? && st.servers[s].worker.job == k ::
              st.jobs[k].log.spans == [] ==>
                var began := st.servers[s].worker.since;
                began >= st.jobs[k].submittedAt && st.jobs[k].queueMs == (began - st.jobs[k].submittedAt) / NANOS_PER_MS
  {
    SoundReachable(c, st);
    assert Accounted(st.jobs[k], st.now) && RunsEnd(st, k);
    forall s: ServerId | s < |st.servers| && st.servers[s].worker.Running? && st.servers[s].worker.job == k
      ensures RunFits(st.jobs, st.now, st.servers[s].worker)
    {
    }
  }

  // ---------------------------------------------------------------- pauses

  /** Both submit paths pause before attempt 2, 3, ... in turn, each as long as Backoff says, and for at most (MaxAttempts-1)*Max in all. */
  lemma PausesOfACall(c: Config, st: State, k: JobId, initial: nat, max: nat)
    requires Reachable(c, st) && k < |st.jobs|
    ensures st.jobs[k].log.waits == Paused(|st.jobs[k].log.waits|)
    ensures TotalPause(initial, max, st.jobs[k].log.waits) <= (Cap(c) - 1) * max
    ensures initial <= max < TWO_63 && NeverOverflows(initial, max) ==>
              forall i | 0 <= i < |st.jobs[k].log.waits| ::
                Waited(initial, max, st.jobs[k].log.waits[i]) == Pause(initial, max, st.jobs[k].log.waits[i])
  {
    SoundReachable(c, st);
    assert Counted(c, st.jobs[k]);
    PausesBounded(initial, max, st.jobs[k].log.waits, Cap(c) - 1);
    if initial <= max < TWO_63 && NeverOverflows(initial, max) {
      forall i | 0 <= i < |st.jobs[k].log.waits|
        ensures Waited(initial, max, st.jobs[k].log.waits[i]) == Pause(initial, max, st.jobs[k].log.waits[i])
      {
        PauseAsDocumented(initial, max, st.jobs[k].log.waits[i]);
      }
    }
  }
}
