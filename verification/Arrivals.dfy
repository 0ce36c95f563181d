/** First come, first served: of two jobs of one model in a line, a server takes the one that came first. */
module Arrivals {
  import opened Wrappers
  import opened Selection
  import opened Machine
  import opened Conservation
  import opened Order
  import opened Attempts
  import opened Backlog

  /** Wherever `k` stands in the line, `x` stands before it. */
  ghost predicate Behind(line: seq<JobId>, x: JobId, k: JobId) {
    forall j | 0 <= j < |line| && line[j] == k :: exists i :: 0 <= i < j && line[i] == x
  }

  // ---------------------------------------------------------------- how a line changes

  /** A line stays, gets a job at its end, loses one, or is emptied. */
  ghost predicate Changed(line: seq<JobId>, line': seq<JobId>) {
    || line' == line
    || (exists j :: line' == line + [j])
    || (exists i: nat :: i < |line| && line' == Without(line, i))
    || line' == []
  }

  lemma SubmitChanges(c: Config, st: State, k: JobId, a: SubmitAct, st': State, s: ServerId)
    requires Orderly(c, st) && SubmitStep(c, st, k, a) == Some(st') && s < |st.servers|
    ensures s < |st'.servers| && Changed(Line(c, st, s), Line(c, st', s))
  {
    assert JobOrderly(c, |st.servers|, st.jobs[k]);
    if a.Place? { PlaceChanges(c, st, k, st', s); } else if a.Withdraw? { WithdrawChanges(c, st, k, st', s); }
  }

  lemma PlaceChanges(c: Config, st: State, k: JobId, st': State, s: ServerId)
    requires k < |st.jobs| && JobOrderly(c, |st.servers|, st.jobs[k]) && PlaceStep(st, k) == Some(st') && s < |st.servers|
    ensures s < |st'.servers| && Changed(Line(c, st, s), Line(c, st', s))
  {
    assert Line(c, st', s) == Line(c, st, s) || Line(c, st', s) == Line(c, st, s) + [k];
  }

  lemma WithdrawChanges(c: Config, st: State, k: JobId, st': State, s: ServerId)
    requires k < |st.jobs| && JobOrderly(c, |st.servers|, st.jobs[k]) && WithdrawStep(st, k) == Some(st') && s < |st.servers|
    ensures s < |st'.servers| && Changed(Line(c, st, s), Line(c, st', s))
  {
    var line := Line(c, st, s);
    var i := IndexOf(line, k);
    assert Line(c, st', s) == line || (i.Some? && Line(c, st', s) == Without(line, i.value));
  }

  lemma WorkChanges(c: Config, st: State, t: ServerId, a: WorkAct, st': State, s: ServerId)
    requires WorkStep(c, st, t, a) == Some(st') && s < |st.servers|
    ensures s < |st'.servers| && Changed(Line(c, st, s), Line(c, st', s))
  {
    var line := Line(c, st, s);
    if a.Pop? {
      var i := Choice(c, st, t, a.held);
      assert Line(c, st', s) == line || (i.Some? && i.value < |line| && Line(c, st', s) == Without(line, i.value));
    } else {
      assert Line(c, st', s) == line || Line(c, st', s) == [];
    }
  }

  lemma LineChanges(c: Config, st: State, a: Action, st': State, s: ServerId)
    requires Orderly(c, st) && Step(c, st, a) == Some(st') && s < |st.servers|
    ensures s < |st'.servers| && Changed(Line(c, st, s), Line(c, st', s))
  {
    match a
    case Sub(k, sub) => SubmitChanges(c, st, k, sub, st', s);
    case Work(t, work) => WorkChanges(c, st, t, work, st', s);
    case Poll(_, _) =>
    case Shutdown =>
    case Tick(_) =>
  }

  // ---------------------------------------------------------------- who came first stays first

  lemma BehindWithout(line: seq<JobId>, i: nat, x: JobId, k: JobId)
    requires i < |line| && line[i] != x && Behind(line, x, k)
    ensures Behind(Without(line, i), x, k)
  {
    var line' := Without(line, i);
    forall j | 0 <= j < |line'| && line'[j] == k ensures exists p :: 0 <= p < j && line'[p] == x {
      var p :| 0 <= p < (if j < i then j else j + 1) && line[p] == x;
      assert line'[if p < i then p else p - 1] == x;
    }
  }

  lemma StaysBehind(line: seq<JobId>, line': seq<JobId>, x: JobId, k: JobId)
    requires Changed(line, line') && x in line && x in line' && Count(line, x) == 1 && Behind(line, x, k)
    ensures Behind(line', x, k)
  {
    if j :| line' == line + [j] {
      var p :| 0 <= p < |line| && line[p] == x;
      assert line'[p] == x;
      forall q | 0 <= q < |line'| && line'[q] == k ensures exists i :: 0 <= i < q && line'[i] == x {
        if q < |line| {
          var i :| 0 <= i < q && line[i] == x;
          assert line'[i] == x;
        }
      }
    } else if i: nat :| i < |line| && line' == Without(line, i) {
      CountWithout(line, i, x);
      CountIsMember(line', x);
      BehindWithout(line, i, x, k);
    }
  }

  /** Job `x` is in the line of `s` after every step of the run. */
  ghost predicate StaysInLine(c: Config, st: State, acts: seq<Action>, s: ServerId, x: JobId)
    decreases |acts|
  {
    && After(c, st, acts).Some? && s < |After(c, st, acts).value.servers| && x in Line(c, After(c, st, acts).value, s)
    && (acts != [] ==> StaysInLine(c, st, acts[..|acts| - 1], s, x))
  }

  lemma OnceInLine(c: Config, st: State, s: ServerId, x: JobId)
    requires Balanced(st) && s < |st.servers| && x in Line(c, st, s)
    ensures Count(Line(c, st, s), x) == 1
  {
    CountIsMember(Line(c, st, s), x);
    if c.mode.Push? { HeldAlone(st, s, x); } else { PooledAlone(st, x); }
  }

  lemma {:induction false} LaterIsBehind(c: Config, st: State, acts: seq<Action>, s: ServerId, x: JobId, k: JobId)
    requires Safe(c, st) && s < |st.servers| && x != k && k !in Line(c, st, s) && StaysInLine(c, st, acts, s, x)
    ensures Safe(c, After(c, st, acts).value) && Behind(Line(c, After(c, st, acts).value, s), x, k)
    decreases |acts|
  {
    if acts != [] {
      var rest, a := acts[..|acts| - 1], acts[|acts| - 1];
      var mid, last := After(c, st, rest).value, After(c, st, acts).value;
      LaterIsBehind(c, st, rest, s, x, k);
      SafeStep(c, mid, a, last);
      LineChanges(c, mid, a, last, s);
      OnceInLine(c, mid, s, x);
      StaysBehind(Line(c, mid, s), Line(c, last, s), x, k);
    }
  }

  /**
   From any reachable state on: job `x` waits in the line of `s`, job `k` of the same model came later. As long as `x`
   waits there and does not exclude `s`, the server does not take `k`.
   */
  lemma FirstComeFirstServed(c: Config, st: State, acts: seq<Action>, s: ServerId, x: JobId, k: JobId, held: bool)
    requires Reachable(c, st) && s < |st.servers| && x != k && k !in Line(c, st, s) && StaysInLine(c, st, acts, s, x)
    requires var last := After(c, st, acts).value;
             && last.servers[s].worker.Looking? && ModelOf(last.jobs, x) == ModelOf(last.jobs, k)
             && (!c.mode.Push? ==> s !in VisitedOf(last.jobs, x))
    ensures var last := After(c, st, acts).value;
            var i := Choice(c, last, s, held);
            i.Some? ==> Line(c, last, s)[i.value] != k
  {
    SafeReachable(c, st);
    LaterIsBehind(c, st, acts, s, x, k);
    var last := After(c, st, acts).value;
    if Choice(c, last, s, held).Some? { ChoiceIsEarliest(c, last, s, held); }
  }

  /** Whoever of the same model stands before the job chosen excludes the server. */
  lemma ChoiceIsEarliest(c: Config, st: State, s: ServerId, held: bool)
    requires Safe(c, st) && s < |st.servers| && st.servers[s].worker.Looking? && Choice(c, st, s, held).Some?
    ensures var line, i := Line(c, st, s), Choice(c, st, s, held).value;
            forall p | 0 <= p < i :: ModelOf(st.jobs, line[p]) == ModelOf(st.jobs, line[i]) ==>
                                       !c.mode.Push? && s in VisitedOf(st.jobs, line[p])
  {
    assert SrvOrderly(c, st.stopping, st.servers[s], s);
    var line, es, i := Line(c, st, s), Entries(st.jobs, Line(c, st, s)), Choice(c, st, s, held).value;
    assert forall p | 0 <= p < |line| :: es[p] == EntryOf(st.jobs, line[p]);
    if !c.mode.Push? { assert EarliestOfItsModel(es, s, i); }
  }
}
