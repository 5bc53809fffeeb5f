/**
 The record a session object keeps of the steps taken by all actors.
 */
module SessionRecord {
  import opened Wrappers
  import opened SendMachine

  // `past` are the states before each step of `run`, `now` the state after the last one.
  ghost predicate Recorded(c: Config, past: seq<State>, run: seq<Label>, now: State) {
    && |past| == |run| && (past + [now])[0] == INIT
    && forall i {:trigger StepAt(c, past, run, now, i)} :: 0 <= i < |run| ==> StepAt(c, past, run, now, i)
  }

  ghost predicate StepAt(c: Config, past: seq<State>, run: seq<Label>, now: State, i: nat)
    requires |past| == |run| && i < |run|
  {
    Enabled(c, past[i], run[i]) && Step(c, past[i], run[i]) == (past + [now])[i + 1]
  }

  // What has been recorded is a run of the step system.
  lemma {:induction false} RecordedReaches(c: Config, past: seq<State>, run: seq<Label>, now: State)
    requires Recorded(c, past, run, now)
    ensures Reaches(c, run, now)
  {
    if run != [] {
      var n := |run| - 1;
      RecordedBefore(c, past, run, now);
      RecordedReaches(c, past[..n], run[..n], past[n]);
    }
  }

  lemma RecordedBefore(c: Config, past: seq<State>, run: seq<Label>, now: State)
    requires Recorded(c, past, run, now) && run != []
    ensures var n := |run| - 1;
      && Recorded(c, past[..n], run[..n], past[n])
      && Enabled(c, past[n], run[n]) && Step(c, past[n], run[n]) == now
  {
    var n := |run| - 1;
    var all, before := past + [now], past[..n] + [past[n]];
    assert forall i :: 0 <= i <= n ==> before[i] == all[i];
    assert StepAt(c, past, run, now, n) && all[n + 1] == now;
    forall i | 0 <= i < n ensures StepAt(c, past[..n], run[..n], past[n], i) {
      assert StepAt(c, past, run, now, i);
    }
  }

  lemma RecordOne(c: Config, past: seq<State>, run: seq<Label>, now: State, l: Label)
    requires Recorded(c, past, run, now) && Enabled(c, now, l)
    ensures Recorded(c, past + [now], run + [l], Step(c, now, l))
  {
    var all, all' := past + [now], past + [now] + [Step(c, now, l)];
    assert forall i :: 0 <= i < |all| ==> all'[i] == all[i];
    forall i | 0 <= i < |run + [l]| ensures StepAt(c, past + [now], run + [l], Step(c, now, l), i) {
      if i < |run| {
        assert StepAt(c, past, run, now, i);
      }
    }
  }

  // The record fits the state of the object, and so do the fields the step system has no use for.
  ghost predicate Consistent(c: Config, past: seq<State>, run: seq<Label>, now: State,
                             locked: bool, msgId: nat, hand: Msg)
  {
    && c.Valid() && Recorded(c, past, run, now)
    && locked == LockHeld(now.snd) && msgId == now.h.nextId
    && (now.snd.Woken? ==> hand == now.snd.hand)
  }
}
