/**
 Calls of `flush` beside a running feeder that are left waiting when the feeder has gone: because the
 request is never answered, or because the flag is up again before the thread looks at it.
 */
module LeftBehind {
  import opened Records
  import opened QueueInterface
  import opened AsyncFrontend
  import opened FrontendInvariants
  import opened FrontendTheorems
  import opened DelegatedFlush
  import opened Trips

  // ----- Left without a feeder -----

  // `w` waits for an answer, and there is no feeder.
  ghost predicate FlushLeftBehind(s: State, w: ThreadId) {
    PcOf(s, w).FlushWait? && s.feeding.None? && s.flushRequested && !s.stopRequested
  }

  // From the raise of the flag by `w` in `s0` the run leads, within its call, to where it is left behind.
  ghost predicate LeavesBehind(d: Discipline, s0: State, w: ThreadId, steps: seq<Step>)
    requires QueueOk(s0) && Enabled(d, s0, StartFlush(w))
  {
    QueueOkStep(d, s0, StartFlush(w));
    var s1 := Apply(d, s0, StartFlush(w));
    && CanRun(d, s1, steps) && Throughout(d, s1, steps, InFlush(w))
    && FlushLeftBehind(Run(d, s1, steps), w)
  }

  // A flush that raises its flag under a pending stop does not get to wait.
  lemma RaisedUnderStop(d: Discipline, s: State, step: Step, w: ThreadId)
    requires Inv(d, s) && Enabled(d, s, step) && s.stopRequested && PcOf(s, w).FlushRaised?
    requires Requesting(PcOf(Apply(d, s, step), w))
    ensures Apply(d, s, step).stopRequested && PcOf(Apply(d, s, step), w).FlushRaised?
  {
    assert s.mutex == Some(w);
  }

  lemma {:induction false} RaisedUnderStopRun(d: Discipline, s: State, steps: seq<Step>, w: ThreadId)
    requires Inv(d, s) && CanRun(d, s, steps) && Throughout(d, s, steps, InFlush(w))
    requires s.stopRequested && PcOf(s, w).FlushRaised?
    ensures PcOf(Run(d, s, steps), w).FlushRaised?
    decreases |steps|
  {
    if steps == [] {
    } else {
      StepKeeps(d, s, steps[0]);
      RaisedUnderStop(d, s, steps[0], w);
      RaisedUnderStopRun(d, Apply(d, s, steps[0]), steps[1..], w);
    }
  }

  // Whenever it gets to wait, it can be left behind: somebody calls `stop`, and the flag is up, as left by
  // an unanswered request or raised again by a later one, when the feeder takes the stop down.
  lemma LeftBehindIff(d: Discipline, s0: State, w: ThreadId)
    requires Inv(d, s0) && Enabled(d, s0, StartFlush(w)) && s0.feeding.Some?
    requires d.Ordered? ==> StrictWeakOrder(d.less)
    ensures (exists steps :: LeavesBehind(d, s0, w, steps)) <==> !s0.stopRequested
  {
    var s1 := Apply(d, s0, StartFlush(w));
    StepKeeps(d, s0, StartFlush(w));
    FlushBegun(d, s0, w);
    if !s0.stopRequested {
      var steps := LeftByStop(d, s1, w);
      assert LeavesBehind(d, s0, w, steps);
    } else {
      forall steps ensures !LeavesBehind(d, s0, w, steps) {
        if LeavesBehind(d, s0, w, steps) {
          RaisedUnderStopRun(d, s1, steps, w);
          assert false;
        }
      }
    }
  }

  lemma FlushBegun(d: Discipline, s0: State, w: ThreadId)
    requires QueueOk(s0) && SingleInv(s0) && Enabled(d, s0, StartFlush(w)) && s0.feeding.Some?
    ensures var s1 := Apply(d, s0, StartFlush(w));
      && PcOf(s1, w).FlushRaised? && s1.feeding == s0.feeding && s1.stopRequested == s0.stopRequested
      && FeederOf(s1) == FeederOf(s0)
  {
    MoveFrame(s0, w, FlushRaised(|s0.accepted|), Apply(d, s0, StartFlush(w)));
  }

  lemma LeftByStop(d: Discipline, s1: State, w: ThreadId) returns (steps: seq<Step>)
    requires Inv(d, s1) && PcOf(s1, w).FlushRaised? && !s1.stopRequested && s1.feeding.Some?
    requires d.Ordered? ==> StrictWeakOrder(d.less)
    ensures CanRun(d, s1, steps) && Throughout(d, s1, steps, InFlush(w)) && FlushLeftBehind(Run(d, s1, steps), w)
  {
    var s2 := FlushInterrupts(d, s1, w, InFlush(w));
    var v := FreshThread(s2.pcs.Keys);
    var a, s3 := StopBegins(d, s2, v, InFlush(w));
    TripConcat(d, s1, [FlushInterrupt(w)], s2, a, InFlush(w), s3);
    var b, u := LeavesFlagUp(d, s3, w, s1.feeding.value);
    TripConcat(d, s1, [FlushInterrupt(w)] + a, s3, b, InFlush(w), u);
    steps := [FlushInterrupt(w)] + a + b;
  }

  // The feeder comes to leave, and leaves with the flag up.
  lemma LeavesFlagUp(d: Discipline, s: State, w: ThreadId, t: ThreadId) returns (steps: seq<Step>, u: State)
    requires Fed(d, s, t) && PcOf(s, w).FlushWait? && Ends(s, PcOf(s, t).f)
    requires d.Ordered? ==> StrictWeakOrder(d.less)
    ensures Trip(d, s, steps, InFlush(w), u) && FlushLeftBehind(u, w) && Unstopped(steps)
  {
    var a, s1 := DriveToLeave(d, s, t, InFlush(w));
    var b, s2 := FlagRaised(d, s1, w, t);
    TripConcat(d, s, a, s1, b, InFlush(w), s2);
    u := Leaves(d, s2, t, InFlush(w));
    TripConcat(d, s, a + b, s2, [FeederStep(t, 0, false)], InFlush(w), u);
    steps := a + b + [FeederStep(t, 0, false)];
  }

  lemma FlagRaised(d: Discipline, s: State, w: ThreadId, t: ThreadId) returns (steps: seq<Step>, u: State)
    requires Fed(d, s, t) && PcOf(s, w).FlushWait? && PcOf(s, t).f.place.Leave?
    ensures Trip(d, s, steps, InFlush(w), u) && Unstopped(steps)
    ensures Fed(d, u, t) && u.flushRequested && PcOf(u, w).FlushWait? && PcOf(u, t).f.place.Leave?
  {
    if s.flushRequested {
      steps, u := [], s;
    } else {
      steps, u := AnotherFlush(d, s, t, InFlush(w));
    }
  }

  // A `run` that no stop ends never leaves.
  ghost predicate RunsOn(s: State) {
    && FeederOf(s).Some? && FeederOf(s).value.kind.RunLoop? && !FeederOf(s).value.place.Leave?
    && !s.stopRequested
  }

  lemma RunsOnStep(d: Discipline, s: State, step: Step)
    requires Inv(d, s) && Enabled(d, s, step) && RunsOn(s) && !step.StartStop?
    ensures RunsOn(Apply(d, s, step))
  {
    if step.FeederStep? {
      FeederFrame(d, s, step.t, PcOf(s, step.t).f, step.k, step.take);
    } else {
      OthersLeaveFeeder(d, s, step);
      RequestsEnd(d, s, step);
    }
  }

  lemma {:induction false} RunsOnRun(d: Discipline, s: State, steps: seq<Step>)
    requires Inv(d, s) && CanRun(d, s, steps) && RunsOn(s) && Unstopped(steps)
    ensures RunsOn(Run(d, s, steps))
    decreases |steps|
  {
    if steps == [] {
    } else {
      StepKeeps(d, s, steps[0]);
      RunsOnStep(d, s, steps[0]);
      RunsOnRun(d, Apply(d, s, steps[0]), steps[1..]);
    }
  }

  // As long as nobody calls `stop`, it can be left behind exactly by a feeder that leaves by itself:
  // `feed_records` and a flush do, `run` only if it is leaving already.
  lemma LeftBehindUnstoppedIff(d: Discipline, s0: State, w: ThreadId)
    requires Inv(d, s0) && Enabled(d, s0, StartFlush(w)) && s0.feeding.Some?
    requires d.Ordered? ==> StrictWeakOrder(d.less)
    ensures var f := PcOf(s0, s0.feeding.value).f;
      (exists steps :: LeavesBehind(d, s0, w, steps) && Unstopped(steps))
      <==> !s0.stopRequested && (f.place.Leave? || !f.kind.RunLoop?)
  {
    var s1, f := Apply(d, s0, StartFlush(w)), PcOf(s0, s0.feeding.value).f;
    StepKeeps(d, s0, StartFlush(w));
    FlushBegun(d, s0, w);
    if !s0.stopRequested && (f.place.Leave? || !f.kind.RunLoop?) {
      var steps := LeftByItself(d, s1, w);
      assert LeavesBehind(d, s0, w, steps) && Unstopped(steps);
    } else {
      forall steps ensures !(LeavesBehind(d, s0, w, steps) && Unstopped(steps)) {
        if LeavesBehind(d, s0, w, steps) && Unstopped(steps) {
          NotLeftByItself(d, s1, w, steps);
          assert false;
        }
      }
    }
  }

  lemma LeftByItself(d: Discipline, s1: State, w: ThreadId) returns (steps: seq<Step>)
    requires Inv(d, s1) && PcOf(s1, w).FlushRaised? && !s1.stopRequested && s1.feeding.Some?
    requires Ends(s1, PcOf(s1, s1.feeding.value).f) && (d.Ordered? ==> StrictWeakOrder(d.less))
    ensures CanRun(d, s1, steps) && Throughout(d, s1, steps, InFlush(w)) && FlushLeftBehind(Run(d, s1, steps), w)
    ensures Unstopped(steps)
  {
    var s2 := FlushInterrupts(d, s1, w, InFlush(w));
    var b, u := LeavesFlagUp(d, s2, w, s1.feeding.value);
    TripConcat(d, s1, [FlushInterrupt(w)], s2, b, InFlush(w), u);
    steps := [FlushInterrupt(w)] + b;
  }

  lemma NotLeftByItself(d: Discipline, s1: State, w: ThreadId, steps: seq<Step>)
    requires Inv(d, s1) && CanRun(d, s1, steps) && Throughout(d, s1, steps, InFlush(w)) && PcOf(s1, w).FlushRaised?
    requires Unstopped(steps) && (s1.stopRequested || RunsOn(s1))
    ensures !FlushLeftBehind(Run(d, s1, steps), w)
  {
    if s1.stopRequested {
      RaisedUnderStopRun(d, s1, steps, w);
    } else {
      RunsOnRun(d, s1, steps);
    }
  }

  // ----- Left with its request unanswered -----

  // From the raise of the flag by `w` in `s0` the run leads, with the flag up all the time, to where it is
  // left behind.
  ghost predicate LeavesUnanswered(d: Discipline, s0: State, w: ThreadId, steps: seq<Step>)
    requires QueueOk(s0) && Enabled(d, s0, StartFlush(w))
  {
    QueueOkStep(d, s0, StartFlush(w));
    var s1 := Apply(d, s0, StartFlush(w));
    CanRun(d, s1, steps) && WaitsThroughout(d, s1, steps, w) && FlushLeftBehind(Run(d, s1, steps), w)
  }

  // A feeder that has a test of the flag ahead of it, whether a stop comes or (`stops` being false) not.
  ghost predicate WillTest(s: State, stops: bool) {
    && FeederOf(s).Some? && !FeederOf(s).value.place.Leave?
    && if stops then !FeederOf(s).value.place.TestStopEnd? else !s.stopRequested
  }

  lemma WillTestStep(d: Discipline, s: State, step: Step, stops: bool)
    requires Inv(d, s) && Enabled(d, s, step) && WillTest(s, stops) && (stops || !step.StartStop?)
    requires s.flushRequested && Apply(d, s, step).flushRequested
    ensures WillTest(Apply(d, s, step), stops)
  {
    if step.FeederStep? {
      FeederFrame(d, s, step.t, PcOf(s, step.t).f, step.k, step.take);
    } else {
      OthersLeaveFeeder(d, s, step);
    }
  }

  lemma {:induction false} WillTestRun(d: Discipline, s: State, steps: seq<Step>, w: ThreadId, stops: bool)
    requires Inv(d, s) && CanRun(d, s, steps) && WaitsThroughout(d, s, steps, w)
    requires WillTest(s, stops) && (stops || Unstopped(steps))
    ensures WillTest(Run(d, s, steps), stops)
    decreases |steps|
  {
    if steps == [] {
    } else {
      StepKeeps(d, s, steps[0]);
      WillTestStep(d, s, steps[0], stops);
      WillTestRun(d, Apply(d, s, steps[0]), steps[1..], w, stops);
    }
  }

  // A request can be left unanswered exactly when it finds no stop pending and the feeder past its last
  // test of the flag: leaving, or about to test for a stop that may still come.
  lemma UnansweredIff(d: Discipline, s0: State, w: ThreadId)
    requires Inv(d, s0) && Enabled(d, s0, StartFlush(w)) && s0.feeding.Some?
    ensures var p := PcOf(s0, s0.feeding.value).f.place;
      (exists steps :: LeavesUnanswered(d, s0, w, steps)) <==> !s0.stopRequested && (p.Leave? || p.TestStopEnd?)
  {
    var s1, p := Apply(d, s0, StartFlush(w)), PcOf(s0, s0.feeding.value).f.place;
    StepKeeps(d, s0, StartFlush(w));
    MoveFrame(s0, w, FlushRaised(|s0.accepted|), s1);
    if !s0.stopRequested && (p.Leave? || p.TestStopEnd?) {
      var steps := LeaveBehind(d, s1, w);
      assert LeavesUnanswered(d, s0, w, steps);
    } else {
      forall steps ensures !LeavesUnanswered(d, s0, w, steps) {
        if LeavesUnanswered(d, s0, w, steps) {
          NotUnanswered(d, s1, w, steps, true);
          assert false;
        }
      }
    }
  }

  // As long as nobody calls `stop`, exactly when the feeder is leaving already.
  lemma UnansweredUnstoppedIff(d: Discipline, s0: State, w: ThreadId)
    requires Inv(d, s0) && Enabled(d, s0, StartFlush(w)) && s0.feeding.Some?
    ensures (exists steps :: LeavesUnanswered(d, s0, w, steps) && Unstopped(steps))
            <==> !s0.stopRequested && PcOf(s0, s0.feeding.value).f.place.Leave?
  {
    var s1 := Apply(d, s0, StartFlush(w));
    StepKeeps(d, s0, StartFlush(w));
    MoveFrame(s0, w, FlushRaised(|s0.accepted|), s1);
    if !s0.stopRequested && PcOf(s0, s0.feeding.value).f.place.Leave? {
      var steps := LeaveBehind(d, s1, w);
      assert LeavesUnanswered(d, s0, w, steps) && Unstopped(steps);
    } else {
      forall steps ensures !(LeavesUnanswered(d, s0, w, steps) && Unstopped(steps)) {
        if LeavesUnanswered(d, s0, w, steps) && Unstopped(steps) {
          NotUnanswered(d, s1, w, steps, false);
          assert false;
        }
      }
    }
  }

  lemma NotUnanswered(d: Discipline, s1: State, w: ThreadId, steps: seq<Step>, stops: bool)
    requires Inv(d, s1) && CanRun(d, s1, steps) && WaitsThroughout(d, s1, steps, w) && PcOf(s1, w).FlushRaised?
    requires s1.stopRequested || (WillTest(s1, stops) && (stops || Unstopped(steps)))
    ensures !FlushLeftBehind(Run(d, s1, steps), w)
  {
    if s1.stopRequested {
      WaitsInCall(d, s1, steps, w);
      RaisedUnderStopRun(d, s1, steps, w);
    } else {
      WillTestRun(d, s1, steps, w, stops);
    }
  }

  // The flush comes to wait, somebody calls `stop` if the feeder has not passed its stop test, and the
  // feeder leaves, taking the stop down.
  lemma LeaveBehind(d: Discipline, s1: State, w: ThreadId) returns (steps: seq<Step>)
    requires Inv(d, s1) && PcOf(s1, w).FlushRaised? && !s1.stopRequested && FeederOf(s1).Some?
    requires FeederOf(s1).value.place.Leave? || FeederOf(s1).value.place.TestStopEnd?
    ensures CanRun(d, s1, steps) && WaitsThroughout(d, s1, steps, w) && FlushLeftBehind(Run(d, s1, steps), w)
    ensures FeederOf(s1).value.place.Leave? ==> Unstopped(steps)
  {
    var t := s1.feeding.value;
    var s2 := PathStep(d, s1, FlushInterrupt(w), w);
    var u;
    if FeederOf(s1).value.place.Leave? {
      u := PathStep(d, s2, FeederStep(t, 0, false), w);
      PathConcat(d, s1, [FlushInterrupt(w)], s2, [FeederStep(t, 0, false)], w, u);
      steps := [FlushInterrupt(w)] + [FeederStep(t, 0, false)];
    } else {
      steps, u := StopAndLeave(d, s2, w, t);
      PathConcat(d, s1, [FlushInterrupt(w)], s2, steps, w, u);
      steps := [FlushInterrupt(w)] + steps;
    }
  }

  lemma StopAndLeave(d: Discipline, s: State, w: ThreadId, t: ThreadId) returns (steps: seq<Step>, u: State)
    requires Inv(d, s) && PcOf(s, w).FlushWait? && s.flushRequested && s.mutex.None? && s.feeding == Some(t)
    requires PcOf(s, t).f.place.TestStopEnd?
    ensures Path(d, s, steps, w, u) && FlushLeftBehind(u, w)
  {
    var v := FreshThread(s.pcs.Keys);
    var s1 := PathStep(d, s, StartStop(v), w);
    var s2 := PathStep(d, s1, FeederStep(t, 0, false), w);
    PathConcat(d, s, [StartStop(v)], s1, [FeederStep(t, 0, false)], w, s2);
    var s3 := PathStep(d, s2, StopInterrupt(v), w);
    PathConcat(d, s, [StartStop(v)] + [FeederStep(t, 0, false)], s2, [StopInterrupt(v)], w, s3);
    u := PathStep(d, s3, FeederStep(t, 0, false), w);
    steps := [StartStop(v)] + [FeederStep(t, 0, false)] + [StopInterrupt(v)];
    PathConcat(d, s, steps, s3, [FeederStep(t, 0, false)], w, u);
    steps := steps + [FeederStep(t, 0, false)];
  }

  // This happens from the start: a feeder comes to leave, and the flush raises its flag before it does.
  lemma FlushLeftBehindRun(d: Discipline) returns (steps: seq<Step>, s: State)
    ensures RunsTo(d, None, steps, s) && FlushLeftBehind(s, 2)
    ensures forall t: ThreadId :: t != 2 ==> PcOf(s, t).Idle?
  {
    var s0;
    steps, s0 := FailedFeedRun(d);
    var f := PcOf(s0, 0).f;
    var s1 := s0.(pcs := map[0 := Feeding(f.(place := Leave))]);
    steps := Extend(d, None, steps, s0, FeederStep(0, 0, false), s1);
    var s2;
    steps, s2 := RaisedRun(d, steps, s1, 2);
    s := s2.(pcs := s2.pcs[0 := Idle], feeding := None);
    steps := Extend(d, None, steps, s2, FeederStep(0, 0, false), s);
  }

  // From there only a new feeder, another flush or a stop changes anything for the waiting threads:
  // until then every waiting flush and every held-back producer stays where it is.
  lemma LeftBehindStays(d: Discipline, s: State, step: Step, v: ThreadId, w: ThreadId)
    requires Inv(d, s) && FlushLeftBehind(s, v) && Enabled(d, s, step)
    requires !step.Enter? && !step.StartFlush? && !step.StartStop?
    requires PcOf(s, w).FlushWait? || PcOf(s, w).ConsumeGate?
    ensures FlushLeftBehind(Apply(d, s, step), v) && PcOf(Apply(d, s, step), w) == PcOf(s, w)
  {
  }
}
