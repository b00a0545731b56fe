/** What has been offered when a `flush` beside a running feeder returns to its caller. */
module FlushReturns {
  import opened Records
  import opened QueueInterface
  import opened AsyncFrontend
  import opened FrontendInvariants
  import opened FrontendTheorems
  import opened DelegatedFlush
  import opened Trips

  // `w` is inside its call, waiting or feeding by itself.
  predicate Flushing(s: State, w: ThreadId) {
    Requesting(PcOf(s, w)) || SelfFlushing(s, w)
  }

  // The call of `w` ends with the run.
  ghost predicate CallEnds(d: Discipline, s: State, steps: seq<Step>, w: ThreadId)
    requires QueueOk(s) && CanRun(d, s, steps)
    decreases |steps|
  {
    if steps == [] then PcOf(s, w).Idle?
    else
      Flushing(s, w) && (QueueOkStep(d, s, steps[0]); CallEnds(d, Apply(d, s, steps[0]), steps[1..], w))
  }

  // From the raise of the flag by `w` in `s0` the run leads to the return of the call.
  ghost predicate Returns(d: Discipline, s0: State, w: ThreadId, steps: seq<Step>)
    requires QueueOk(s0) && Enabled(d, s0, StartFlush(w))
  {
    QueueOkStep(d, s0, StartFlush(w));
    var s1 := Apply(d, s0, StartFlush(w));
    CanRun(d, s1, steps) && CallEnds(d, s1, steps, w)
  }

  // Everything accepted before the call has been offered when it returns.
  ghost predicate ReturnsDrained(d: Discipline, s0: State, w: ThreadId, steps: seq<Step>)
    requires QueueOk(s0) && Enabled(d, s0, StartFlush(w)) && Returns(d, s0, w, steps)
  {
    QueueOkStep(d, s0, StartFlush(w));
    AllOffered(Run(d, Apply(d, s0, StartFlush(w)), steps), |s0.accepted|)
  }

  lemma OfferedStays(d: Discipline, s: State, step: Step, n: nat)
    requires QueueOk(s) && Enabled(d, s, step) && AllOffered(s, n)
    ensures AllOffered(Apply(d, s, step), n)
  {
    var u := Apply(d, s, step);
    if step.FeederStep? {
      assert s.offered <= u.offered;
    } else {
      OthersAppend(d, s, step);
    }
    assert forall x :: x in s.offered ==> x in u.offered;
  }

  lemma {:induction false} OfferedStaysRun(d: Discipline, s: State, steps: seq<Step>, n: nat)
    requires QueueOk(s) && CanRun(d, s, steps) && AllOffered(s, n)
    ensures AllOffered(Run(d, s, steps), n)
    decreases |steps|
  {
    if steps == [] {
    } else {
      QueueOkStep(d, s, steps[0]);
      OfferedStays(d, s, steps[0], n);
      OfferedStaysRun(d, Apply(d, s, steps[0]), steps[1..], n);
    }
  }

  // ----- Whatever stops are called -----

  // Every return comes after the drain exactly when there was nothing to drain: a stop makes a waiting
  // flush return at once.
  lemma EveryReturnDrainsIff(d: Discipline, s0: State, w: ThreadId)
    requires Inv(d, s0) && Enabled(d, s0, StartFlush(w)) && s0.feeding.Some?
    ensures (forall steps :: Returns(d, s0, w, steps) ==> ReturnsDrained(d, s0, w, steps)) <==> NothingLeft(s0)
  {
    var s1 := Apply(d, s0, StartFlush(w));
    StepKeeps(d, s0, StartFlush(w));
    AllOfferedIff(d, s0);
    RaisedAtCall(d, s0, w);
    if NothingLeft(s0) {
      forall steps | Returns(d, s0, w, steps) ensures ReturnsDrained(d, s0, w, steps) {
        OfferedStaysRun(d, s1, steps, |s0.accepted|);
      }
    } else {
      var steps := ReturnsAtOnce(d, s1, w);
      assert Returns(d, s0, w, steps) && !ReturnsDrained(d, s0, w, steps);
    }
  }

  lemma RaisedAtCall(d: Discipline, s0: State, w: ThreadId)
    requires QueueOk(s0) && SingleInv(s0) && Enabled(d, s0, StartFlush(w)) && s0.feeding.Some?
    ensures var s1 := Apply(d, s0, StartFlush(w));
      && PcOf(s1, w) == FlushRaised(|s0.accepted|) && s1.feeding == s0.feeding && s1.offered == s0.offered
      && s1.stopRequested == s0.stopRequested && s1.flushRequested && w !in s1.noticed
      && FeederOf(s1) == FeederOf(s0) && s1.mutex == Some(w)
  {
    MoveFrame(s0, w, FlushRaised(|s0.accepted|), Apply(d, s0, StartFlush(w)));
  }

  // Its last step ends a call.
  lemma {:induction false} EndsWith(d: Discipline, s: State, steps: seq<Step>, w: ThreadId, u: State, last: Step)
    requires QueueOk(s) && Trip(d, s, steps, InFlush(w), u) && QueueOk(u)
    requires Enabled(d, u, last) && PcOf(Apply(d, u, last), w).Idle?
    ensures CanRun(d, s, steps + [last]) && CallEnds(d, s, steps + [last], w)
    ensures Run(d, s, steps + [last]) == Apply(d, u, last)
    decreases |steps|
  {
    if steps == [] {
      QueueOkStep(d, s, last);
      assert ([] + [last])[1..] == [];
    } else {
      QueueOkStep(d, s, steps[0]);
      EndsWith(d, Apply(d, s, steps[0]), steps[1..], w, u, last);
      assert (steps + [last])[1..] == steps[1..] + [last];
    }
  }

  lemma ReturnsAtOnce(d: Discipline, s1: State, w: ThreadId) returns (steps: seq<Step>)
    requires Inv(d, s1) && PcOf(s1, w).FlushRaised? && s1.feeding.Some?
    ensures CanRun(d, s1, steps) && CallEnds(d, s1, steps, w) && Run(d, s1, steps).offered == s1.offered
  {
    if s1.stopRequested {
      TripNil(d, s1, InFlush(w));
      EndsWith(d, s1, [], w, s1, FlushInterrupt(w));
      steps := [] + [FlushInterrupt(w)];
    } else {
      var s2 := FlushInterrupts(d, s1, w, InFlush(w));
      var v := FreshThread(s2.pcs.Keys);
      var a, s3 := StopBegins(d, s2, v, InFlush(w));
      TripConcat(d, s1, [FlushInterrupt(w)], s2, a, InFlush(w), s3);
      WakesToReturn(d, s3, w);
      EndsWith(d, s1, [FlushInterrupt(w)] + a, w, s3, FlushWake(w));
      steps := [FlushInterrupt(w)] + a + [FlushWake(w)];
    }
  }

  lemma WakesToReturn(d: Discipline, s: State, w: ThreadId)
    requires QueueOk(s) && PcOf(s, w).FlushWait? && s.mutex.None? && s.feeding.Some?
    requires s.stopRequested || !s.flushRequested
    ensures Enabled(d, s, FlushWake(w)) && Apply(d, s, FlushWake(w)) == At(s, w, Idle)
  {
  }

  // ----- As long as nobody calls `stop` -----

  // Drained, or still waiting for the first answer.
  ghost predicate DrainedOrUnanswered(d: Discipline, s0: State, s: State, w: ThreadId) {
    || AllOffered(s, |s0.accepted|)
    || (!s.stopRequested && Waits(s, w) && PcOf(s, w).mark == |s0.accepted| && Unseen(d, s0, s, w))
  }

  lemma AnswerDrains(d: Discipline, s0: State, s: State, w: ThreadId, t: ThreadId)
    requires Inv(d, s0) && Inv(d, s) && (!MayMiss(d, s0) || NothingLeft(s0)) && Answering(s, t)
    requires DrainedOrUnanswered(d, s0, s, w)
    ensures AllOffered(s, |s0.accepted|)
  {
    AllOfferedIff(d, s0);
    assert FeederOf(s) == Some(PcOf(s, t).f);
  }

  lemma StepTowardsReturn(d: Discipline, s0: State, s: State, step: Step, w: ThreadId)
    requires Inv(d, s0) && Inv(d, s) && (!MayMiss(d, s0) || NothingLeft(s0))
    requires Enabled(d, s, step) && !step.StartStop? && DrainedOrUnanswered(d, s0, s, w)
    ensures DrainedOrUnanswered(d, s0, Apply(d, s, step), w)
  {
    if IsClearing(s, step) {
      AnswerDrains(d, s0, s, w, step.t);
    }
    if AllOffered(s, |s0.accepted|) {
      OfferedStays(d, s, step, |s0.accepted|);
    } else {
      UnseenStep(d, s0, s, step, w);
      StillWaits(d, s, step, w);
    }
  }

  lemma StillWaits(d: Discipline, s: State, step: Step, w: ThreadId)
    requires Inv(d, s) && Enabled(d, s, step) && !step.StartStop? && !IsClearing(s, step)
    requires !s.stopRequested && Waits(s, w)
    ensures var u := Apply(d, s, step);
      !u.stopRequested && Waits(u, w) && PcOf(u, w).mark == PcOf(s, w).mark
  {
    RequestsEnd(d, s, step);
    if step.FeederStep? && !PcOf(s, step.t).f.place.Leave? {
      FeederFrame(d, s, step.t, PcOf(s, step.t).f, step.k, step.take);
    }
  }

  lemma {:induction false} ReturnDrained(d: Discipline, s0: State, s: State, steps: seq<Step>, w: ThreadId)
    requires Inv(d, s0) && Inv(d, s) && (!MayMiss(d, s0) || NothingLeft(s0))
    requires CanRun(d, s, steps) && CallEnds(d, s, steps, w) && Unstopped(steps)
    requires DrainedOrUnanswered(d, s0, s, w)
    ensures AllOffered(Run(d, s, steps), |s0.accepted|)
    decreases |steps|
  {
    if steps == [] {
    } else {
      StepKeeps(d, s, steps[0]);
      StepTowardsReturn(d, s0, s, steps[0], w);
      ReturnDrained(d, s0, Apply(d, s, steps[0]), steps[1..], w);
    }
  }

  // As long as nobody calls `stop`, every return comes after the drain exactly when there was nothing to
  // drain, or no stop was pending and the feeder cannot miss the request.
  lemma EveryUnstoppedReturnDrainsIff(d: Discipline, s0: State, w: ThreadId)
    requires Inv(d, s0) && Enabled(d, s0, StartFlush(w)) && s0.feeding.Some?
    ensures (forall steps :: Returns(d, s0, w, steps) && Unstopped(steps) ==> ReturnsDrained(d, s0, w, steps))
            <==> (NothingLeft(s0) || (!s0.stopRequested && !MayMiss(d, s0)))
  {
    var s1 := Apply(d, s0, StartFlush(w));
    StepKeeps(d, s0, StartFlush(w));
    AllOfferedIff(d, s0);
    RaisedAtCall(d, s0, w);
    if NothingLeft(s0) || (!s0.stopRequested && !MayMiss(d, s0)) {
      UnseenAtCall(d, s0, w);
      forall steps | Returns(d, s0, w, steps) && Unstopped(steps) ensures ReturnsDrained(d, s0, w, steps) {
        ReturnDrained(d, s0, s1, steps, w);
      }
    } else {
      var steps;
      if s0.stopRequested {
        TripNil(d, s1, InFlush(w));
        EndsWith(d, s1, [], w, s1, FlushInterrupt(w));
        steps := [] + [FlushInterrupt(w)];
      } else {
        steps := ReturnsMissed(d, s1, w, s0.feeding.value);
      }
      assert Returns(d, s0, w, steps) && Unstopped(steps) && !ReturnsDrained(d, s0, w, steps);
    }
  }

  // The feeder answers without having seen the request, and the flush returns before it leaves.
  lemma ReturnsMissed(d: Discipline, s1: State, w: ThreadId, t: ThreadId) returns (steps: seq<Step>)
    requires Inv(d, s1) && PcOf(s1, w).FlushRaised? && !s1.stopRequested && s1.feeding == Some(t)
    requires MayMiss(d, s1) && w !in s1.noticed
    ensures CanRun(d, s1, steps) && CallEnds(d, s1, steps, w) && Unstopped(steps)
    ensures Run(d, s1, steps).offered == s1.offered
  {
    var a, s2 := AnsweredUnseen(d, s1, w, t);
    WakesToReturn(d, s2, w);
    EndsWith(d, s1, a, w, s2, FlushWake(w));
    steps := a + [FlushWake(w)];
  }

  lemma AnsweredUnseen(d: Discipline, s1: State, w: ThreadId, t: ThreadId) returns (steps: seq<Step>, u: State)
    requires Inv(d, s1) && PcOf(s1, w).FlushRaised? && !s1.stopRequested && s1.feeding == Some(t)
    requires MayMiss(d, s1) && w !in s1.noticed
    ensures Trip(d, s1, steps, InFlush(w), u) && Unstopped(steps)
    ensures Fed(d, u, t) && !u.flushRequested && u.offered == s1.offered && PcOf(u, w).FlushWait?
  {
    var s2 := FlushInterrupts(d, s1, w, InFlush(w));
    var a;
    a, u := AnsweredFrom(d, s2, w, t);
    TripConcat(d, s1, [FlushInterrupt(w)], s2, a, InFlush(w), u);
    steps := [FlushInterrupt(w)] + a;
  }

  lemma AnsweredFrom(d: Discipline, s: State, w: ThreadId, t: ThreadId) returns (steps: seq<Step>, u: State)
    requires Fed(d, s, t) && MayMiss(d, s) && PcOf(s, w).FlushWait? && s.flushRequested && w !in s.noticed
    ensures Trip(d, s, steps, InFlush(w), u) && FeederOnly(steps)
    ensures Fed(d, u, t) && !u.flushRequested && u.offered == s.offered && PcOf(u, w) == PcOf(s, w)
  {
    var a, s' := ComesToAnswer(d, s, w, t);
    var b;
    b, u := Answers(d, s', w, t);
    TripConcat(d, s, a, s', b, InFlush(w), u);
    steps := a + b;
  }

  lemma ComesToAnswer(d: Discipline, s: State, w: ThreadId, t: ThreadId) returns (steps: seq<Step>, u: State)
    requires Fed(d, s, t) && MayMiss(d, s) && PcOf(s, w).FlushWait? && s.flushRequested && w !in s.noticed
    ensures Trip(d, s, steps, InFlush(w), u) && FeederOnly(steps)
    ensures Fed(d, u, t) && Answering(u, t) && u.offered == s.offered && PcOf(u, w) == PcOf(s, w)
  {
    steps, u := MissedFrom(d, s, w, t);
    WaitsInCall(d, s, steps, w);
  }

  lemma Answers(d: Discipline, s: State, w: ThreadId, t: ThreadId) returns (steps: seq<Step>, u: State)
    requires Fed(d, s, t) && Answering(s, t) && PcOf(s, w).FlushWait?
    ensures Trip(d, s, steps, InFlush(w), u) && FeederOnly(steps)
    ensures Fed(d, u, t) && !u.flushRequested && u.offered == s.offered && PcOf(u, w) == PcOf(s, w)
  {
    if PcOf(s, t).f.place.ClearFlag? {
      u := Clears(d, s, w, t);
      steps := [FeederStep(t, 0, false)];
    } else {
      FeederFrame(d, s, t, PcOf(s, t).f, 0, false);
      var s' := TripStep(d, s, FeederStep(t, 0, false), InFlush(w));
      u := Clears(d, s', w, t);
      TripConcat(d, s, [FeederStep(t, 0, false)], s', [FeederStep(t, 0, false)], InFlush(w), u);
      steps := [FeederStep(t, 0, false)] + [FeederStep(t, 0, false)];
    }
  }

  lemma Clears(d: Discipline, s: State, w: ThreadId, t: ThreadId) returns (u: State)
    requires Fed(d, s, t) && PcOf(s, t).Feeding? && PcOf(s, t).f.place.ClearFlag? && PcOf(s, w).FlushWait?
    ensures Trip(d, s, [FeederStep(t, 0, false)], InFlush(w), u)
    ensures Fed(d, u, t) && !u.flushRequested && u.offered == s.offered && PcOf(u, w) == PcOf(s, w)
  {
    FeederFrame(d, s, t, PcOf(s, t).f, 0, false);
    u := TripStep(d, s, FeederStep(t, 0, false), InFlush(w));
  }
}
