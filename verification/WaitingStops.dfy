/**
 Calls of `stop`: when the wait for a feeder to leave can end, and when it can go on for ever.
 */
module WaitingStops {
  import opened Records
  import opened QueueInterface
  import opened AsyncFrontend
  import opened FrontendInvariants
  import opened FrontendTheorems
  import opened DelegatedFlush
  import opened Trips

  // A thread that may still come to feed: it has called `run` or `feed_records`, or its flush waits.
  predicate Coming(s: State, t: ThreadId) {
    PcOf(s, t).RunEntry? || PcOf(s, t).FeedEntry? || PcOf(s, t).FlushWait?
  }

  ghost predicate OnItsWay(s: State) {
    exists t: ThreadId :: Coming(s, t)
  }

  // Nobody feeds or will, and the flag stays up.
  ghost predicate Stranded(s: State, v: ThreadId) {
    StopWaits(s, v) && s.stopRequested && s.feeding.None? && !OnItsWay(s)
  }

  lemma StrandedStep(d: Discipline, s: State, step: Step, v: ThreadId)
    requires Inv(d, s) && Enabled(d, s, step) && !BeginsFeeding(step) && Stranded(s, v)
    ensures Stranded(Apply(d, s, step), v)
  {
    var u := Apply(d, s, step);
    assert !Coming(s, step.t);
    forall t: ThreadId ensures !Coming(u, t) {
      assert !Coming(s, t);
      ComingBefore(d, s, step, t);
    }
  }

  lemma ComingBefore(d: Discipline, s: State, step: Step, t: ThreadId)
    requires Inv(d, s) && Enabled(d, s, step) && !BeginsFeeding(step) && s.feeding.None?
    ensures Coming(Apply(d, s, step), t) ==> Coming(s, t)
  {
    if t == step.t {
      assert s.mutex.Some? && PcOf(s, t).FlushRaised? ==> s.feeding.Some?;
    } else {
      BesideStep(d, s, step, t);
    }
  }

  lemma {:induction false} StrandedRun(d: Discipline, s: State, steps: seq<Step>, v: ThreadId)
    requires Inv(d, s) && CanRun(d, s, steps) && NoNewFeeding(steps) && Stranded(s, v)
    ensures Stranded(Run(d, s, steps), v)
    decreases |steps|
  {
    if steps == [] {
    } else {
      StepKeeps(d, s, steps[0]);
      StrandedStep(d, s, steps[0], v);
      StrandedRun(d, Apply(d, s, steps[0]), steps[1..], v);
    }
  }

  // ----- When a stop can return -----

  // The run goes on from the call of `stop` by `v` in `s0` to where its wait for the feeder has ended.
  ghost predicate StopReturns(d: Discipline, s0: State, v: ThreadId, steps: seq<Step>)
    requires QueueOk(s0) && Enabled(d, s0, StartStop(v))
  {
    QueueOkStep(d, s0, StartStop(v));
    var s1 := Apply(d, s0, StartStop(v));
    CanRun(d, s1, steps) && NoNewFeeding(steps) && !StopWaits(Run(d, s1, steps), v)
  }

  // A stop waits for ever, unless somebody begins to feed after its call, exactly when at its call there
  // is a dedicated thread not joined yet, but no feeder and nobody on its way to feed. Otherwise it may
  // return.
  lemma StopReturnsIff(d: Discipline, s0: State, v: ThreadId)
    requires Inv(d, s0) && Enabled(d, s0, StartStop(v)) && (d.Ordered? ==> StrictWeakOrder(d.less))
    ensures (exists steps :: StopReturns(d, s0, v, steps))
            <==> (s0.feeding.Some? || s0.dedicated.None? || OnItsWay(s0))
  {
    StepKeeps(d, s0, StartStop(v));
    if s0.feeding.None? && s0.dedicated.None? {
      assert StopReturns(d, s0, v, []);
    } else {
      StopFlagUp(d, s0, v);
      if s0.feeding.Some? || OnItsWay(s0) {
        var steps := StopAnswered(d, s0, Apply(d, s0, StartStop(v)), v);
        assert StopReturns(d, s0, v, steps);
      } else {
        NobodyComes(s0, Apply(d, s0, StartStop(v)), v);
        forall steps ensures !StopReturns(d, s0, v, steps) {
          if StopReturns(d, s0, v, steps) {
            StrandedRun(d, Apply(d, s0, StartStop(v)), steps, v);
            assert false;
          }
        }
      }
    }
  }

  lemma NobodyComes(s0: State, s1: State, v: ThreadId)
    requires !OnItsWay(s0) && PcOf(s1, v).StopRaised? && OnlyMoved(s0, s1, v)
    ensures !OnItsWay(s1)
  {
    forall t: ThreadId ensures !Coming(s1, t) {
      assert !Coming(s0, t);
      assert t != v ==> PcOf(s1, t) == PcOf(s0, t);
    }
  }

  lemma StopAnswered(d: Discipline, s0: State, s1: State, v: ThreadId) returns (steps: seq<Step>)
    requires Inv(d, s1) && PcOf(s1, v).StopRaised? && PcOf(s0, v).Idle? && OnlyMoved(s0, s1, v)
    requires (s0.feeding.Some? || OnItsWay(s0)) && (d.Ordered? ==> StrictWeakOrder(d.less))
    ensures CanRun(d, s1, steps) && NoNewFeeding(steps) && !StopWaits(Run(d, s1, steps), v)
  {
    var s2 := StopInterrupts(d, s1, v, Nobody);
    if s0.feeding.None? {
      var x: ThreadId :| Coming(s0, x);
      assert Coming(s2, x);
    }
    var a, t, s3 := SomebodyFeeds(d, s2, v, Nobody);
    TripConcat(d, s1, [StopInterrupt(v)], s2, a, Nobody, s3);
    var b, u := DriveOut(d, s3, v, t);
    TripConcat(d, s1, [StopInterrupt(v)] + a, s3, b, Nobody, u);
    steps := [StopInterrupt(v)] + a + b;
  }

  // Whoever is on its way becomes the feeder, if there is none.
  lemma SomebodyFeeds(d: Discipline, s: State, v: ThreadId, watch: Watch)
      returns (steps: seq<Step>, t: ThreadId, u: State)
    requires Inv(d, s) && PcOf(s, v).StopWait? && s.stopRequested && s.mutex.None?
    requires (s.feeding.Some? || OnItsWay(s)) && (watch == Nobody || watch == InStop(v))
    ensures Trip(d, s, steps, watch, u) && NoNewFeeding(steps)
    ensures Fed(d, u, t) && u.stopRequested && PcOf(u, v).StopWait? && u.dedicated == s.dedicated
    ensures forall x: ThreadId :: Coming(u, x) ==> Coming(s, x)
  {
    if s.feeding.Some? {
      steps, t, u := [], s.feeding.value, s;
    } else {
      t :| Coming(s, t);
      var step := if PcOf(s, t).FlushWait? then FlushWake(t) else Enter(t);
      BeginsToFeed(d, s, step);
      u := TripStep(d, s, step, watch);
      steps := [step];
    }
  }

  lemma BeginsToFeed(d: Discipline, s: State, step: Step)
    requires QueueOk(s) && Enabled(d, s, step) && (step.FlushWake? || step.Enter?)
    requires s.feeding.None? && s.stopRequested
    ensures var u := Apply(d, s, step);
      && u.feeding == Some(step.t) && u.mutex == s.mutex && u.stopRequested && u.dedicated == s.dedicated
      && PcOf(u, step.t).Feeding? && forall x: ThreadId :: x != step.t ==> PcOf(u, x) == PcOf(s, x)
  {
  }

  lemma Wakes(d: Discipline, s: State, v: ThreadId) returns (u: State)
    requires Inv(d, s) && s.mutex.None? && PcOf(s, v).StopWait? && !s.stopRequested
    ensures Trip(d, s, [StopWake(v)], Nobody, u) && QueueOk(u) && !StopWaits(u, v)
  {
    u := TripStep(d, s, StopWake(v), Nobody);
  }

  // The feeder leaves, and the stop finds it has.
  lemma DriveOut(d: Discipline, s: State, v: ThreadId, t: ThreadId) returns (steps: seq<Step>, u: State)
    requires Fed(d, s, t) && s.stopRequested && PcOf(s, v).StopWait? && (d.Ordered? ==> StrictWeakOrder(d.less))
    ensures Trip(d, s, steps, Nobody, u) && NoNewFeeding(steps) && !StopWaits(u, v)
  {
    var a, s1 := DriveToLeave(d, s, t, Nobody);
    var s2 := Leaves(d, s1, t, Nobody);
    TripConcat(d, s, a, s1, [FeederStep(t, 0, false)], Nobody, s2);
    u := Wakes(d, s2, v);
    TripConcat(d, s, a + [FeederStep(t, 0, false)], s2, [StopWake(v)], Nobody, u);
    steps := a + [FeederStep(t, 0, false)] + [StopWake(v)];
  }

  // ----- What a return of stop means -----

  // The thread the sink was made with, until it is joined.
  lemma {:induction false} DedicatedStays(d: Discipline, s: State, steps: seq<Step>, t: ThreadId)
    requires QueueOk(s) && CanRun(d, s, steps) && (s.dedicated.Some? ==> s.dedicated == Some(t))
    ensures Run(d, s, steps).dedicated.Some? ==> Run(d, s, steps).dedicated == Some(t)
    decreases |steps|
  {
    if steps == [] {
    } else {
      QueueOkStep(d, s, steps[0]);
      DedicatedStep(d, s, steps[0]);
      DedicatedStays(d, Apply(d, s, steps[0]), steps[1..], t);
    }
  }

  lemma DedicatedStep(d: Discipline, s: State, step: Step)
    requires QueueOk(s) && Enabled(d, s, step)
    ensures Apply(d, s, step).dedicated == if step.Join? then None else s.dedicated
  {
  }

  // The last step of a call of `stop`.
  predicate Returning(s: State, step: Step) {
    step.Join? || (step.StartStop? && s.feeding.None? && s.dedicated.None?)
  }

  // Whenever a stop returns, the thread the sink was made with has left its loop and been joined, or was
  // joined before; and no stop returns otherwise.
  lemma StopReturnsJoined(d: Discipline, t: ThreadId, steps: seq<Step>, s: State, step: Step)
    requires RunsTo(d, Some(t), steps, s) && QueueOk(s) && Enabled(d, s, step)
    ensures Returning(s, step) ==>
              var u := Apply(d, s, step);
              u.dedicated.None? && PcOf(u, step.t).Idle? && (s.dedicated.Some? ==> PcOf(s, t).Idle?)
    ensures forall v: ThreadId :: (StopWaits(s, v) || PcOf(s, v).Joining?) && PcOf(Apply(d, s, step), v).Idle? ==>
              step == Join(v)
  {
    DedicatedStays(d, Init(Some(t)), steps, t);
    DedicatedStep(d, s, step);
    forall v: ThreadId | (StopWaits(s, v) || PcOf(s, v).Joining?) && PcOf(Apply(d, s, step), v).Idle?
      ensures step == Join(v)
    {
      if v != step.t {
        BesideStep(d, s, step, v);
      }
    }
  }

  // ----- When a stop can be stranded -----

  // The run leads from the call of `stop` by `v`, within the call, to where it is stranded.
  ghost predicate Strands(d: Discipline, s0: State, v: ThreadId, steps: seq<Step>)
    requires QueueOk(s0) && Enabled(d, s0, StartStop(v))
  {
    QueueOkStep(d, s0, StartStop(v));
    var s1 := Apply(d, s0, StartStop(v));
    CanRun(d, s1, steps) && Throughout(d, s1, steps, InStop(v)) && Stranded(Run(d, s1, steps), v)
  }

  // Without a thread to join, a stop is pending only beside a feeder, which takes it down.
  ghost predicate StopHasFeeder(s: State) {
    s.dedicated.None? && (s.stopRequested ==> s.feeding.Some?)
  }

  lemma StopHasFeederStep(d: Discipline, s: State, step: Step)
    requires Inv(d, s) && Enabled(d, s, step) && StopHasFeeder(s)
    ensures StopHasFeeder(Apply(d, s, step))
  {
  }

  lemma {:induction false} StopHasFeederRun(d: Discipline, s: State, steps: seq<Step>)
    requires Inv(d, s) && CanRun(d, s, steps) && StopHasFeeder(s)
    ensures StopHasFeeder(Run(d, s, steps))
    decreases |steps|
  {
    if steps == [] {
    } else {
      StepKeeps(d, s, steps[0]);
      StopHasFeederStep(d, s, steps[0]);
      StopHasFeederRun(d, Apply(d, s, steps[0]), steps[1..]);
    }
  }

  // A stop can come to wait for ever exactly when there is a dedicated thread not joined yet at its call:
  // if its feeder leaves, another stop may raise the flag again before it looks.
  lemma StopStrandsIff(d: Discipline, s0: State, v: ThreadId)
    requires Inv(d, s0) && Enabled(d, s0, StartStop(v)) && (d.Ordered? ==> StrictWeakOrder(d.less))
    ensures (exists steps :: Strands(d, s0, v, steps)) <==> s0.dedicated.Some?
  {
    var s1 := Apply(d, s0, StartStop(v));
    StepKeeps(d, s0, StartStop(v));
    if s0.dedicated.Some? {
      StopFlagUp(d, s0, v);
      var steps := StrandingRun(d, s1, v);
      assert Strands(d, s0, v, steps);
    } else {
      forall steps ensures !Strands(d, s0, v, steps) {
        if Strands(d, s0, v, steps) {
          if s0.feeding.Some? {
            StopHasFeederRun(d, s1, steps);
          }
          assert false;
        }
      }
    }
  }

  lemma StrandingRun(d: Discipline, s1: State, v: ThreadId) returns (steps: seq<Step>)
    requires Inv(d, s1) && PcOf(s1, v).StopRaised? && s1.stopRequested && s1.dedicated.Some?
    requires d.Ordered? ==> StrictWeakOrder(d.less)
    ensures CanRun(d, s1, steps) && Throughout(d, s1, steps, InStop(v)) && Stranded(Run(d, s1, steps), v)
  {
    if s1.feeding.None? && !OnItsWay(s1) {
      steps := [];
    } else {
      var s2 := StopInterrupts(d, s1, v, InStop(v));
      var t0: ThreadId;
      if s1.feeding.None? {
        t0 :| Coming(s1, t0);
        assert Coming(s2, t0);
      }
      var a, t, s3 := SomebodyFeeds(d, s2, v, InStop(v));
      TripConcat(d, s1, [StopInterrupt(v)], s2, a, InStop(v), s3);
      var b, u := LeavesAlone(d, s3, v, t);
      TripConcat(d, s1, [StopInterrupt(v)] + a, s3, b, InStop(v), u);
      steps := [StopInterrupt(v)] + a + b;
    }
  }

  // Everybody on the way to feed is turned away, the feeder leaves, and somebody else calls `stop`.
  lemma LeavesAlone(d: Discipline, s: State, v: ThreadId, t: ThreadId) returns (steps: seq<Step>, u: State)
    requires Fed(d, s, t) && s.stopRequested && s.dedicated.Some? && PcOf(s, v).StopWait?
    requires d.Ordered? ==> StrictWeakOrder(d.less)
    ensures Trip(d, s, steps, InStop(v), u) && Stranded(u, v)
  {
    var a, s1 := TurnedAway(d, s, v, t, s.pcs.Keys);
    var b, s2 := DriveToLeave(d, s1, t, InStop(v));
    TripConcat(d, s, a, s1, b, InStop(v), s2);
    var c;
    c, u := StoppedAgain(d, s1, s2, v, t);
    TripConcat(d, s, a + b, s2, c, InStop(v), u);
    steps := a + b + c;
  }

  lemma StoppedAgain(d: Discipline, s1: State, s2: State, v: ThreadId, t: ThreadId) returns (steps: seq<Step>, u: State)
    requires !OnItsWay(s1) && OnlyFed(s1, s2, t) && s1.dedicated.Some? && PcOf(s2, v).StopWait?
    requires Fed(d, s2, t) && PcOf(s2, t).f.place.Leave?
    ensures Trip(d, s2, steps, InStop(v), u) && Stranded(u, v)
  {
    var s3 := Leaves(d, s2, t, InStop(v));
    var y := FreshThread(s3.pcs.Keys);
    StopFlagUp(d, s3, y);
    u := TripStep(d, s3, StartStop(y), InStop(v));
    TripConcat(d, s2, [FeederStep(t, 0, false)], s3, [StartStop(y)], InStop(v), u);
    steps := [FeederStep(t, 0, false)] + [StartStop(y)];
    forall x: ThreadId ensures !Coming(u, x) {
      assert !Coming(s1, x);
    }
  }

  // Beside a feeder and under a stop, the threads on the way to feed get an exception or return.
  lemma {:induction false} TurnedAway(d: Discipline, s: State, v: ThreadId, t: ThreadId, left: set<ThreadId>)
      returns (steps: seq<Step>, u: State)
    requires Fed(d, s, t) && s.stopRequested && s.dedicated.Some? && PcOf(s, v).StopWait?
    requires forall x: ThreadId :: Coming(s, x) ==> x in left
    ensures Trip(d, s, steps, InStop(v), u)
    ensures Fed(d, u, t) && u.stopRequested && u.dedicated.Some? && PcOf(u, v).StopWait? && !OnItsWay(u)
    decreases |left|
  {
    if left == {} {
      steps, u := [], s;
    } else {
      var x :| x in left;
      if Coming(s, x) {
        var step, s' := TurnedAwayOne(d, s, v, t, x);
        NoLongerComing(s, x);
        var rest;
        rest, u := TurnedAway(d, s', v, t, left - {x});
        TripConcat(d, s, [step], s', rest, InStop(v), u);
        steps := [step] + rest;
      } else {
        steps, u := TurnedAway(d, s, v, t, left - {x});
      }
    }
  }

  lemma NoLongerComing(s: State, x: ThreadId)
    ensures forall y: ThreadId :: Coming(At(s, x, Idle), y) ==> Coming(s, y) && y != x
  {
  }

  lemma TurnedAwayOne(d: Discipline, s: State, v: ThreadId, t: ThreadId, x: ThreadId) returns (step: Step, u: State)
    requires Fed(d, s, t) && s.stopRequested && s.dedicated.Some? && PcOf(s, v).StopWait? && Coming(s, x)
    ensures Trip(d, s, [step], InStop(v), u) && Fed(d, u, t)
    ensures u == At(s, x, Idle)
  {
    step := if PcOf(s, x).FlushWait? then FlushWake(x) else Enter(x);
    GetsNothing(d, s, step);
    u := TripStep(d, s, step, InStop(v));
  }

  lemma GetsNothing(d: Discipline, s: State, step: Step)
    requires QueueOk(s) && Enabled(d, s, step) && (step.FlushWake? || step.Enter?)
    requires s.feeding.Some? && s.stopRequested
    ensures Apply(d, s, step) == At(s, step.t, Idle)
  {
  }

  // ----- Two overlapping stops -----

  // Feeding in the dedicated thread while thread 1 waits for it to stop.
  function Overlap(place: Place, sawStop: bool): State {
    Init(Some(0)).(pcs := map[0 := Feeding(Feeder(RunLoop, place, false, sawStop, 0)), 1 := StopWait],
                   stopRequested := true, feeding := Some(0), interruption := true)
  }

  lemma OverlapStep(d: Discipline, steps: seq<Step>, here: Place, saw: bool, there: Place) returns (longer: seq<Step>)
    requires RunsTo(d, Some(0), steps, Overlap(here, saw)) && QueueOk(Overlap(here, saw))
    requires (here == TestStop && there == TestFlushEnd) || (here == TestFlushEnd && saw && there == TestStopEnd)
          || (here == TestStopEnd && saw && there == Leave)
    ensures RunsTo(d, Some(0), longer, Overlap(there, true)) && QueueOk(Overlap(there, true))
  {
    longer := Extend(d, Some(0), steps, Overlap(here, saw), FeederStep(0, 0, false), Overlap(there, true));
  }

  lemma StopBegunRun(d: Discipline) returns (steps: seq<Step>)
    ensures RunsTo(d, Some(0), steps, Overlap(TestStop, false)) && QueueOk(Overlap(TestStop, false))
  {
    var s0 := Init(Some(0));
    var s1 := s0.(pcs := map[0 := NewFeeder(RunLoop)], feeding := Some(0));
    steps := Extend(d, Some(0), [], s0, Enter(0), s1);
    var s2 := s1.(pcs := map[0 := NewFeeder(RunLoop), 1 := StopRaised], stopRequested := true, mutex := Some(1));
    steps := Extend(d, Some(0), steps, s1, StartStop(1), s2);
    steps := Extend(d, Some(0), steps, s2, StopInterrupt(1), Overlap(TestStop, false));
  }

  lemma StoppedOnceRun(d: Discipline) returns (steps: seq<Step>)
    ensures RunsTo(d, Some(0), steps, Overlap(Leave, true)) && QueueOk(Overlap(Leave, true))
  {
    steps := StopBegunRun(d);
    steps := OverlapStep(d, steps, TestStop, false, TestFlushEnd);
    steps := OverlapStep(d, steps, TestFlushEnd, true, TestStopEnd);
    steps := OverlapStep(d, steps, TestStopEnd, true, Leave);
  }

  // The thread has ended, and thread 1 has not looked yet.
  function Ended(): State {
    Overlap(Leave, true).(pcs := map[0 := Idle, 1 := StopWait], stopRequested := false, feeding := None)
  }

  lemma EndedRun(d: Discipline) returns (steps: seq<Step>)
    ensures RunsTo(d, Some(0), steps, Ended()) && QueueOk(Ended())
  {
    steps := StoppedOnceRun(d);
    steps := Extend(d, Some(0), steps, Overlap(Leave, true), FeederStep(0, 0, false), Ended());
  }

  // Two stops of a sink with its dedicated thread: the first one ends the thread, and before it joins it
  // the second one comes to wait for nobody.
  lemma StrandedStopRun(d: Discipline) returns (steps: seq<Step>, s: State)
    ensures RunsTo(d, Some(0), steps, s) && Stranded(s, 2) && PcOf(s, 1).StopWait?
  {
    steps := EndedRun(d);
    s := Ended().(pcs := map[0 := Idle, 1 := StopWait, 2 := StopRaised], stopRequested := true, mutex := Some(2));
    steps := Extend(d, Some(0), steps, Ended(), StartStop(2), s);
  }
}
