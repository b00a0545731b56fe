/** Calls of `consume` that find the flush flag up: when they can go on, and when they are held back for ever. */
module HeldBack {
  import opened Records
  import opened QueueInterface
  import opened AsyncFrontend
  import opened FrontendInvariants
  import opened FrontendTheorems
  import opened DelegatedFlush
  import opened Trips
  import opened WaitingStops

  // A thread that becomes the feeder if it finds none.
  ghost predicate Entering(s: State) {
    exists t: ThreadId :: PcOf(s, t).RunEntry? || PcOf(s, t).FeedEntry?
  }

  // A flush that waits, or is about to.
  predicate WaitingFlush(s: State, w: ThreadId) {
    PcOf(s, w).FlushWait? || (PcOf(s, w).FlushRaised? && !s.stopRequested)
  }

  // A stop makes a waiting flush feed by itself if there is no feeder; without a feeder a stop can be
  // called only while the dedicated thread is not joined.
  ghost predicate FlushMayTakeOver(s: State) {
    && (exists w: ThreadId :: WaitingFlush(s, w))
    && (s.dedicated.Some? || (s.feeding.None? && s.stopRequested))
  }

  // The feeder will take the flag down.
  ghost predicate FeederWillClear(s: State) {
    FeederOf(s).Some? && WillClear(s, FeederOf(s).value)
  }

  ghost predicate MayPass(s: State) {
    !s.flushRequested || FeederWillClear(s) || Entering(s) || FlushMayTakeOver(s)
  }

  // Nobody begins to feed, and the producer gets past the gate.
  ghost predicate Passes(d: Discipline, s: State, p: ThreadId, steps: seq<Step>)
    requires QueueOk(s)
  {
    CanRun(d, s, steps) && NoNewFeeding(steps) && !PcOf(Run(d, s, steps), p).ConsumeGate?
  }

  // ----- Held back -----

  lemma EnteringBefore(d: Discipline, s: State, step: Step)
    requires QueueOk(s) && Enabled(d, s, step) && !BeginsFeeding(step) && Entering(Apply(d, s, step))
    ensures Entering(s)
  {
    var t: ThreadId :| PcOf(Apply(d, s, step), t).RunEntry? || PcOf(Apply(d, s, step), t).FeedEntry?;
    EntryBefore(d, s, step, t);
  }

  lemma EntryBefore(d: Discipline, s: State, step: Step, t: ThreadId)
    requires QueueOk(s) && Enabled(d, s, step) && !BeginsFeeding(step)
    requires var pc := PcOf(Apply(d, s, step), t); pc.RunEntry? || pc.FeedEntry?
    ensures PcOf(s, t).RunEntry? || PcOf(s, t).FeedEntry?
  {
    if t != step.t {
      BesideStep(d, s, step, t);
    }
  }

  lemma WaitingBefore(d: Discipline, s: State, step: Step, w: ThreadId)
    requires Inv(d, s) && Enabled(d, s, step) && !BeginsFeeding(step) && WaitingFlush(Apply(d, s, step), w)
    ensures WaitingFlush(s, w)
  {
    if w != step.t {
      BesideStep(d, s, step, w);
    }
    assert PcOf(s, w).FlushRaised? ==> s.mutex == Some(w);
  }

  // Without a feeder that will clear the flag, it stays up and none comes.
  lemma NoFeederStep(d: Discipline, s: State, step: Step)
    requires Inv(d, s) && Enabled(d, s, step) && !BeginsFeeding(step) && !MayPass(s)
    ensures Apply(d, s, step).flushRequested && !FeederWillClear(Apply(d, s, step))
  {
    if step.FeederStep? {
      var f := PcOf(s, step.t).f;
      assert FeederOf(s) == Some(f);
      if !f.place.Leave? {
        FeederFrame(d, s, step.t, f, step.k, step.take);
      }
    } else {
      OthersBesideFeeder(d, s, step);
    }
  }

  lemma OthersBesideFeeder(d: Discipline, s: State, step: Step)
    requires Inv(d, s) && Enabled(d, s, step) && !BeginsFeeding(step) && !step.FeederStep? && !MayPass(s)
    ensures var u := Apply(d, s, step);
      u.flushRequested && FeederOf(u) == FeederOf(s) && (s.stopRequested ==> u.stopRequested)
  {
    assert step.Enter? ==> Entering(s);
    assert step.FlushWake? ==> WaitingFlush(s, step.t);
    RequestsEnd(d, s, step);
    OthersLeaveFeeder(d, s, step);
  }

  lemma TakeOverBefore(d: Discipline, s: State, step: Step)
    requires Inv(d, s) && Enabled(d, s, step) && !BeginsFeeding(step) && !MayPass(s)
    ensures !FlushMayTakeOver(Apply(d, s, step))
  {
    var u := Apply(d, s, step);
    if w: ThreadId :| WaitingFlush(u, w) {
      WaitingBefore(d, s, step, w);
      NoStopWithoutFeeder(d, s, step);
    }
  }

  // With no thread to join, no stop is pending once the feeder has gone.
  lemma NoStopWithoutFeeder(d: Discipline, s: State, step: Step)
    requires Inv(d, s) && Enabled(d, s, step) && !BeginsFeeding(step) && s.dedicated.None?
    requires s.stopRequested ==> s.feeding.Some?
    ensures StopHasFeeder(Apply(d, s, step))
  {
    StopHasFeederStep(d, s, step);
  }

  lemma HeldBackStep(d: Discipline, s: State, step: Step, p: ThreadId)
    requires Inv(d, s) && Enabled(d, s, step) && !BeginsFeeding(step) && !MayPass(s) && PcOf(s, p).ConsumeGate?
    ensures !MayPass(Apply(d, s, step)) && PcOf(Apply(d, s, step), p).ConsumeGate?
  {
    NoFeederStep(d, s, step);
    TakeOverBefore(d, s, step);
    if Entering(Apply(d, s, step)) {
      EnteringBefore(d, s, step);
    }
    StaysAtGate(d, s, step, p);
  }

  lemma StaysAtGate(d: Discipline, s: State, step: Step, p: ThreadId)
    requires QueueOk(s) && Enabled(d, s, step) && s.flushRequested && PcOf(s, p).ConsumeGate?
    ensures PcOf(Apply(d, s, step), p).ConsumeGate?
  {
  }

  lemma {:induction false} HeldBackRunOn(d: Discipline, s: State, steps: seq<Step>, p: ThreadId)
    requires Inv(d, s) && CanRun(d, s, steps) && NoNewFeeding(steps) && !MayPass(s) && PcOf(s, p).ConsumeGate?
    ensures PcOf(Run(d, s, steps), p).ConsumeGate?
    decreases |steps|
  {
    if steps == [] {
    } else {
      StepKeeps(d, s, steps[0]);
      HeldBackStep(d, s, steps[0], p);
      HeldBackRunOn(d, Apply(d, s, steps[0]), steps[1..], p);
    }
  }

  // ----- Passing -----

  lemma PassesAfter(d: Discipline, s: State, a: seq<Step>, u: State, p: ThreadId, b: seq<Step>)
    requires QueueOk(s) && Trip(d, s, a, Nobody, u) && NoNewFeeding(a) && QueueOk(u) && Passes(d, u, p, b)
    ensures Passes(d, s, p, a + b)
  {
    RunConcat(d, s, a, u, b);
  }

  lemma {:induction false} RunConcat(d: Discipline, s: State, a: seq<Step>, u: State, b: seq<Step>)
    requires QueueOk(s) && CanRun(d, s, a) && Run(d, s, a) == u && QueueOk(u) && CanRun(d, u, b)
    ensures CanRun(d, s, a + b) && Run(d, s, a + b) == Run(d, u, b)
    decreases |a|
  {
    if a == [] {
      assert [] + b == b;
    } else {
      QueueOkStep(d, s, a[0]);
      RunConcat(d, Apply(d, s, a[0]), a[1..], u, b);
      assert (a + b)[1..] == a[1..] + b;
    }
  }

  lemma FlagDown(d: Discipline, s: State, p: ThreadId) returns (steps: seq<Step>)
    requires Inv(d, s) && s.mutex.None? && !s.flushRequested && PcOf(s, p).ConsumeGate?
    ensures Passes(d, s, p, steps)
  {
    steps := [PassGate(p)];
    var u := TripStep(d, s, PassGate(p), Nobody);
  }

  // The feeder comes to take the flag down.
  lemma FeederClears(d: Discipline, s: State, t: ThreadId, p: ThreadId) returns (steps: seq<Step>)
    requires Fed(d, s, t) && WillClear(s, PcOf(s, t).f) && PcOf(s, p).ConsumeGate?
    requires d.Ordered? ==> StrictWeakOrder(d.less)
    ensures Passes(d, s, p, steps)
  {
    if s.flushRequested {
      var a, u := DriveToClear(d, s, t, Nobody);
      var b := FlagDown(d, u, p);
      PassesAfter(d, s, a, u, p, b);
      steps := a + b;
    } else {
      steps := FlagDown(d, s, p);
    }
  }

  // Somebody becomes the feeder: by entry, or as a flush under a stop.
  lemma NewFeederClears(d: Discipline, s: State, step: Step, p: ThreadId) returns (steps: seq<Step>)
    requires Inv(d, s) && s.mutex.None? && s.feeding.None? && PcOf(s, p).ConsumeGate?
    requires Enabled(d, s, step) && (step.Enter? || (step.FlushWake? && s.stopRequested))
    requires d.Ordered? ==> StrictWeakOrder(d.less)
    ensures Passes(d, s, p, steps)
  {
    BecomesTheFeeder(d, s, step);
    var u := TripStep(d, s, step, Nobody);
    var b := FeederClears(d, u, step.t, p);
    PassesAfter(d, s, [step], u, p, b);
    steps := [step] + b;
  }

  lemma BecomesTheFeeder(d: Discipline, s: State, step: Step)
    requires QueueOk(s) && Enabled(d, s, step) && s.mutex.None? && s.feeding.None?
    requires step.Enter? || (step.FlushWake? && s.stopRequested)
    ensures var u := Apply(d, s, step);
      && u.mutex.None? && u.feeding == Some(step.t) && PcOf(u, step.t).Feeding?
      && PcOf(u, step.t).f.place.TestStop?
      && forall x: ThreadId :: x != step.t ==> PcOf(u, x) == PcOf(s, x)
  {
  }

  // A feeder that will not clear the flag leaves.
  lemma GoneFeeder(d: Discipline, s: State, p: ThreadId) returns (steps: seq<Step>, u: State)
    requires Inv(d, s) && s.mutex.None? && !FeederWillClear(s) && PcOf(s, p).ConsumeGate?
    requires d.Ordered? ==> StrictWeakOrder(d.less)
    ensures Trip(d, s, steps, Nobody, u) && NoNewFeeding(steps) && Inv(d, u)
    ensures u.mutex.None? && u.feeding.None? && u.dedicated == s.dedicated
    ensures s.feeding.None? ==> u.stopRequested == s.stopRequested
    ensures forall x: ThreadId :: !PcOf(s, x).Feeding? ==> PcOf(u, x) == PcOf(s, x)
  {
    if s.feeding.None? {
      TripNil(d, s, Nobody);
      steps, u := [], s;
    } else {
      var t := s.feeding.value;
      var a, s1 := DriveToLeave(d, s, t, Nobody);
      u := Leaves(d, s1, t, Nobody);
      TripConcat(d, s, a, s1, [FeederStep(t, 0, false)], Nobody, u);
      steps := a + [FeederStep(t, 0, false)];
    }
  }

  // Without a feeder: somebody on its way enters, or a stop makes a waiting flush take over.
  lemma PassesUnfed(d: Discipline, s: State, p: ThreadId) returns (steps: seq<Step>)
    requires Inv(d, s) && s.mutex.None? && s.feeding.None? && PcOf(s, p).ConsumeGate?
    requires Entering(s) || ((exists w: ThreadId :: PcOf(s, w).FlushWait?) && (s.dedicated.Some? || s.stopRequested))
    requires d.Ordered? ==> StrictWeakOrder(d.less)
    ensures Passes(d, s, p, steps)
  {
    if Entering(s) {
      var t: ThreadId :| PcOf(s, t).RunEntry? || PcOf(s, t).FeedEntry?;
      steps := NewFeederClears(d, s, Enter(t), p);
    } else {
      var w: ThreadId :| PcOf(s, w).FlushWait?;
      steps := FlushTakesOver(d, s, w, p);
    }
  }

  lemma FlushTakesOver(d: Discipline, s: State, w: ThreadId, p: ThreadId) returns (steps: seq<Step>)
    requires Inv(d, s) && s.mutex.None? && s.feeding.None? && PcOf(s, p).ConsumeGate?
    requires PcOf(s, w).FlushWait? && (s.dedicated.Some? || s.stopRequested)
    requires d.Ordered? ==> StrictWeakOrder(d.less)
    ensures Passes(d, s, p, steps)
  {
    if s.stopRequested {
      steps := NewFeederClears(d, s, FlushWake(w), p);
    } else {
      var v := FreshThread(s.pcs.Keys);
      var a, u := StopBegins(d, s, v, Nobody);
      var b := NewFeederClears(d, u, FlushWake(w), p);
      PassesAfter(d, s, a, u, p, b);
      steps := a + b;
    }
  }

  lemma PassesFree(d: Discipline, s: State, p: ThreadId) returns (steps: seq<Step>)
    requires Inv(d, s) && s.mutex.None? && MayPass(s) && PcOf(s, p).ConsumeGate?
    requires d.Ordered? ==> StrictWeakOrder(d.less)
    ensures Passes(d, s, p, steps)
  {
    if !s.flushRequested {
      steps := FlagDown(d, s, p);
    } else if FeederWillClear(s) {
      steps := FeederClears(d, s, s.feeding.value, p);
    } else {
      var a, u := GoneFeeder(d, s, p);
      StillComing(s, u);
      var b := PassesUnfed(d, u, p);
      PassesAfter(d, s, a, u, p, b);
      steps := a + b;
    }
  }

  lemma StillComing(s: State, u: State)
    requires Entering(s) || FlushMayTakeOver(s)
    requires (s.mutex.Some? <== exists w: ThreadId :: PcOf(s, w).FlushRaised?) && s.mutex.None?
    requires u.dedicated == s.dedicated && (s.feeding.None? ==> u.stopRequested == s.stopRequested)
    requires forall x: ThreadId :: !PcOf(s, x).Feeding? ==> PcOf(u, x) == PcOf(s, x)
    ensures Entering(u) || ((exists w: ThreadId :: PcOf(u, w).FlushWait?) && (u.dedicated.Some? || u.stopRequested))
  {
    if Entering(s) {
      var t: ThreadId :| PcOf(s, t).RunEntry? || PcOf(s, t).FeedEntry?;
      assert PcOf(u, t) == PcOf(s, t);
    } else {
      var w: ThreadId :| WaitingFlush(s, w);
      assert !PcOf(s, w).FlushRaised?;
      assert PcOf(u, w) == PcOf(s, w);
    }
  }

  // The thread that holds the mutex lets go of it.
  lemma Released(d: Discipline, s: State, p: ThreadId) returns (steps: seq<Step>, u: State)
    requires Inv(d, s) && MayPass(s) && PcOf(s, p).ConsumeGate?
    ensures Trip(d, s, steps, Nobody, u) && NoNewFeeding(steps)
    ensures Inv(d, u) && u.mutex.None? && MayPass(u) && PcOf(u, p).ConsumeGate?
  {
    if s.mutex.None? {
      TripNil(d, s, Nobody);
      steps, u := [], s;
    } else {
      steps, u := LetsGo(d, s, s.mutex.value);
      ReleasedMayPass(d, s, u, s.mutex.value);
    }
  }

  lemma LetsGo(d: Discipline, s: State, x: ThreadId) returns (steps: seq<Step>, u: State)
    requires Inv(d, s) && s.mutex == Some(x)
    ensures Trip(d, s, steps, Nobody, u) && NoNewFeeding(steps) && Inv(d, u) && u.mutex.None? && OnlyMoved(s, u, x)
    ensures u.stopRequested == s.stopRequested && u.flushRequested == s.flushRequested && !PcOf(s, x).ConsumeGate?
    ensures PcOf(s, x).FlushRaised? && !s.stopRequested ==> PcOf(u, x).FlushWait?
  {
    if PcOf(s, x).FlushRaised? {
      u := FlushInterrupts(d, s, x, Nobody);
      steps := [FlushInterrupt(x)];
    } else {
      u := StopInterrupts(d, s, x, Nobody);
      steps := [StopInterrupt(x)];
    }
  }

  lemma ReleasedMayPass(d: Discipline, s: State, u: State, x: ThreadId)
    requires Inv(d, s) && MayPass(s) && s.mutex == Some(x) && OnlyMoved(s, u, x)
    requires u.stopRequested == s.stopRequested && u.flushRequested == s.flushRequested
    requires PcOf(s, x).FlushRaised? && !s.stopRequested ==> PcOf(u, x).FlushWait?
    ensures MayPass(u)
  {
    if s.flushRequested {
      if FeederWillClear(s) {
        assert FeederOf(u) == FeederOf(s);
      } else if Entering(s) {
        var t: ThreadId :| PcOf(s, t).RunEntry? || PcOf(s, t).FeedEntry?;
        assert PcOf(u, t) == PcOf(s, t);
      } else {
        var w: ThreadId :| WaitingFlush(s, w);
        assert WaitingFlush(u, w);
      }
    }
  }

  // A producer that waits for the flush flag to go down is held back for ever, unless somebody begins to
  // feed, exactly when the flag is up, there is no feeder that will take it down and nobody about to
  // become one, and no stop that can make a waiting flush take over.
  lemma PassesIff(d: Discipline, s: State, p: ThreadId)
    requires Inv(d, s) && PcOf(s, p).ConsumeGate? && (d.Ordered? ==> StrictWeakOrder(d.less))
    ensures (exists steps :: Passes(d, s, p, steps)) <==> MayPass(s)
  {
    if MayPass(s) {
      var a, u := Released(d, s, p);
      var b := PassesFree(d, u, p);
      PassesAfter(d, s, a, u, p, b);
    } else {
      forall steps ensures !Passes(d, s, p, steps) {
        if Passes(d, s, p, steps) {
          HeldBackRunOn(d, s, steps, p);
          assert false;
        }
      }
    }
  }

  // After thread 2 has asked for a flush beside the feeder that is about to end.
  function FlagLeftUp(): State {
    Overlap(Leave, true).(pcs := map[0 := PcOf(Overlap(Leave, true), 0), 1 := StopWait, 2 := Idle],
                          flushRequested := true)
  }

  // A flush meets a pending stop and returns with its flag left up.
  lemma FlagLeftUpRun(d: Discipline) returns (steps: seq<Step>)
    ensures RunsTo(d, Some(0), steps, FlagLeftUp()) && QueueOk(FlagLeftUp())
  {
    steps := StoppedOnceRun(d);
    var s1 := FlagLeftUp().(pcs := FlagLeftUp().pcs[2 := FlushRaised(0)], mutex := Some(2));
    steps := Extend(d, Some(0), steps, Overlap(Leave, true), StartFlush(2), s1);
    steps := Extend(d, Some(0), steps, s1, FlushInterrupt(2), FlagLeftUp());
  }

  // From the start: thereupon the feeder leaves, and a record that arrives meanwhile is not put into the queue.
  lemma HeldBackRun(d: Discipline) returns (steps: seq<Step>, s: State)
    ensures RunsTo(d, Some(0), steps, s) && PcOf(s, 3).ConsumeGate? && !MayPass(s)
  {
    steps := FlagLeftUpRun(d);
    var s1 := FlagLeftUp().(pcs := FlagLeftUp().pcs[3 := ConsumeGate(7)]);
    steps := Extend(d, Some(0), steps, FlagLeftUp(), StartConsume(3, 7), s1);
    s := s1.(pcs := s1.pcs[0 := Idle], stopRequested := false, feeding := None);
    steps := Extend(d, Some(0), steps, s1, FeederStep(0, 0, false), s);
  }
}
