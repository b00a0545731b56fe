/** Building runs of the frontend: a feeder driven on by its own steps, and calls that stay where they are. */
module Trips {
  import opened Records
  import opened QueueInterface
  import opened AsyncFrontend
  import opened FrontendInvariants
  import opened FrontendTheorems
  import opened DelegatedFlush

  // A call that is not to end during a run.
  datatype Watch = Nobody | InFlush(w: ThreadId) | InStop(v: ThreadId)

  predicate StopWaits(s: State, v: ThreadId) {
    PcOf(s, v).StopRaised? || PcOf(s, v).StopWait?
  }

  predicate Holds(s: State, watch: Watch) {
    match watch
    case Nobody => true
    case InFlush(w) => Requesting(PcOf(s, w))
    case InStop(v) => StopWaits(s, v)
  }

  ghost predicate Throughout(d: Discipline, s: State, steps: seq<Step>, watch: Watch)
    requires QueueOk(s) && CanRun(d, s, steps)
    decreases |steps|
  {
    && Holds(s, watch)
    && (steps != [] ==>
          (QueueOkStep(d, s, steps[0]); Throughout(d, Apply(d, s, steps[0]), steps[1..], watch)))
  }

  // A run from `s` to `u` during which the watched call goes on.
  ghost predicate Trip(d: Discipline, s: State, steps: seq<Step>, watch: Watch, u: State)
    requires QueueOk(s)
  {
    CanRun(d, s, steps) && Throughout(d, s, steps, watch) && Run(d, s, steps) == u
  }

  lemma TripNil(d: Discipline, s: State, watch: Watch)
    requires QueueOk(s) && Holds(s, watch)
    ensures Trip(d, s, [], watch, s)
  {
  }

  lemma TripStep(d: Discipline, s: State, step: Step, watch: Watch) returns (u: State)
    requires Inv(d, s) && Enabled(d, s, step) && Holds(s, watch) && Holds(Apply(d, s, step), watch)
    ensures u == Apply(d, s, step) && Inv(d, u) && Trip(d, s, [step], watch, u)
  {
    u := Apply(d, s, step);
    StepKeeps(d, s, step);
    TripNil(d, u, watch);
    assert [step][1..] == [];
  }

  lemma {:induction false} TripConcat(d: Discipline, s: State, a: seq<Step>, u: State, b: seq<Step>,
                                      watch: Watch, v: State)
    requires QueueOk(s) && Trip(d, s, a, watch, u) && QueueOk(u) && Trip(d, u, b, watch, v)
    ensures Trip(d, s, a + b, watch, v)
    decreases |a|
  {
    if a == [] {
      assert [] + b == b;
    } else {
      QueueOkStep(d, s, a[0]);
      TripConcat(d, Apply(d, s, a[0]), a[1..], u, b, watch, v);
      assert (a + b)[1..] == a[1..] + b;
    }
  }

  // A flush whose request is not answered goes on waiting.
  lemma {:induction false} WaitsInCall(d: Discipline, s: State, steps: seq<Step>, w: ThreadId)
    requires QueueOk(s) && CanRun(d, s, steps) && WaitsThroughout(d, s, steps, w)
    ensures Throughout(d, s, steps, InFlush(w))
    decreases |steps|
  {
    if steps == [] {
    } else {
      QueueOkStep(d, s, steps[0]);
      WaitsInCall(d, Apply(d, s, steps[0]), steps[1..], w);
    }
  }

  predicate FeederOnly(steps: seq<Step>) {
    forall k :: 0 <= k < |steps| ==> steps[k].FeederStep?
  }

  // Nobody calls `stop`.
  predicate Unstopped(steps: seq<Step>) {
    forall k :: 0 <= k < |steps| ==> !steps[k].StartStop?
  }

  predicate BeginsFeeding(step: Step) {
    step.StartRun? || step.StartFeedRecords? || step.StartFlush?
  }

  // Nobody begins anything that feeds.
  predicate NoNewFeeding(steps: seq<Step>) {
    forall k :: 0 <= k < |steps| ==> !BeginsFeeding(steps[k])
  }

  // ----- Driving the feeder -----

  // Between critical sections, with feeder `t`.
  ghost predicate Fed(d: Discipline, s: State, t: ThreadId) {
    Inv(d, s) && s.mutex.None? && s.feeding == Some(t)
  }

  // What the feeder's steps leave alone.
  ghost predicate OnlyFed(s: State, u: State, t: ThreadId) {
    && u.stopRequested == s.stopRequested && u.dedicated == s.dedicated && u.accepted == s.accepted
    && (forall p: ThreadId :: p != t ==> PcOf(u, p) == PcOf(s, p))
  }

  lemma FeederChoice(d: Discipline, s: State, f: Feeder) returns (k: nat, take: bool)
    requires QueueOk(s) && FlagInv(s) && s.mutex.None? && FeederOf(s) == Some(f)
    requires f.place.BlockingDequeue? ==> s.stopRequested || s.flushRequested
    requires d.Ordered? ==> StrictWeakOrder(d.less)
    ensures FeederEnabled(d, s, f, k, take) && (Takes(f, take) ==> k < |s.queue|)
    ensures f.place.BlockingDequeue? ==> !take
  {
    k, take := 0, false;
    if f.place.Dequeue? && s.queue != [] {
      k := RemovableExists(d, RecsOf(s, s.queue));
      take := true;
    }
  }

  // A step of its own, wherever it stands short of leaving.
  lemma FeederGoes(d: Discipline, s: State, t: ThreadId, watch: Watch) returns (k: nat, take: bool, u: State)
    requires Fed(d, s, t) && Holds(s, watch) && (d.Ordered? ==> StrictWeakOrder(d.less))
    requires !PcOf(s, t).f.place.Leave?
    requires PcOf(s, t).f.place.BlockingDequeue? ==> s.stopRequested || s.flushRequested
    ensures Fed(d, u, t) && OnlyFed(s, u, t) && Trip(d, s, [FeederStep(t, k, take)], watch, u)
    ensures (Takes(PcOf(s, t).f, take) ==> k < |s.queue|) && u == AfterFeeder(s, t, PcOf(s, t).f, k, take)
    ensures PcOf(u, t) == Feeding(NextFeeder(s, PcOf(s, t).f, k, take))
    ensures PcOf(s, t).f.place.BlockingDequeue? ==> !take
  {
    var f := PcOf(s, t).f;
    k, take := FeederChoice(d, s, f);
    FeederFrame(d, s, t, f, k, take);
    u := TripStep(d, s, FeederStep(t, k, take), watch);
  }

  // How far a feeder is from leaving, once nothing keeps it in its loop.
  function LeaveRank(p: Place): nat {
    match p
    case BlockingDequeue => 9
    case Feed(_) => 8
    case FeedBlocking(_) => 8
    case TestStop => 7
    case TestFlush => 6
    case Dequeue => 5
    case TestFlushEnd => 4
    case FlushBackend => 3
    case ClearFlag => 2
    case TestStopEnd => 1
    case Leave => 0
  }

  function LeaveFuel(s: State, f: Feeder): nat {
    4 * |s.queue| + LeaveRank(f.place)
  }

  // Nothing keeps the feeder: it does not run for ever, or a stop is pending.
  predicate Ends(s: State, f: Feeder) {
    s.stopRequested || !f.kind.RunLoop? || f.place.Leave?
  }

  lemma LeaveFuelFalls(s: State, t: ThreadId, f: Feeder, k: nat, take: bool)
    requires !f.place.Leave? && Ends(s, f) && (Takes(f, take) ==> k < |s.queue|)
    requires f.place.TestStopEnd? || f.place.BlockingDequeue? || f.place.FeedBlocking? ==> f.kind.RunLoop?
    requires f.place.BlockingDequeue? ==> !take
    ensures var u, g := AfterFeeder(s, t, f, k, take), NextFeeder(s, f, k, take);
      Ends(u, g) && LeaveFuel(u, g) < LeaveFuel(s, f)
  {
  }

  // A step of the feeder, and then more of them.
  lemma DriveOn(d: Discipline, s: State, step: Step, s1: State, steps: seq<Step>, t: ThreadId, watch: Watch, u: State)
    requires QueueOk(s) && step.FeederStep? && Trip(d, s, [step], watch, s1) && OnlyFed(s, s1, t)
    requires QueueOk(s1) && FeederOnly(steps) && Trip(d, s1, steps, watch, u) && OnlyFed(s1, u, t)
    ensures Trip(d, s, [step] + steps, watch, u) && FeederOnly([step] + steps) && OnlyFed(s, u, t)
  {
    TripConcat(d, s, [step], s1, steps, watch, u);
  }

  lemma {:induction false} DriveToLeave(d: Discipline, s: State, t: ThreadId, watch: Watch)
      returns (steps: seq<Step>, u: State)
    requires Fed(d, s, t) && Holds(s, watch) && Ends(s, PcOf(s, t).f) && (d.Ordered? ==> StrictWeakOrder(d.less))
    ensures Trip(d, s, steps, watch, u) && FeederOnly(steps)
    ensures Fed(d, u, t) && OnlyFed(s, u, t) && PcOf(u, t).f.place.Leave?
    decreases LeaveFuel(s, PcOf(s, t).f)
  {
    if PcOf(s, t).f.place.Leave? {
      TripNil(d, s, watch);
      steps, u := [], s;
    } else {
      var step, s' := GoesTowardsLeave(d, s, t, watch);
      var rest;
      rest, u := DriveToLeave(d, s', t, watch);
      DriveOn(d, s, step, s', rest, t, watch, u);
      steps := [step] + rest;
    }
  }

  lemma GoesTowardsLeave(d: Discipline, s: State, t: ThreadId, watch: Watch) returns (step: Step, u: State)
    requires Fed(d, s, t) && Holds(s, watch) && Ends(s, PcOf(s, t).f) && (d.Ordered? ==> StrictWeakOrder(d.less))
    requires !PcOf(s, t).f.place.Leave?
    ensures step.FeederStep? && Trip(d, s, [step], watch, u) && Fed(d, u, t) && OnlyFed(s, u, t) && Holds(u, watch)
    ensures Ends(u, PcOf(u, t).f) && LeaveFuel(u, PcOf(u, t).f) < LeaveFuel(s, PcOf(s, t).f)
  {
    var k, take;
    k, take, u := FeederGoes(d, s, t, watch);
    step := FeederStep(t, k, take);
    LeaveFuelFalls(s, t, PcOf(s, t).f, k, take);
  }

  // The feeder leaves, taking down a stop.
  lemma Leaves(d: Discipline, s: State, t: ThreadId, watch: Watch) returns (u: State)
    requires Fed(d, s, t) && Holds(s, watch) && PcOf(s, t).f.place.Leave?
    ensures Trip(d, s, [FeederStep(t, 0, false)], watch, u) && Inv(d, u)
    ensures u.mutex.None? && u.feeding.None? && !u.stopRequested && u.flushRequested == s.flushRequested
    ensures u.dedicated == s.dedicated && PcOf(u, t).Idle?
    ensures forall p: ThreadId :: p != t ==> PcOf(u, p) == PcOf(s, p)
  {
    u := TripStep(d, s, FeederStep(t, 0, false), watch);
  }

  // How far a feeder that will come to the answer is from it.
  function ClearRank(p: Place): nat {
    if p.TestStopEnd? then 10 else LeaveRank(p)
  }

  // The feeder has a test of the flag ahead of it.
  predicate WillClear(s: State, f: Feeder) {
    !f.place.Leave? && !(f.place.TestStopEnd? && s.stopRequested)
  }

  lemma ClearFuelFalls(s: State, t: ThreadId, f: Feeder, k: nat, take: bool)
    requires WillClear(s, f) && s.flushRequested && (Takes(f, take) ==> k < |s.queue|)
    requires f.place.BlockingDequeue? ==> !take
    ensures var u, g := AfterFeeder(s, t, f, k, take), NextFeeder(s, f, k, take);
      u.flushRequested ==>
        WillClear(u, g) && 4 * |u.queue| + ClearRank(g.place) < 4 * |s.queue| + ClearRank(f.place)
  {
  }

  lemma {:induction false} DriveToClear(d: Discipline, s: State, t: ThreadId, watch: Watch)
      returns (steps: seq<Step>, u: State)
    requires Fed(d, s, t) && Holds(s, watch) && WillClear(s, PcOf(s, t).f) && s.flushRequested
    requires d.Ordered? ==> StrictWeakOrder(d.less)
    ensures Trip(d, s, steps, watch, u) && FeederOnly(steps)
    ensures Fed(d, u, t) && OnlyFed(s, u, t) && !u.flushRequested
    decreases 4 * |s.queue| + ClearRank(PcOf(s, t).f.place)
  {
    var step, s' := GoesTowardsClear(d, s, t, watch);
    if s'.flushRequested {
      var rest;
      rest, u := DriveToClear(d, s', t, watch);
      DriveOn(d, s, step, s', rest, t, watch, u);
      steps := [step] + rest;
    } else {
      steps, u := [step], s';
    }
  }

  lemma GoesTowardsClear(d: Discipline, s: State, t: ThreadId, watch: Watch) returns (step: Step, u: State)
    requires Fed(d, s, t) && Holds(s, watch) && WillClear(s, PcOf(s, t).f) && s.flushRequested
    requires d.Ordered? ==> StrictWeakOrder(d.less)
    ensures step.FeederStep? && Trip(d, s, [step], watch, u) && Fed(d, u, t) && OnlyFed(s, u, t) && Holds(u, watch)
    ensures u.flushRequested ==>
              && WillClear(u, PcOf(u, t).f)
              && 4 * |u.queue| + ClearRank(PcOf(u, t).f.place) < 4 * |s.queue| + ClearRank(PcOf(s, t).f.place)
  {
    var k, take;
    k, take, u := FeederGoes(d, s, t, watch);
    step := FeederStep(t, k, take);
    ClearFuelFalls(s, t, PcOf(s, t).f, k, take);
  }

  // ----- Calls -----

  // What a step of `p` leaves alone.
  ghost predicate OnlyMoved(s: State, u: State, p: ThreadId) {
    && u.feeding == s.feeding && u.dedicated == s.dedicated && u.queue == s.queue && u.offered == s.offered
    && u.accepted == s.accepted && u.noticed == s.noticed
    && (forall q: ThreadId :: q != p ==> PcOf(u, q) == PcOf(s, q))
  }

  // A flush beside a feeder comes to wait, or, under a pending stop, returns; its flag is up either way.
  lemma FlushInterrupts(d: Discipline, s: State, w: ThreadId, watch: Watch) returns (u: State)
    requires Inv(d, s) && PcOf(s, w).FlushRaised? && Holds(s, watch) && (watch == InFlush(w) ==> !s.stopRequested)
    ensures Trip(d, s, [FlushInterrupt(w)], watch, u) && Inv(d, u) && OnlyMoved(s, u, w)
    ensures u.mutex.None? && u.flushRequested && u.stopRequested == s.stopRequested
    ensures PcOf(u, w) == if s.stopRequested then Idle else FlushWait(PcOf(s, w).mark)
  {
    u := TripStep(d, s, FlushInterrupt(w), watch);
  }

  // A fresh thread calls `flush` beside a feeder.
  lemma AnotherFlush(d: Discipline, s: State, t: ThreadId, watch: Watch) returns (steps: seq<Step>, u: State)
    requires Fed(d, s, t) && Holds(s, watch)
    ensures Trip(d, s, steps, watch, u) && Fed(d, u, t) && Unstopped(steps)
    ensures u.flushRequested && u.stopRequested == s.stopRequested && u.dedicated == s.dedicated
    ensures forall p: ThreadId :: !PcOf(s, p).Idle? ==> PcOf(u, p) == PcOf(s, p)
  {
    var y := FreshThread(s.pcs.Keys);
    var s1 := TripStep(d, s, StartFlush(y), watch);
    u := FlushInterrupts(d, s1, y, watch);
    steps := BothFlushes(d, s, s1, u, y, watch);
  }

  lemma BothFlushes(d: Discipline, s: State, s1: State, u: State, y: ThreadId, watch: Watch) returns (steps: seq<Step>)
    requires QueueOk(s) && QueueOk(s1)
    requires Trip(d, s, [StartFlush(y)], watch, s1) && Trip(d, s1, [FlushInterrupt(y)], watch, u)
    ensures Trip(d, s, steps, watch, u) && Unstopped(steps)
  {
    steps := [StartFlush(y)] + [FlushInterrupt(y)];
    TripConcat(d, s, [StartFlush(y)], s1, [FlushInterrupt(y)], watch, u);
  }

  // A thread calls `stop` and comes to wait.
  lemma StopBegins(d: Discipline, s: State, v: ThreadId, watch: Watch) returns (steps: seq<Step>, u: State)
    requires Inv(d, s) && s.mutex.None? && PcOf(s, v).Idle? && Holds(s, watch)
    requires s.feeding.Some? || s.dedicated.Some?
    ensures Trip(d, s, steps, watch, u) && Inv(d, u) && OnlyMoved(s, u, v) && NoNewFeeding(steps)
    ensures u.mutex.None? && u.stopRequested && u.flushRequested == s.flushRequested && PcOf(u, v).StopWait?
  {
    var s1 := StopRaises(d, s, v, watch);
    u := StopInterrupts(d, s1, v, watch);
    OnlyMovedTwice(s, s1, u, v);
    steps := BothStops(d, s, s1, u, v, watch);
  }

  lemma OnlyMovedTwice(s: State, s1: State, u: State, p: ThreadId)
    requires OnlyMoved(s, s1, p) && OnlyMoved(s1, u, p)
    ensures OnlyMoved(s, u, p)
  {
  }

  lemma BothStops(d: Discipline, s: State, s1: State, u: State, v: ThreadId, watch: Watch) returns (steps: seq<Step>)
    requires QueueOk(s) && QueueOk(s1)
    requires Trip(d, s, [StartStop(v)], watch, s1) && Trip(d, s1, [StopInterrupt(v)], watch, u)
    ensures Trip(d, s, steps, watch, u) && NoNewFeeding(steps)
  {
    steps := [StartStop(v)] + [StopInterrupt(v)];
    TripConcat(d, s, [StartStop(v)], s1, [StopInterrupt(v)], watch, u);
  }

  lemma StopRaises(d: Discipline, s: State, v: ThreadId, watch: Watch) returns (u: State)
    requires Inv(d, s) && s.mutex.None? && PcOf(s, v).Idle? && Holds(s, watch)
    requires s.feeding.Some? || s.dedicated.Some?
    ensures Trip(d, s, [StartStop(v)], watch, u) && Inv(d, u) && OnlyMoved(s, u, v)
    ensures u.stopRequested && u.flushRequested == s.flushRequested && PcOf(u, v).StopRaised?
  {
    StopFlagUp(d, s, v);
    u := TripStep(d, s, StartStop(v), watch);
  }

  lemma StopFlagUp(d: Discipline, s: State, v: ThreadId)
    requires QueueOk(s) && Enabled(d, s, StartStop(v)) && (s.feeding.Some? || s.dedicated.Some?)
    ensures var u := Apply(d, s, StartStop(v));
      && OnlyMoved(s, u, v) && u.stopRequested && u.flushRequested == s.flushRequested && PcOf(u, v).StopRaised?
  {
  }

  lemma StopInterrupts(d: Discipline, s: State, v: ThreadId, watch: Watch) returns (u: State)
    requires Inv(d, s) && PcOf(s, v).StopRaised? && Holds(s, watch)
    ensures Trip(d, s, [StopInterrupt(v)], watch, u) && Inv(d, u) && OnlyMoved(s, u, v)
    ensures u.mutex.None? && u.stopRequested && u.flushRequested == s.flushRequested && PcOf(u, v).StopWait?
  {
    u := TripStep(d, s, StopInterrupt(v), watch);
  }
}
