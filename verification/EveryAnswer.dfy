/**
 Which calls of `flush` beside a running feeder are sure to be answered by a full drain, whatever other
 threads do meanwhile: a stop can cut the feeder's loop short at any time, and a producer that is past
 the flag check can still get its record in front of one that is queued.
 */
module EveryAnswer {
  import opened Records
  import opened QueueInterface
  import opened AsyncFrontend
  import opened FrontendInvariants
  import opened FrontendTheorems
  import opened DelegatedFlush

  // ----- The condition at the call -----

  // With the flag up, the feeder's next dequeue cannot fail over a non-empty queue.
  predicate MustTake(d: Discipline, f: Feeder) {
    f.place.TestFlush? || (f.place.Dequeue? && (d.Fifo? || f.sawFlush))
  }

  // The record at a position of the queue.
  function RecAt(s: State, j: nat): Record
    requires QueueOk(s) && j < |s.queue|
  {
    assert s.queue[j] in s.queue;
    s.accepted[s.queue[j]]
  }

  // No producer past the flag check has a record that could leave an ordering queue before the first one.
  ghost predicate StaysFirst(d: Discipline, s: State)
    requires QueueOk(s) && s.queue != []
  {
    d.Ordered? ==> forall p: ThreadId :: PcOf(s, p).Enqueueing? ==> d.less(RecAt(s, 0), PcOf(s, p).rec)
  }

  // One record is queued, and it is the one the feeder takes next.
  ghost predicate TakesTheLast(d: Discipline, s: State)
    requires QueueOk(s)
  {
    && |s.queue| == 1 && StaysFirst(d, s)
    && FeederOf(s).Some? && MustTake(d, FeederOf(s).value)
  }

  // With a stop pending the flush does not wait, and a feeder past the loop does not answer it.
  ghost predicate NoAnswer(s: State) {
    s.stopRequested && FeederOf(s).Some? && Quitting(FeederOf(s).value.place)
  }

  predicate Quitting(p: Place) {
    p.Leave? || p.TestStopEnd?
  }

  ghost predicate SureToDrain(d: Discipline, s: State)
    requires QueueOk(s)
  {
    s.queue == [] || TakesTheLast(d, s) || NoAnswer(s)
  }

  // ----- Every answer drains -----

  // Whatever was among the first `n` records accepted is offered, or in hand.
  ghost predicate Safe(s: State, n: nat) {
    forall x: Serial :: x < n ==> x in s.offered || x in Hand(s)
  }

  // All of them but the one the feeder takes next.
  ghost predicate AlmostSafe(d: Discipline, s: State, n: nat)
    requires QueueOk(s)
  {
    && s.queue != [] && StaysFirst(d, s)
    && FeederOf(s).Some? && MustTake(d, FeederOf(s).value)
    && (forall x: Serial :: x < n && x != s.queue[0] ==> x in s.offered)
    && (d.Ordered? ==> forall j :: 1 <= j < |s.queue| ==> d.less(RecAt(s, 0), RecAt(s, j)))
  }

  ghost predicate Sure(d: Discipline, s: State, n: nat, w: ThreadId)
    requires QueueOk(s)
  {
    Safe(s, n) || AlmostSafe(d, s, n) || (NoAnswer(s) && PcOf(s, w).FlushRaised?)
  }

  lemma SureAtCall(d: Discipline, s0: State, w: ThreadId)
    requires Inv(d, s0) && Enabled(d, s0, StartFlush(w)) && s0.feeding.Some? && SureToDrain(d, s0)
    requires QueueOk(Apply(d, s0, StartFlush(w)))
    ensures Sure(d, Apply(d, s0, StartFlush(w)), |s0.accepted|, w)
  {
    var s1 := Apply(d, s0, StartFlush(w));
    MoveFrame(s0, w, FlushRaised(|s0.accepted|), s1);
    forall x: Serial | x < |s0.accepted| ensures x in s0.offered || x in Hand(s0) || x in s0.queue {
      SomewhereIs(d, s0, x);
    }
    if TakesTheLast(d, s0) {
      assert forall p: ThreadId :: PcOf(s1, p).Enqueueing? ==> PcOf(s1, p) == PcOf(s0, p);
      assert AlmostSafe(d, s1, |s0.accepted|);
    }
  }

  lemma SomewhereIs(d: Discipline, s: State, x: Serial)
    requires ConserveInv(d, s) && x < |s.accepted|
    ensures x in s.offered || x in Hand(s) || x in s.queue
  {
    assert Upto(|s.accepted|)[x] in multiset(Upto(|s.accepted|));
    assert x in multiset(s.offered) + multiset(Hand(s)) + multiset(s.queue);
  }

  lemma SafeStep(d: Discipline, s: State, step: Step, n: nat)
    requires Inv(d, s) && Enabled(d, s, step) && Safe(s, n)
    ensures Safe(Apply(d, s, step), n)
  {
    if !step.FeederStep? {
      OthersAppend(d, s, step);
      OthersLeaveFeeder(d, s, step);
    } else {
      var f := PcOf(s, step.t).f;
      if f.place.Leave? {
        assert Hand(s) == [];
      } else {
        FeederFrame(d, s, step.t, f, step.k, step.take);
        FeederHands(s, step.t, f, step.k, step.take);
      }
    }
  }

  // The only removable record of a queue is the first one if that precedes all others.
  lemma FirstIsTaken(d: Discipline, s: State, k: nat)
    requires QueueOk(s) && s.queue != [] && MayRemove(d, RecsOf(s, s.queue), k)
    requires d.Ordered? ==> forall j :: 1 <= j < |s.queue| ==> d.less(RecAt(s, 0), RecAt(s, j))
    ensures k == 0
  {
    assert RecsOf(s, s.queue)[0] == RecAt(s, 0) && RecsOf(s, s.queue)[k] == RecAt(s, k);
  }

  lemma AlmostSafeFeeder(d: Discipline, s: State, t: ThreadId, f: Feeder, k: nat, take: bool, n: nat)
    requires IsFeeder(d, s, t, f, k, take) && s.flushRequested && AlmostSafe(d, s, n)
    requires QueueOk(AfterFeeder(s, t, f, k, take))
    ensures var u := AfterFeeder(s, t, f, k, take); AlmostSafe(d, u, n) || Safe(u, n)
  {
    assert FeederOf(s) == Some(f);
    if f.place.TestFlush? {
      LooksAtFlag(d, s, t, f, k, take, n);
    } else {
      assert take;
      FirstIsTaken(d, s, k);
      TakesFirst(d, s, t, f, n);
    }
  }

  lemma LooksAtFlag(d: Discipline, s: State, t: ThreadId, f: Feeder, k: nat, take: bool, n: nat)
    requires IsFeeder(d, s, t, f, k, take) && f.place.TestFlush? && s.flushRequested && AlmostSafe(d, s, n)
    requires QueueOk(AfterFeeder(s, t, f, k, take))
    ensures AlmostSafe(d, AfterFeeder(s, t, f, k, take), n)
  {
    var u := AfterFeeder(s, t, f, k, take);
    FeederFrame(d, s, t, f, k, take);
    assert FeederOf(u) == Some(f.(place := Dequeue, sawFlush := true));
    assert u.queue == s.queue && u.accepted == s.accepted && u.offered == s.offered;
    assert forall j :: 0 <= j < |u.queue| ==> RecAt(u, j) == RecAt(s, j);
    assert forall p: ThreadId :: PcOf(u, p).Enqueueing? ==> PcOf(u, p) == PcOf(s, p);
  }

  lemma TakesFirst(d: Discipline, s: State, t: ThreadId, f: Feeder, n: nat)
    requires IsFeeder(d, s, t, f, 0, true) && f.place.Dequeue? && s.queue != []
    requires forall x: Serial :: x < n && x != s.queue[0] ==> x in s.offered
    ensures Safe(AfterFeeder(s, t, f, 0, true), n)
  {
    var u := AfterFeeder(s, t, f, 0, true);
    FeederFrame(d, s, t, f, 0, true);
    assert FeederOf(u) == Some(NextFeeder(s, f, 0, true));
    assert Hand(u) == [s.queue[0]] && u.offered == s.offered;
  }

  lemma AlmostSafeAccept(d: Discipline, s: State, p: ThreadId, n: nat)
    requires Inv(d, s) && PcOf(s, p).Enqueueing? && AlmostSafe(d, s, n)
    requires QueueOk(Apply(d, s, Accept(p)))
    ensures AlmostSafe(d, Apply(d, s, Accept(p)), n)
  {
    var u := Apply(d, s, Accept(p));
    AcceptFrame(d, s, p);
    AcceptedAt(d, s, p, 0);
    assert forall q: ThreadId :: PcOf(u, q).Enqueueing? ==> PcOf(u, q) == PcOf(s, q);
    forall j | d.Ordered? && 1 <= j < |u.queue| ensures d.less(RecAt(u, 0), RecAt(u, j)) {
      AcceptedAt(d, s, p, j);
    }
  }

  lemma AcceptedAt(d: Discipline, s: State, p: ThreadId, j: nat)
    requires QueueOk(s) && PcOf(s, p).Enqueueing? && QueueOk(Apply(d, s, Accept(p))) && j <= |s.queue|
    ensures RecAt(Apply(d, s, Accept(p)), j) == if j < |s.queue| then RecAt(s, j) else PcOf(s, p).rec
  {
    if j < |s.queue| {
      assert s.queue[j] in s.queue;
    }
  }

  // Nobody else gets past the flag check while the flag is up.
  lemma AlmostSafeOthers(d: Discipline, s: State, step: Step, n: nat)
    requires Inv(d, s) && Enabled(d, s, step) && !step.FeederStep? && !step.Accept?
    requires s.flushRequested && AlmostSafe(d, s, n) && QueueOk(Apply(d, s, step))
    ensures AlmostSafe(d, Apply(d, s, step), n)
  {
    var u := Apply(d, s, step);
    OthersLeaveFeeder(d, s, step);
    QuietOthers(d, s, step);
    assert forall j :: 0 <= j < |u.queue| ==> RecAt(u, j) == RecAt(s, j);
  }

  lemma QuietOthers(d: Discipline, s: State, step: Step)
    requires QueueOk(s) && Enabled(d, s, step) && !step.FeederStep? && !step.Accept? && s.flushRequested
    ensures var u := Apply(d, s, step);
      && u.queue == s.queue && u.accepted == s.accepted && u.offered == s.offered
      && forall p: ThreadId :: PcOf(u, p).Enqueueing? ==> PcOf(u, p) == PcOf(s, p)
  {
  }

  lemma NoAnswerStep(d: Discipline, s: State, step: Step, w: ThreadId)
    requires Inv(d, s) && Enabled(d, s, step) && NoAnswer(s) && PcOf(s, w).FlushRaised?
    requires Waits(Apply(d, s, step), w)
    ensures NoAnswer(Apply(d, s, step)) && PcOf(Apply(d, s, step), w).FlushRaised?
  {
    assert s.mutex == Some(w);
    if step.FeederStep? {
      FeederFrame(d, s, step.t, PcOf(s, step.t).f, step.k, step.take);
    } else {
      OthersLeaveFeeder(d, s, step);
    }
  }

  lemma SureStep(d: Discipline, s: State, step: Step, n: nat, w: ThreadId)
    requires Inv(d, s) && Enabled(d, s, step) && Sure(d, s, n, w) && Waits(s, w) && Waits(Apply(d, s, step), w)
    requires QueueOk(Apply(d, s, step))
    ensures Sure(d, Apply(d, s, step), n, w)
  {
    if Safe(s, n) {
      SafeStep(d, s, step, n);
    } else if AlmostSafe(d, s, n) {
      if step.FeederStep? {
        AlmostSafeFeeder(d, s, step.t, PcOf(s, step.t).f, step.k, step.take, n);
      } else if step.Accept? {
        AlmostSafeAccept(d, s, step.t, n);
      } else {
        AlmostSafeOthers(d, s, step, n);
      }
    } else {
      NoAnswerStep(d, s, step, w);
    }
  }

  lemma {:induction false} SureRun(d: Discipline, s: State, steps: seq<Step>, n: nat, w: ThreadId)
    requires Inv(d, s) && CanRun(d, s, steps) && WaitsThroughout(d, s, steps, w) && Sure(d, s, n, w)
    ensures Inv(d, Run(d, s, steps)) && Sure(d, Run(d, s, steps), n, w)
    decreases |steps|
  {
    if steps == [] {
    } else {
      StepKeeps(d, s, steps[0]);
      SureStep(d, s, steps[0], n, w);
      SureRun(d, Apply(d, s, steps[0]), steps[1..], n, w);
    }
  }

  lemma SureAnswer(d: Discipline, s0: State, w: ThreadId, steps: seq<Step>, t: ThreadId)
    requires Inv(d, s0) && Enabled(d, s0, StartFlush(w)) && s0.feeding.Some? && SureToDrain(d, s0)
    requires AnsweredBy(d, s0, w, steps, t)
    ensures AnsweredDrained(d, s0, w, steps, t)
  {
    AnswerFacts(d, s0, w, steps, t);
    StepKeeps(d, s0, StartFlush(w));
    SureAtCall(d, s0, w);
    SureRun(d, Apply(d, s0, StartFlush(w)), steps, |s0.accepted|, w);
    SureWhenAnswering(d, Outcome(d, s0, w, steps, t), t, w);
  }

  lemma SureWhenAnswering(d: Discipline, u: State, t: ThreadId, w: ThreadId)
    requires Inv(d, u) && Requesting(PcOf(u, w)) && Sure(d, u, PcOf(u, w).mark, w) && Answering(u, t)
    ensures DrainedFor(u, w)
  {
    assert FeederOf(u) == Some(PcOf(u, t).f) && Hand(u) == [];
  }

  // ----- Otherwise some answer does not -----

  // `w` waits for feeder `t`, and record `x`, accepted before its call, is queued.
  ghost predicate Carries(d: Discipline, s: State, w: ThreadId, t: ThreadId, x: Serial) {
    Inv(d, s) && s.feeding == Some(t) && Waits(s, w) && x < PcOf(s, w).mark && x in s.queue
  }

  // What an answered flush may find undone.
  ghost predicate AnswersWithout(d: Discipline, s: State, w: ThreadId, t: ThreadId, x: Serial) {
    Carries(d, s, w, t, x) && Answering(s, t)
  }

  lemma NotDrained(d: Discipline, s: State, w: ThreadId, t: ThreadId, x: Serial)
    requires Carries(d, s, w, t, x)
    ensures !DrainedFor(s, w)
  {
    QueuedOnce(d, s, x);
  }

  // A step of the feeder that does not take `x`.
  lemma FeederMoves(d: Discipline, s: State, w: ThreadId, t: ThreadId, x: Serial, k: nat, take: bool) returns (u: State)
    requires Carries(d, s, w, t, x) && FeederEnabled(d, s, PcOf(s, t).f, k, take)
    requires !PcOf(s, t).f.place.Leave? && !PcOf(s, t).f.place.ClearFlag?
    requires Takes(PcOf(s, t).f, take) ==> k < |s.queue| && x in Without(s.queue, k)
    ensures Carries(d, u, w, t, x) && Path(d, s, [FeederStep(t, k, take)], w, u)
    ensures u == AfterFeeder(s, t, PcOf(s, t).f, k, take)
    ensures PcOf(u, t) == Feeding(NextFeeder(s, PcOf(s, t).f, k, take))
    ensures forall p: ThreadId :: p != t ==> PcOf(u, p) == PcOf(s, p)
  {
    FeederFrame(d, s, t, PcOf(s, t).f, k, take);
    u := PathStep(d, s, FeederStep(t, k, take), w);
  }

  // From here the feeder comes to the answer without another dequeue: at the end of its loop, or with
  // a stop requested on the way to the test for it.
  ghost predicate Straight(s: State, t: ThreadId)
    requires PcOf(s, t).Feeding?
  {
    var p := PcOf(s, t).f.place;
    || Ending(p)
    || (s.stopRequested && (p.TestStop? || p.Feed? || p.FeedBlocking? || (p.BlockingDequeue? && s.interruption)))
  }

  function Distance(p: Place): nat {
    if p.TestFlushEnd? then 1 else if p.TestStop? then 2 else if Ending(p) then 0 else 3
  }

  lemma {:induction false} Finish(d: Discipline, s: State, w: ThreadId, t: ThreadId, x: Serial)
      returns (steps: seq<Step>, u: State)
    requires Carries(d, s, w, t, x) && Straight(s, t)
    ensures Path(d, s, steps, w, u) && AnswersWithout(d, u, w, t, x)
    decreases Distance(PcOf(s, t).f.place)
  {
    if Answering(s, t) {
      steps, u := [], s;
    } else {
      var s' := FeederMoves(d, s, w, t, x, 0, false);
      StraightOn(s, t);
      steps, u := Finish(d, s', w, t, x);
      PathConcat(d, s, [FeederStep(t, 0, false)], s', steps, w, u);
      steps := [FeederStep(t, 0, false)] + steps;
    }
  }

  lemma StraightOn(s: State, t: ThreadId)
    requires PcOf(s, t).Feeding? && Straight(s, t) && !Answering(s, t) && s.flushRequested
    ensures var u := AfterFeeder(s, t, PcOf(s, t).f, 0, false);
      PcOf(u, t).Feeding? && Straight(u, t) && Distance(PcOf(u, t).f.place) < Distance(PcOf(s, t).f.place)
  {
  }

  // The flush comes to wait.
  lemma Interrupted(d: Discipline, s: State, w: ThreadId, t: ThreadId, x: Serial) returns (u: State)
    requires Carries(d, s, w, t, x) && PcOf(s, w).FlushRaised? && !s.stopRequested
    ensures Carries(d, u, w, t, x) && Path(d, s, [FlushInterrupt(w)], w, u)
    ensures PcOf(u, w).FlushWait? && u.mutex.None? && u.interruption && !u.stopRequested && SameQueue(s, u)
    ensures forall p: ThreadId :: p != w ==> PcOf(u, p) == PcOf(s, p)
  {
    u := PathStep(d, s, FlushInterrupt(w), w);
  }

  predicate SameQueue(s: State, u: State) {
    u.queue == s.queue && u.accepted == s.accepted
  }

  // Somebody calls `stop`.
  lemma StopCalled(d: Discipline, s: State, w: ThreadId, t: ThreadId, x: Serial) returns (step: Step, u: State)
    requires Carries(d, s, w, t, x) && s.mutex.None?
    ensures Carries(d, u, w, t, x) && Path(d, s, [step], w, u)
    ensures u.stopRequested && u.interruption == s.interruption && SameQueue(s, u)
    ensures forall p: ThreadId :: !PcOf(s, p).Idle? ==> PcOf(u, p) == PcOf(s, p)
  {
    var v := FreshThread(s.pcs.Keys);
    step := StartStop(v);
    u := PathStep(d, s, step, w);
  }

  // With a stop requested, by now or before.
  lemma Stopped(d: Discipline, s: State, w: ThreadId, t: ThreadId, x: Serial) returns (steps: seq<Step>, u: State)
    requires Carries(d, s, w, t, x) && PcOf(s, w).FlushRaised?
    requires s.stopRequested && PcOf(s, t).f.place.BlockingDequeue? ==> s.interruption
    ensures Carries(d, u, w, t, x) && Path(d, s, steps, w, u)
    ensures u.stopRequested && SameQueue(s, u) && PcOf(u, t) == PcOf(s, t)
    ensures PcOf(s, t).f.place.BlockingDequeue? ==> u.interruption
  {
    if s.stopRequested {
      steps, u := [], s;
    } else {
      var s' := Interrupted(d, s, w, t, x);
      var step;
      step, u := StopCalled(d, s', w, t, x);
      steps := [FlushInterrupt(w)] + [step];
      PathConcat(d, s, [FlushInterrupt(w)], s', [step], w, u);
    }
  }

  // The feeder meets the stop before another dequeue, or is past its loop.
  lemma CutStraight(d: Discipline, s: State, w: ThreadId, t: ThreadId, x: Serial) returns (steps: seq<Step>, u: State)
    requires Carries(d, s, w, t, x) && PcOf(s, w).FlushRaised?
    requires s.stopRequested && PcOf(s, t).f.place.BlockingDequeue? ==> s.interruption
    requires var p := PcOf(s, t).f.place;
      Ending(p) || p.TestStop? || p.Feed? || p.FeedBlocking? || p.BlockingDequeue?
    ensures Path(d, s, steps, w, u) && AnswersWithout(d, u, w, t, x)
  {
    if Ending(PcOf(s, t).f.place) {
      steps, u := Finish(d, s, w, t, x);
    } else {
      var a, s' := Stopped(d, s, w, t, x);
      var b;
      b, u := Finish(d, s', w, t, x);
      PathConcat(d, s, a, s', b, w, u);
      steps := a + b;
    }
  }

  // The dequeue fails over records in their window.
  lemma CutMiss(d: Discipline, s: State, w: ThreadId, t: ThreadId, x: Serial) returns (steps: seq<Step>, u: State)
    requires Carries(d, s, w, t, x)
    requires PcOf(s, t).f.place.Dequeue? && d.Ordered? && !PcOf(s, t).f.sawFlush
    ensures Path(d, s, steps, w, u) && AnswersWithout(d, u, w, t, x)
  {
    var s' := FeederMoves(d, s, w, t, x, 0, false);
    steps, u := Finish(d, s', w, t, x);
    PathConcat(d, s, [FeederStep(t, 0, false)], s', steps, w, u);
    steps := [FeederStep(t, 0, false)] + steps;
  }

  // `run` passes its stop test, and the flush interrupts its blocking dequeue.
  lemma CutAtStopTest(d: Discipline, s: State, w: ThreadId, t: ThreadId, x: Serial) returns (steps: seq<Step>, u: State)
    requires Carries(d, s, w, t, x) && PcOf(s, w).FlushRaised?
    requires !s.stopRequested && PcOf(s, t).f.place.TestStopEnd?
    ensures Path(d, s, steps, w, u) && AnswersWithout(d, u, w, t, x)
  {
    var s' := FeederMoves(d, s, w, t, x, 0, false);
    steps, u := CutStraight(d, s', w, t, x);
    PathConcat(d, s, [FeederStep(t, 0, false)], s', steps, w, u);
    steps := [FeederStep(t, 0, false)] + steps;
  }

  // The feeder takes another record and meets the stop before it comes back for `x`.
  lemma CutAfterOne(d: Discipline, s: State, w: ThreadId, t: ThreadId, x: Serial, k: nat)
      returns (steps: seq<Step>, u: State)
    requires Carries(d, s, w, t, x) && PcOf(s, w).FlushRaised? && MustTake(d, PcOf(s, t).f)
    requires MayRemove(d, RecsOf(s, s.queue), k) && x in Without(s.queue, k)
    ensures Path(d, s, steps, w, u) && AnswersWithout(d, u, w, t, x)
  {
    var a, s1 := Stopped(d, s, w, t, x);
    var b, s2 := ReadyToTake(d, s1, w, t, x);
    PathConcat(d, s, a, s1, b, w, s2);
    var s3 := FeederMoves(d, s2, w, t, x, k, true);
    PathConcat(d, s, a + b, s2, [FeederStep(t, k, true)], w, s3);
    var c;
    c, u := Finish(d, s3, w, t, x);
    PathConcat(d, s, a + b + [FeederStep(t, k, true)], s3, c, w, u);
    steps := a + b + [FeederStep(t, k, true)] + c;
  }

  lemma ReadyToTake(d: Discipline, s: State, w: ThreadId, t: ThreadId, x: Serial) returns (steps: seq<Step>, u: State)
    requires Carries(d, s, w, t, x) && MustTake(d, PcOf(s, t).f)
    ensures Carries(d, u, w, t, x) && Path(d, s, steps, w, u) && PcOf(u, t).f.place.Dequeue?
    ensures SameQueue(s, u) && u.stopRequested == s.stopRequested
  {
    if PcOf(s, t).f.place.TestFlush? {
      u := FeederMoves(d, s, w, t, x, 0, false);
      steps := [FeederStep(t, 0, false)];
    } else {
      steps, u := [], s;
    }
  }

  // A producer past the flag check gets its record in front of the only one queued.
  lemma CutOvertaken(d: Discipline, s: State, w: ThreadId, t: ThreadId, x: Serial, p: ThreadId)
      returns (steps: seq<Step>, u: State)
    requires Carries(d, s, w, t, x) && PcOf(s, w).FlushRaised? && MustTake(d, PcOf(s, t).f)
    requires d.Ordered? && StrictWeakOrder(d.less) && s.queue == [x]
    requires PcOf(s, p).Enqueueing? && !d.less(RecAt(s, 0), PcOf(s, p).rec)
    requires s.stopRequested && PcOf(s, t).f.place.BlockingDequeue? ==> s.interruption
    ensures Path(d, s, steps, w, u) && AnswersWithout(d, u, w, t, x)
  {
    var s' := PathStep(d, s, Accept(p), w);
    AcceptFrame(d, s, p);
    AcceptedAt(d, s, p, 0);
    AcceptedAt(d, s, p, 1);
    assert s'.queue[0] == x && |s'.queue| == 2;
    assert RecsOf(s', s'.queue)[0] == RecAt(s', 0) && RecsOf(s', s'.queue)[1] == RecAt(s', 1);
    assert Without(s'.queue, 1)[0] == x;
    steps, u := CutAfterOne(d, s', w, t, x, 1);
    PathConcat(d, s, [Accept(p)], s', steps, w, u);
    steps := [Accept(p)] + steps;
  }

  // The feeder leaves, another thread begins to feed and meets the stop.
  lemma CutByAnother(d: Discipline, s: State, w: ThreadId, t: ThreadId, x: Serial)
      returns (steps: seq<Step>, y: ThreadId, u: State)
    requires Carries(d, s, w, t, x) && PcOf(s, w).FlushRaised?
    requires !s.stopRequested && PcOf(s, t).f.place.Leave?
    ensures Path(d, s, steps, w, u) && AnswersWithout(d, u, w, y, x)
  {
    var s1 := Interrupted(d, s, w, t, x);
    var s2;
    steps, y, s2 := FeederReplaced(d, s1, w, t, x);
    PathConcat(d, s, [FlushInterrupt(w)], s1, steps, w, s2);
    var step, s3 := StopCalled(d, s2, w, y, x);
    PathConcat(d, s, [FlushInterrupt(w)] + steps, s2, [step], w, s3);
    var last;
    last, u := Finish(d, s3, w, y, x);
    PathConcat(d, s, [FlushInterrupt(w)] + steps + [step], s3, last, w, u);
    steps := [FlushInterrupt(w)] + steps + [step] + last;
  }

  lemma FeederReplaced(d: Discipline, s: State, w: ThreadId, t: ThreadId, x: Serial)
      returns (steps: seq<Step>, y: ThreadId, u: State)
    requires Carries(d, s, w, t, x) && PcOf(s, t).f.place.Leave? && s.mutex.None?
    ensures Path(d, s, steps, w, u) && Carries(d, u, w, y, x)
    ensures PcOf(u, y).f.place.TestStop? && u.mutex.None?
  {
    var s1 := PathStep(d, s, FeederStep(t, 0, false), w);
    y := FreshThread(s1.pcs.Keys);
    var s2 := PathStep(d, s1, StartFeedRecords(y), w);
    u := PathStep(d, s2, Enter(y), w);
    PathConcat(d, s, [FeederStep(t, 0, false)], s1, [StartFeedRecords(y)], w, s2);
    PathConcat(d, s, [FeederStep(t, 0, false)] + [StartFeedRecords(y)], s2, [Enter(y)], w, u);
    steps := [FeederStep(t, 0, false)] + [StartFeedRecords(y)] + [Enter(y)];
  }

  lemma CutRun(d: Discipline, s0: State, w: ThreadId) returns (steps: seq<Step>, t: ThreadId)
    requires Inv(d, s0) && Enabled(d, s0, StartFlush(w)) && s0.feeding.Some? && !SureToDrain(d, s0)
    requires d.Ordered? ==> StrictWeakOrder(d.less)
    ensures AnsweredBy(d, s0, w, steps, t) && !AnsweredDrained(d, s0, w, steps, t)
  {
    t := s0.feeding.value;
    var f, s1 := PcOf(s0, t).f, Apply(d, s0, StartFlush(w));
    StepKeeps(d, s0, StartFlush(w));
    MoveFrame(s0, w, FlushRaised(|s0.accepted|), s1);
    var x := s0.queue[0];
    assert x in s0.queue;
    var u;
    if f.place.Leave? {
      steps, t, u := CutByAnother(d, s1, w, t, x);
    } else if f.place.TestStopEnd? {
      steps, u := CutAtStopTest(d, s1, w, t, x);
    } else if MustTake(d, f) {
      steps, x, u := CutAtDequeue(d, s1, w, t);
    } else if f.place.Dequeue? {
      steps, u := CutMiss(d, s1, w, t, x);
    } else {
      steps, u := CutStraight(d, s1, w, t, x);
    }
    NotDrained(d, u, w, t, x);
  }

  lemma CutAtDequeue(d: Discipline, s: State, w: ThreadId, t: ThreadId)
      returns (steps: seq<Step>, x: Serial, u: State)
    requires Inv(d, s) && s.feeding == Some(t) && PcOf(s, w) == FlushRaised(|s.accepted|) && s.flushRequested
    requires s.queue != [] && MustTake(d, PcOf(s, t).f) && (|s.queue| > 1 || !StaysFirst(d, s))
    requires d.Ordered? ==> StrictWeakOrder(d.less)
    ensures Path(d, s, steps, w, u) && AnswersWithout(d, u, w, t, x)
  {
    if |s.queue| > 1 {
      var k := RemovableExists(d, RecsOf(s, s.queue));
      x := Without(s.queue, k)[0];
      WithoutIn(s.queue, k, x);
      steps, u := CutAfterOne(d, s, w, t, x, k);
    } else {
      x := s.queue[0];
      assert x in s.queue;
      var p: ThreadId :| PcOf(s, p).Enqueueing? && !d.less(RecAt(s, 0), PcOf(s, p).rec);
      steps, u := CutOvertaken(d, s, w, t, x, p);
    }
  }

  // Every answer that a flush beside a running feeder can get, whatever stops are called meanwhile, comes
  // after everything accepted before its call was offered exactly when nothing was queued at the call, or
  // one record that the feeder takes next whatever happens, or there is no answer to wait for.
  lemma EveryAnswerDrainsIff(d: Discipline, s0: State, w: ThreadId)
    requires Inv(d, s0) && Enabled(d, s0, StartFlush(w)) && s0.feeding.Some?
    requires d.Ordered? ==> StrictWeakOrder(d.less)
    ensures (forall steps, t: ThreadId :: AnsweredBy(d, s0, w, steps, t) ==> AnsweredDrained(d, s0, w, steps, t))
            <==> SureToDrain(d, s0)
  {
    if SureToDrain(d, s0) {
      forall steps, t: ThreadId | AnsweredBy(d, s0, w, steps, t) ensures AnsweredDrained(d, s0, w, steps, t) {
        SureAnswer(d, s0, w, steps, t);
      }
    } else {
      var steps, t := CutRun(d, s0, w);
    }
  }
}
