/** Theorems about every run of the asynchronous frontend. */
module FrontendTheorems {
  import opened Records
  import opened QueueInterface
  import opened AsyncFrontend
  import opened FrontendInvariants

  ghost predicate RunsTo(d: Discipline, dedicated: Option<ThreadId>, steps: seq<Step>, s: State) {
    CanRun(d, Init(dedicated), steps) && Run(d, Init(dedicated), steps) == s
  }

  lemma ReachableInv(d: Discipline, dedicated: Option<ThreadId>, steps: seq<Step>, s: State)
    requires RunsTo(d, dedicated, steps, s)
    ensures Inv(d, s)
  {
    InitInv(d, dedicated);
    RunKeeps(d, Init(dedicated), steps);
  }

  // ----- One feeder, nothing lost, nothing reordered -----

  // At most one thread feeds, whatever `run`, `feed_records`, `flush` and `stop` calls overlap.
  lemma OneFeeder(d: Discipline, dedicated: Option<ThreadId>, steps: seq<Step>, s: State, t: ThreadId, u: ThreadId)
    requires RunsTo(d, dedicated, steps, s) && PcOf(s, t).Feeding? && PcOf(s, u).Feeding?
    ensures t == u && s.feeding == Some(t)
  {
    ReachableInv(d, dedicated, steps, s);
  }

  lemma SerialsInRange(d: Discipline, s: State)
    requires ConserveInv(d, s)
    ensures forall x :: x in s.offered || x in Hand(s) || x in s.queue ==> x < |s.accepted|
  {
    forall x | x in s.offered || x in Hand(s) || x in s.queue ensures x < |s.accepted| {
      assert x in multiset(s.offered) || x in multiset(Hand(s)) || x in multiset(s.queue);
      assert x in multiset(Upto(|s.accepted|));
    }
  }

  // Through FIFO queues the backend gets the accepted records in the order they were accepted:
  // those offered, the one in hand and those queued always make up the accepted sequence.
  lemma EndToEndFifo(dedicated: Option<ThreadId>, steps: seq<Step>, s: State)
    requires RunsTo(Fifo, dedicated, steps, s)
    ensures forall x :: x in s.offered || x in Hand(s) || x in s.queue ==> x < |s.accepted|
    ensures RecsOf(s, s.offered) + RecsOf(s, Hand(s)) + RecsOf(s, s.queue) == s.accepted
  {
    ReachableInv(Fifo, dedicated, steps, s);
    SerialsInRange(Fifo, s);
    var all := s.offered + Hand(s) + s.queue;
    assert all == Upto(|s.accepted|);
    var l := RecsOf(s, s.offered) + RecsOf(s, Hand(s)) + RecsOf(s, s.queue);
    assert |l| == |all|;
    forall i | 0 <= i < |l| ensures l[i] == s.accepted[i] {
      assert l[i] == s.accepted[all[i]];
    }
  }

  // Through any queue every accepted record is offered, in hand or queued, exactly once.
  lemma EndToEndOnce(d: Discipline, dedicated: Option<ThreadId>, steps: seq<Step>, s: State)
    requires RunsTo(d, dedicated, steps, s)
    ensures forall x: Serial :: x < |s.accepted| ==>
              multiset(s.offered)[x] + multiset(Hand(s))[x] + multiset(s.queue)[x] == 1
    ensures |s.offered| + |Hand(s)| + |s.queue| == |s.accepted|
  {
    ReachableInv(d, dedicated, steps, s);
    var all := multiset(s.offered) + multiset(Hand(s)) + multiset(s.queue);
    assert all == multiset(Upto(|s.accepted|));
    forall x: Serial | x < |s.accepted|
      ensures multiset(s.offered)[x] + multiset(Hand(s))[x] + multiset(s.queue)[x] == 1
    {
      UptoOnce(|s.accepted|, x);
      assert all[x] == 1;
    }
    assert |all| == |multiset(Upto(|s.accepted|))|;
  }

  lemma {:induction false} UptoOnce(n: nat, x: Serial)
    requires x < n
    ensures multiset(Upto(n))[x] == 1
  {
    assert Upto(n) == Upto(n - 1) + [n - 1];
    if x < n - 1 {
      UptoOnce(n - 1, x);
    } else {
      assert x !in Upto(n - 1);
      assert x !in multiset(Upto(n - 1));
    }
  }

  // While a stop or flush is requested, a feeder in its blocking dequeue has an interruption pending,
  // or some thread stands between its raise of a flag and its interruption of the queue.
  lemma RequestsInterrupt(d: Discipline, dedicated: Option<ThreadId>, steps: seq<Step>, s: State, t: ThreadId)
    requires RunsTo(d, dedicated, steps, s)
    requires PcOf(s, t).Feeding? && PcOf(s, t).f.place.BlockingDequeue?
    requires s.stopRequested || s.flushRequested
    ensures QueueOk(s)
    ensures (s.interruption && Enabled(d, s, FeederStep(t, 0, false))) ||
            (exists u: ThreadId :: Enabled(d, s, FlushInterrupt(u)) || Enabled(d, s, StopInterrupt(u)))
  {
    ReachableInv(d, dedicated, steps, s);
    if s.mutex.Some? {
      var u := s.mutex.value;
      assert Enabled(d, s, FlushInterrupt(u)) || Enabled(d, s, StopInterrupt(u));
    }
  }

  // Whatever a step does to the queue is one action every queueing strategy offers.
  lemma StepsAreQueueActions(d: Discipline, s: State, step: Step) returns (a: Action)
    requires QueueOk(s) && Enabled(d, s, step)
    ensures var u := Apply(d, s, step);
      QueueOk(u) && Acts(d, RecsOf(s, s.queue), s.interruption, a, RecsOf(u, u.queue), u.interruption)
  {
    QueueOkStep(d, s, step);
    if step.Accept? {
      a := AcceptActs(d, s, step.t);
    } else if step.FeederStep? {
      a := FeederActs(d, s, step.t, PcOf(s, step.t).f, step.k, step.take);
    } else {
      var u := Apply(d, s, step);
      a := if u.interruption && (step.FlushInterrupt? || step.StopInterrupt?) then Raise else Quiet;
      assert RecsOf(u, u.queue) == RecsOf(s, s.queue);
    }
  }

  lemma AcceptActs(d: Discipline, s: State, t: ThreadId) returns (a: Action)
    requires QueueOk(s) && PcOf(s, t).Enqueueing? && QueueOk(Apply(d, s, Accept(t)))
    ensures var u := Apply(d, s, Accept(t));
      Acts(d, RecsOf(s, s.queue), s.interruption, a, RecsOf(u, u.queue), u.interruption)
  {
    a := Append(PcOf(s, t).rec);
    var u := Apply(d, s, Accept(t));
    assert forall i :: 0 <= i < |s.queue| ==> s.queue[i] in s.queue;
    assert RecsOf(u, u.queue) == RecsOf(s, s.queue) + [PcOf(s, t).rec];
  }

  lemma FeederActs(d: Discipline, s: State, t: ThreadId, f: Feeder, k: nat, take: bool) returns (a: Action)
    requires QueueOk(s) && FeederEnabled(d, s, f, k, take) && QueueOk(AfterFeeder(s, t, f, k, take))
    ensures var u := AfterFeeder(s, t, f, k, take);
      Acts(d, RecsOf(s, s.queue), s.interruption, a, RecsOf(u, u.queue), u.interruption)
  {
    var u := AfterFeeder(s, t, f, k, take);
    assert u.accepted == s.accepted;
    if Takes(f, take) {
      a := Remove(k);
      RecsWithout(s, u, k);
    } else {
      a := if f.place.BlockingDequeue? then Answer else Quiet;
      assert u.queue == s.queue;
      assert RecsOf(u, u.queue) == RecsOf(s, s.queue);
    }
  }

  lemma RecsWithout(s: State, u: State, k: nat)
    requires QueueOk(s) && QueueOk(u) && k < |s.queue|
    requires u.accepted == s.accepted && u.queue == Without(s.queue, k)
    ensures RecsOf(u, u.queue) == Without(RecsOf(s, s.queue), k)
  {
  }

  // ----- Stopping -----

  predicate StepOf(step: Step, t: ThreadId) {
    step.FeederStep? && step.t == t
  }

  // How many steps of a run thread `t` takes as a feeder.
  function StepsOf(steps: seq<Step>, t: ThreadId): nat {
    if steps == [] then 0 else (if StepOf(steps[0], t) then 1 else 0) + StepsOf(steps[1..], t)
  }

  predicate IsLeaving(s: State, step: Step) {
    step.FeederStep? && PcOf(s, step.t).Feeding? && PcOf(s, step.t).f.place.Leave?
  }

  predicate IsClearing(s: State, step: Step) {
    step.FeederStep? && PcOf(s, step.t).Feeding? && PcOf(s, step.t).f.place.ClearFlag?
  }

  // A stop request ends exactly when the feeder leaves, a flush request exactly when it is answered.
  lemma RequestsEnd(d: Discipline, s: State, step: Step)
    requires QueueOk(s) && Enabled(d, s, step)
    ensures s.stopRequested ==> (!Apply(d, s, step).stopRequested <==> IsLeaving(s, step))
    ensures s.flushRequested ==> (!Apply(d, s, step).flushRequested <==> IsClearing(s, step))
  {
  }

  // ----- Flushing the backend -----

  // A feeder about to answer has flushed the backend, with all it has offered so far.
  predicate JustFlushed(s: State) {
    s.flushes != [] && s.flushes[|s.flushes| - 1] == |s.offered|
  }

  predicate AboutToAnswer(s: State) {
    FeederOf(s).Some? && FeederOf(s).value.place.ClearFlag?
  }

  // How many requests are answered in a run.
  ghost function Answers(d: Discipline, s: State, steps: seq<Step>): nat
    requires QueueOk(s) && CanRun(d, s, steps)
    decreases |steps|
  {
    if steps == [] then 0
    else
      QueueOkStep(d, s, steps[0]);
      (if IsClearing(s, steps[0]) then 1 else 0) + Answers(d, Apply(d, s, steps[0]), steps[1..])
  }

  lemma FlushesStep(d: Discipline, s: State, step: Step)
    requires Inv(d, s) && Enabled(d, s, step) && (AboutToAnswer(s) ==> JustFlushed(s))
    ensures var u := Apply(d, s, step);
      && (AboutToAnswer(u) ==> JustFlushed(u))
      && |u.flushes| + (if AboutToAnswer(s) then 1 else 0) ==
         |s.flushes| + (if IsClearing(s, step) then 1 else 0) + (if AboutToAnswer(u) then 1 else 0)
  {
    if step.FeederStep? {
      FeederFlushes(d, s, step.t, PcOf(s, step.t).f, step.k, step.take);
    } else {
      OthersDoNotFlush(d, s, step);
      OthersLeaveFeeder(d, s, step);
    }
  }

  lemma FeederFlushes(d: Discipline, s: State, t: ThreadId, f: Feeder, k: nat, take: bool)
    requires IsFeeder(d, s, t, f, k, take) && (f.place.ClearFlag? ==> JustFlushed(s))
    ensures FeederOf(s) == Some(f)
    ensures var u := AfterFeeder(s, t, f, k, take);
      && (AboutToAnswer(u) ==> JustFlushed(u))
      && |u.flushes| + (if f.place.ClearFlag? then 1 else 0) ==
         |s.flushes| + (if f.place.ClearFlag? then 1 else 0) + (if AboutToAnswer(u) then 1 else 0)
  {
    assert FeederOf(s) == Some(f);
    if f.place.Leave? {
      assert FeederOf(AfterFeeder(s, t, f, k, take)).None?;
    } else {
      FeederFrame(d, s, t, f, k, take);
      FlushPlaces(s, t, f, k, take);
    }
  }

  lemma FlushPlaces(s: State, t: ThreadId, f: Feeder, k: nat, take: bool)
    requires !f.place.Leave? && (Takes(f, take) ==> k < |s.queue|)
    ensures var u, g := AfterFeeder(s, t, f, k, take), NextFeeder(s, f, k, take);
      && PcOf(u, t) == Feeding(g) && (g.place.ClearFlag? <==> f.place.FlushBackend?)
      && u.flushes == (if f.place.FlushBackend? then s.flushes + [|s.offered|] else s.flushes)
      && (f.place.FlushBackend? ==> u.offered == s.offered)
  {
  }

  lemma OthersDoNotFlush(d: Discipline, s: State, step: Step)
    requires QueueOk(s) && Enabled(d, s, step) && !step.FeederStep?
    ensures Apply(d, s, step).flushes == s.flushes && Apply(d, s, step).offered == s.offered
  {
    match step
    case StartFlush(t) =>
    case FlushInterrupt(t) =>
    case FlushWake(t) =>
    case Enter(t) =>
    case StartStop(t) =>
    case _ =>
  }

  // A new feeder starts with a look at the flags.
  lemma OthersLeaveFeeder(d: Discipline, s: State, step: Step)
    requires QueueOk(s) && SingleInv(s) && Enabled(d, s, step) && !step.FeederStep?
    ensures var u := Apply(d, s, step);
      FeederOf(u) == FeederOf(s) ||
      (s.feeding.None? && FeederOf(u).Some? && FeederOf(u).value.place.TestStop?)
  {
    var u := Apply(d, s, step);
    if u.feeding == s.feeding {
      assert s.feeding.Some? ==> PcOf(u, s.feeding.value) == PcOf(s, s.feeding.value);
    } else {
      assert u.feeding == Some(step.t);
    }
  }

  lemma {:induction false} FlushesRun(d: Discipline, s: State, steps: seq<Step>)
    requires Inv(d, s) && CanRun(d, s, steps) && (AboutToAnswer(s) ==> JustFlushed(s))
    ensures var u := Run(d, s, steps);
      && (AboutToAnswer(u) ==> JustFlushed(u))
      && |u.flushes| + (if AboutToAnswer(s) then 1 else 0) ==
         |s.flushes| + Answers(d, s, steps) + (if AboutToAnswer(u) then 1 else 0)
    decreases |steps|
  {
    if steps == [] {
    } else {
      StepKeeps(d, s, steps[0]);
      FlushesStep(d, s, steps[0]);
      FlushesRun(d, Apply(d, s, steps[0]), steps[1..]);
    }
  }

  // In every run the backend is flushed once for each answer to a request and never otherwise, right before
  // it: with nothing offered in between.
  lemma AnswersFlushBackend(d: Discipline, dedicated: Option<ThreadId>, steps: seq<Step>, s: State)
    requires RunsTo(d, dedicated, steps, s)
    ensures QueueOk(Init(dedicated))
    ensures |s.flushes| == Answers(d, Init(dedicated), steps) + (if AboutToAnswer(s) then 1 else 0)
    ensures forall step :: QueueOk(s) && Enabled(d, s, step) && IsClearing(s, step) ==> JustFlushed(s)
  {
    InitInv(d, dedicated);
    ReachableInv(d, dedicated, steps, s);
    FlushesRun(d, Init(dedicated), steps);
    forall step | Enabled(d, s, step) && IsClearing(s, step) ensures JustFlushed(s) {
      assert FeederOf(s) == Some(PcOf(s, step.t).f);
    }
  }

  // How far a feeder is from leaving once a stop is requested.
  function StopRank(p: Place): nat {
    match p
    case TestFlush => 9
    case Dequeue => 8
    case BlockingDequeue => 8
    case Feed(_) => 7
    case FeedBlocking(_) => 7
    case TestStop => 6
    case TestFlushEnd => 5
    case FlushBackend => 4
    case ClearFlag => 3
    case TestStopEnd => 2
    case Leave => 1
  }

  // Its own steps bring it closer, it takes at most one more record on the way, and nobody else
  // holds it up or cancels the request.
  lemma StopStep(d: Discipline, s: State, step: Step, t: ThreadId)
    requires Inv(d, s) && s.stopRequested && PcOf(s, t).Feeding? && Enabled(d, s, step)
    ensures var u := Apply(d, s, step); var p := PcOf(s, t).f.place;
      if StepOf(step, t) then
        if p.Leave? then PcOf(u, t).Idle?
        else
          && u.stopRequested && PcOf(u, t).Feeding?
          && StopRank(PcOf(u, t).f.place) < StopRank(p)
          && (u.queue != s.queue ==> StopRank(PcOf(u, t).f.place) == 7)
      else
        u.stopRequested && PcOf(u, t) == PcOf(s, t)
  {
    RequestsEnd(d, s, step);
    if step.FeederStep? {
      assert step.t == t;
      if !PcOf(s, t).f.place.Leave? {
        StopRankFalls(s, PcOf(s, t).f, step.k, step.take);
        assert PcOf(Apply(d, s, step), t) == Feeding(NextFeeder(s, PcOf(s, t).f, step.k, step.take));
      }
    } else {
      assert step.t != t;
    }
  }

  lemma StopRankFalls(s: State, f: Feeder, k: nat, take: bool)
    requires s.stopRequested && !f.place.Leave? && (Takes(f, take) ==> k < |s.queue|)
    ensures StopRank(NextFeeder(s, f, k, take).place) < StopRank(f.place)
    ensures Takes(f, take) ==> StopRank(NextFeeder(s, f, k, take).place) == 7
  {
  }

  // Thread `t` is idle after the first `k` steps of a run.
  ghost predicate IdleAfter(d: Discipline, s: State, steps: seq<Step>, k: nat, t: ThreadId)
    requires QueueOk(s)
  {
    k <= |steps| && CanRun(d, s, steps[..k]) && PcOf(Run(d, s, steps[..k]), t).Idle?
  }

  lemma IdleAfterCons(d: Discipline, s: State, steps: seq<Step>, k: nat, t: ThreadId)
    requires QueueOk(s) && steps != [] && Enabled(d, s, steps[0]) && QueueOk(Apply(d, s, steps[0]))
    requires k < |steps| && IdleAfter(d, Apply(d, s, steps[0]), steps[1..], k, t)
    ensures IdleAfter(d, s, steps, k + 1, t)
  {
    assert steps[..k + 1][0] == steps[0] && steps[..k + 1][1..] == steps[1..][..k];
  }

  // The rest of a run from `s` goes on from `u`; whenever it finds `t` idle, so does the whole run.
  ghost predicate GoesOn(d: Discipline, s: State, steps: seq<Step>, t: ThreadId, u: State)
    requires QueueOk(s) && steps != []
  {
    && Inv(d, u) && CanRun(d, u, steps[1..])
    && (forall k: nat :: k < |steps| && IdleAfter(d, u, steps[1..], k, t) ==> IdleAfter(d, s, steps, k + 1, t))
  }

  lemma FirstStep(d: Discipline, s: State, steps: seq<Step>, t: ThreadId) returns (u: State)
    requires Inv(d, s) && steps != [] && CanRun(d, s, steps)
    ensures Enabled(d, s, steps[0]) && u == Apply(d, s, steps[0]) && GoesOn(d, s, steps, t, u)
  {
    u := Apply(d, s, steps[0]);
    StepKeeps(d, s, steps[0]);
    forall k: nat | k < |steps| && IdleAfter(d, u, steps[1..], k, t) ensures IdleAfter(d, s, steps, k + 1, t) {
      IdleAfterCons(d, s, steps, k, t);
    }
  }

  lemma IdleNow(d: Discipline, s: State, steps: seq<Step>, t: ThreadId)
    requires QueueOk(s) && PcOf(s, t).Idle?
    ensures IdleAfter(d, s, steps, 0, t)
  {
    assert steps[..0] == [];
  }

  lemma StopProgress(d: Discipline, s: State, steps: seq<Step>, t: ThreadId) returns (u: State)
    requires Inv(d, s) && s.stopRequested && PcOf(s, t).Feeding? && steps != [] && CanRun(d, s, steps)
    ensures GoesOn(d, s, steps, t, u)
    ensures PcOf(u, t).Idle? ||
      (u.stopRequested && PcOf(u, t).Feeding? &&
       StopRank(PcOf(u, t).f.place) + (if StepOf(steps[0], t) then 1 else 0) <= StopRank(PcOf(s, t).f.place))
  {
    u := FirstStep(d, s, steps, t);
    StopStep(d, s, steps[0], t);
  }

  // Once a stop is requested the feeder leaves within nine steps of its own, however the other
  // threads interleave; `RequestsInterrupt` is why the blocking dequeue cannot hold it.
  lemma {:induction false} StopEndsFeeder(d: Discipline, s: State, t: ThreadId, steps: seq<Step>) returns (k: nat)
    requires Inv(d, s) && s.stopRequested && PcOf(s, t).Feeding? && CanRun(d, s, steps)
    requires StepsOf(steps, t) >= StopRank(PcOf(s, t).f.place)
    ensures IdleAfter(d, s, steps, k, t)
    decreases |steps|
  {
    var u := StopProgress(d, s, steps, t);
    if PcOf(u, t).Idle? {
      k := 0;
      IdleNow(d, u, steps[1..], t);
    } else {
      k := StopEndsFeeder(d, u, t, steps[1..]);
    }
    k := k + 1;
  }

  // ----- A flush that finds no feeder -----

  predicate SelfFlushing(s: State, t: ThreadId) {
    PcOf(s, t).Feeding? && PcOf(s, t).f.kind.SelfFlush?
  }

  // `t` is inside the same self-run flush in every state of the run.
  ghost predicate FlushesThroughout(d: Discipline, s: State, steps: seq<Step>, t: ThreadId)
    requires QueueOk(s) && CanRun(d, s, steps)
    decreases |steps|
  {
    && SelfFlushing(s, t)
    && (steps != [] ==>
          (QueueOkStep(d, s, steps[0]); FlushesThroughout(d, Apply(d, s, steps[0]), steps[1..], t)))
  }

  lemma MarkStays(s: State, f: Feeder, k: nat, take: bool)
    requires Takes(f, take) ==> k < |s.queue|
    ensures var g := NextFeeder(s, f, k, take);
      && (f.kind.SelfFlush? <==> g.kind.SelfFlush?)
      && (f.kind.SelfFlush? ==> f.kind.mark == g.kind.mark && f.kind.budget == g.kind.budget)
  {
  }

  lemma SameFlushStep(d: Discipline, s: State, step: Step, t: ThreadId)
    requires Inv(d, s) && Enabled(d, s, step) && SelfFlushing(s, t) && SelfFlushing(Apply(d, s, step), t)
    ensures var k, k' := PcOf(s, t).f.kind, PcOf(Apply(d, s, step), t).f.kind;
      k.mark == k'.mark && k.budget == k'.budget
  {
    if step.FeederStep? {
      assert step.t == t;
      MarkStays(s, PcOf(s, t).f, step.k, step.take);
    } else {
      OthersAddNoWork(d, s, step, t);
    }
  }

  lemma {:induction false} SameFlushRun(d: Discipline, s: State, steps: seq<Step>, t: ThreadId)
    requires Inv(d, s) && CanRun(d, s, steps) && FlushesThroughout(d, s, steps, t)
    ensures var u := Run(d, s, steps);
      && SelfFlushing(u, t)
      && PcOf(s, t).f.kind.mark == PcOf(u, t).f.kind.mark
      && PcOf(s, t).f.kind.budget == PcOf(u, t).f.kind.budget
    decreases |steps|
  {
    if steps == [] {
    } else {
      StepKeeps(d, s, steps[0]);
      SameFlushStep(d, s, steps[0], t);
      SameFlushRun(d, Apply(d, s, steps[0]), steps[1..], t);
    }
  }

  // A call of `flush` that finds no feeder, or one that waited for a feeder and finds none any more.
  ghost predicate BeginsSelfFlush(d: Discipline, s: State, step: Step)
    requires QueueOk(s) && Enabled(d, s, step)
  {
    && (step.StartFlush? || step.FlushWake?)
    && SelfFlushing(Apply(d, s, step), step.t)
  }

  // Such a flush raises the flag and feeds by itself. It never skips the backend's flush. When it gets
  // there, unless a stop cut its loop short, every record accepted before it began to feed has been
  // offered, so every record accepted before the call; and it feeds at most the records queued when it
  // began plus one for each producer already past the flag check.
  lemma SelfFlushDrains(d: Discipline, s: State, step: Step, steps: seq<Step>)
    requires Inv(d, s) && Enabled(d, s, step) && BeginsSelfFlush(d, s, step)
    requires QueueOk(Apply(d, s, step)) && CanRun(d, Apply(d, s, step), steps)
    requires FlushesThroughout(d, Apply(d, s, step), steps, step.t)
    ensures step.FlushWake? ==> PcOf(s, step.t).mark <= |s.accepted|
    ensures var u := Run(d, Apply(d, s, step), steps);
      && SelfFlushing(u, step.t)
      && (var f := PcOf(u, step.t).f;
          && (f.place.TestFlushEnd? ==> u.flushRequested)
          && (f.place.FlushBackend? && !f.sawStop ==> AllOffered(u, |s.accepted|))
          && (!f.place.Leave? ==> f.kind.fed <= |s.queue| + |Past(s)|))
  {
    var s1 := Apply(d, s, step);
    StepKeeps(d, s, step);
    SelfFlushBegun(d, s, step);
    SameFlushRun(d, s1, steps, step.t);
    RunKeeps(d, s1, steps);
  }

  lemma SelfFlushBegun(d: Discipline, s: State, step: Step)
    requires Inv(d, s) && Enabled(d, s, step) && BeginsSelfFlush(d, s, step)
    ensures var kind := PcOf(Apply(d, s, step), step.t).f.kind;
      kind.mark == |s.accepted| && kind.budget == |s.queue| + |Past(s)|
  {
    PastAt(s, step.t, Idle);
    assert Apply(d, s, step) == FlushSelf(s, step.t);
  }

  // Work left to a flush that feeds by itself.
  function Rank(p: Place): nat {
    match p
    case Feed(_) => 7
    case TestStop => 6
    case TestFlush => 5
    case Dequeue => 4
    case TestFlushEnd => 3
    case FlushBackend => 2
    case ClearFlag => 1
    case _ => 0
  }

  function Fuel(s: State, f: Feeder): nat {
    if f.place.Leave? then 0 else 4 * (|s.queue| + |Past(s)|) + Rank(f.place)
  }

  lemma {:induction false} RemovableExists(d: Discipline, recs: seq<Record>) returns (k: nat)
    requires (d.Ordered? ==> StrictWeakOrder(d.less)) && recs != []
    ensures MayRemove(d, recs, k)
  {
    k := 0;
    if d.Fifo? || |recs| == 1 {
    } else {
      var last := |recs| - 1;
      k := RemovableExists(d, recs[..last]);
      var k0 := k;
      if d.less(recs[last], recs[k]) {
        k := last;
      }
      forall j | 0 <= j < |recs| ensures !d.less(recs[j], recs[k]) {
        if j < last {
          assert recs[j] == recs[..last][j] && !d.less(recs[..last][j], recs[..last][k0]);
        }
      }
    }
  }

  // It never blocks: some step of it is always possible, except that it has to wait for the mutex
  // while another thread is about to interrupt the queue, which nothing holds up.
  lemma SelfFlushNeverBlocks(d: Discipline, s: State, t: ThreadId) returns (step: Step)
    requires (d.Ordered? ==> StrictWeakOrder(d.less)) && Inv(d, s) && SelfFlushing(s, t)
    ensures Enabled(d, s, step)
    ensures if s.mutex.Some? && (PcOf(s, t).f.place.ClearFlag? || PcOf(s, t).f.place.Leave?)
            then step.t == s.mutex.value && Apply(d, s, step).mutex.None?
            else StepOf(step, t)
  {
    var f := PcOf(s, t).f;
    if s.mutex.Some? && (f.place.ClearFlag? || f.place.Leave?) {
      var u := s.mutex.value;
      step := if PcOf(s, u).FlushRaised? then FlushInterrupt(u) else StopInterrupt(u);
    } else if f.place.Dequeue? && s.queue != [] {
      var k := RemovableExists(d, RecsOf(s, s.queue));
      step := FeederStep(t, k, true);
    } else {
      step := FeederStep(t, 0, false);
    }
  }

  // Each of its steps uses up fuel, and nobody else adds any.
  lemma FuelStep(d: Discipline, s: State, step: Step, t: ThreadId)
    requires Inv(d, s) && SelfFlushing(s, t) && Enabled(d, s, step)
    ensures var u := Apply(d, s, step);
      if StepOf(step, t) then
        if PcOf(s, t).f.place.Leave? then PcOf(u, t).Idle?
        else SelfFlushing(u, t) && Fuel(u, PcOf(u, t).f) < Fuel(s, PcOf(s, t).f)
      else
        PcOf(u, t) == PcOf(s, t) && Fuel(u, PcOf(u, t).f) <= Fuel(s, PcOf(s, t).f)
  {
    if step.FeederStep? {
      assert step.t == t;
      if !PcOf(s, t).f.place.Leave? {
        OwnStepUsesFuel(d, s, t, PcOf(s, t).f, step.k, step.take);
      }
    } else {
      OthersAddNoWork(d, s, step, t);
    }
  }

  lemma FuelProgress(d: Discipline, s: State, steps: seq<Step>, t: ThreadId) returns (u: State)
    requires Inv(d, s) && SelfFlushing(s, t) && steps != [] && CanRun(d, s, steps)
    ensures GoesOn(d, s, steps, t, u)
    ensures PcOf(u, t).Idle? ||
      (SelfFlushing(u, t) &&
       Fuel(u, PcOf(u, t).f) + (if StepOf(steps[0], t) then 1 else 0) <= Fuel(s, PcOf(s, t).f))
  {
    u := FirstStep(d, s, steps, t);
    FuelStep(d, s, steps[0], t);
  }

  lemma OwnStepUsesFuel(d: Discipline, s: State, t: ThreadId, f: Feeder, k: nat, take: bool)
    requires IsFeeder(d, s, t, f, k, take) && FlagInv(s) && f.kind.SelfFlush? && !f.place.Leave?
    ensures var u := AfterFeeder(s, t, f, k, take);
      SelfFlushing(u, t) && Fuel(u, PcOf(u, t).f) < Fuel(s, f)
  {
    FeederFrame(d, s, t, f, k, take);
    FeederHands(s, t, f, k, take);
    MarkStays(s, f, k, take);
    RankFalls(s, f, k, take);
    assert PcOf(AfterFeeder(s, t, f, k, take), t) == Feeding(NextFeeder(s, f, k, take));
  }

  lemma RankFalls(s: State, f: Feeder, k: nat, take: bool)
    requires (Takes(f, take) ==> k < |s.queue|) && f.kind.SelfFlush? && !f.place.Leave?
    requires !f.place.TestStopEnd? && !f.place.BlockingDequeue? && !f.place.FeedBlocking?
    ensures Rank(NextFeeder(s, f, k, take).place) < Rank(f.place) + (if Takes(f, take) then 4 else 0)
  {
  }

  lemma OthersAddNoWork(d: Discipline, s: State, step: Step, t: ThreadId)
    requires Inv(d, s) && SelfFlushing(s, t) && Enabled(d, s, step) && !step.FeederStep?
    ensures var u := Apply(d, s, step);
      && PcOf(u, t) == PcOf(s, t)
      && (!PcOf(s, t).f.place.Leave? ==> |u.queue| + |Past(u)| <= |s.queue| + |Past(s)|)
  {
    var u := Apply(d, s, step);
    assert step.t != t && s.feeding == Some(t);
    PastAfterMove(s, u, step.t);
  }

  lemma PastAfterMove(s: State, u: State, t: ThreadId)
    requires u.pcs == s.pcs || u.pcs == s.pcs[t := PcOf(u, t)]
    ensures |Past(u)| ==
      |Past(s)| + (if PcOf(u, t).Enqueueing? then 1 else 0) - (if PcOf(s, t).Enqueueing? then 1 else 0)
  {
    if u.pcs == s.pcs {
      assert Past(u) == Past(s);
    } else {
      PastAt(s, t, PcOf(u, t));
      assert Past(u) == Past(At(s, t, PcOf(u, t)));
    }
  }

  // So it leaves after at most `Fuel + 1` steps of its own, however the other threads interleave.
  lemma {:induction false} SelfFlushTerminates(d: Discipline, s: State, t: ThreadId, steps: seq<Step>) returns (k: nat)
    requires Inv(d, s) && SelfFlushing(s, t) && CanRun(d, s, steps)
    requires StepsOf(steps, t) > Fuel(s, PcOf(s, t).f)
    ensures IdleAfter(d, s, steps, k, t)
    decreases |steps|
  {
    var u := FuelProgress(d, s, steps, t);
    if PcOf(u, t).Idle? {
      k := 0;
      IdleNow(d, u, steps[1..], t);
    } else {
      k := SelfFlushTerminates(d, u, t, steps[1..]);
    }
    k := k + 1;
  }

  // ----- Building runs -----

  lemma Extend(d: Discipline, dedicated: Option<ThreadId>, steps: seq<Step>, s: State, step: Step, u: State)
      returns (longer: seq<Step>)
    requires RunsTo(d, dedicated, steps, s) && QueueOk(s) && Enabled(d, s, step) && u == Apply(d, s, step)
    ensures longer == steps + [step] && RunsTo(d, dedicated, longer, u) && QueueOk(u)
  {
    longer := steps + [step];
    QueueOkStep(d, s, step);
    RunSnoc(d, Init(dedicated), steps, step);
  }

  lemma {:induction false} RunSnoc(d: Discipline, s: State, steps: seq<Step>, step: Step)
    requires QueueOk(s) && CanRun(d, s, steps)
    requires QueueOk(Run(d, s, steps)) && Enabled(d, Run(d, s, steps), step)
    ensures CanRun(d, s, steps + [step])
    ensures Run(d, s, steps + [step]) == Apply(d, Run(d, s, steps), step)
    decreases |steps|
  {
    if steps == [] {
      QueueOkStep(d, s, step);
      assert (steps + [step])[1..] == [];
    } else {
      QueueOkStep(d, s, steps[0]);
      RunSnoc(d, Apply(d, s, steps[0]), steps[1..], step);
      assert (steps + [step])[1..] == steps[1..] + [step];
    }
  }

  // Thread 0 feeding alone from an empty queue.
  function Solo(place: Place): State {
    Init(None).(feeding := Some(0), pcs := map[0 := Feeding(Feeder(FeedRecords, place, false, false, 0))])
  }

  lemma SoloStep(d: Discipline, steps: seq<Step>, here: Place, there: Place) returns (longer: seq<Step>)
    requires RunsTo(d, None, steps, Solo(here)) && QueueOk(Solo(here))
    requires (here == TestStop && there == TestFlush) || (here == TestFlush && there == Dequeue)
          || (here == Dequeue && there == TestFlushEnd)
    ensures RunsTo(d, None, longer, Solo(there)) && QueueOk(Solo(there))
  {
    longer := Extend(d, None, steps, Solo(here), FeederStep(0, 0, false), Solo(there));
  }

  // Thread 0 calls `feed_records` on an empty queue and its dequeue fails.
  lemma FailedFeedRun(d: Discipline) returns (steps: seq<Step>, s: State)
    ensures RunsTo(d, None, steps, s) && QueueOk(s) && s == Solo(TestFlushEnd)
  {
    var s1 := Init(None).(pcs := map[0 := FeedEntry]);
    steps := Extend(d, None, [], Init(None), StartFeedRecords(0), s1);
    steps := Extend(d, None, steps, s1, Enter(0), Solo(TestStop));
    steps := SoloStep(d, steps, TestStop, TestFlush);
    steps := SoloStep(d, steps, TestFlush, Dequeue);
    steps := SoloStep(d, steps, Dequeue, TestFlushEnd);
    s := Solo(TestFlushEnd);
  }
}
