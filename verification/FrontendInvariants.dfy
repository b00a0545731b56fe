/** What every step of the asynchronous frontend keeps. */
module FrontendInvariants {
  import opened Records
  import opened QueueInterface
  import opened AsyncFrontend

  function Upto(n: nat): (r: seq<Serial>)
    ensures |r| == n && forall i :: 0 <= i < n ==> r[i] == i
  {
    seq(n, i => i)
  }

  // The thread that feeds is the one `m_FeedingThreadID` names.
  ghost predicate SingleInv(s: State) {
    && (s.feeding.Some? ==> PcOf(s, s.feeding.value).Feeding?)
    && (forall t: ThreadId :: PcOf(s, t).Feeding? ==> s.feeding == Some(t))
  }

  function FeederOf(s: State): Option<Feeder> {
    if s.feeding.Some? && PcOf(s, s.feeding.value).Feeding? then Some(PcOf(s, s.feeding.value).f) else None
  }

  function HandOf(o: Option<Feeder>): seq<Serial> {
    if o.Some? && (o.value.place.Feed? || o.value.place.FeedBlocking?) then [o.value.place.serial] else []
  }

  // The record the feeder took and has not offered yet.
  function Hand(s: State): seq<Serial> {
    HandOf(FeederOf(s))
  }

  ghost predicate Conserved(d: Discipline, offered: seq<Serial>, hand: seq<Serial>, queue: seq<Serial>, n: nat) {
    && multiset(offered) + multiset(hand) + multiset(queue) == multiset(Upto(n))
    && (d.Fifo? ==> offered + hand + queue == Upto(n))
  }

  ghost predicate ConserveInv(d: Discipline, s: State) {
    Conserved(d, s.offered, Hand(s), s.queue, |s.accepted|)
  }

  // The mutex is held between steps only by the thread that has raised a flag and is about to
  // interrupt the queue; the feeder it wants to reach cannot leave meanwhile.
  ghost predicate MutexInv(s: State) {
    && (s.mutex.Some? ==> Raising(PcOf(s, s.mutex.value)))
    && (forall t: ThreadId :: Raising(PcOf(s, t)) ==>
          && s.mutex == Some(t)
          && (PcOf(s, t).FlushRaised? ==> s.flushRequested && s.feeding.Some?)
          && (PcOf(s, t).StopRaised? ==> s.stopRequested))
  }

  // A stop that ended the loop is still pending. Only `run` gets to the blocking dequeue. A request made
  // while the feeder is on its way there interrupts it, or is about to. A flush that feeds by itself keeps
  // the flag up until it has flushed the backend.
  ghost predicate FlagInv(s: State) {
    var o := FeederOf(s);
    o.Some? ==>
      var f := o.value;
      && (f.sawStop ==> s.stopRequested)
      && (f.place.TestStopEnd? || f.place.BlockingDequeue? || f.place.FeedBlocking? ==> f.kind.RunLoop?)
      && (f.place.BlockingDequeue? && s.stopRequested ==> s.interruption || s.mutex.Some?)
      && ((f.place.TestStopEnd? || f.place.BlockingDequeue?) && s.flushRequested ==> s.interruption || s.mutex.Some?)
      && (f.kind.SelfFlush? ==>
            && f.kind.mark <= |s.accepted|
            && (!f.place.Leave? ==> s.flushRequested)
            && (f.place.Dequeue? ==> f.sawFlush))
  }

  ghost predicate MarksInv(s: State) {
    forall t: ThreadId :: Requesting(PcOf(s, t)) ==> PcOf(s, t).mark <= |s.accepted|
  }

  predicate LoopEnded(f: Feeder) {
    (f.place.TestFlushEnd? || f.place.FlushBackend? || f.place.ClearFlag?) && !f.sawStop
  }

  ghost predicate AllOffered(s: State, n: nat) {
    forall x: Serial :: x < n ==> x in s.offered
  }

  // Once the loop has ended at a failed dequeue, everything accepted up to its floor is offered;
  // the floor covers the flush that feeds itself and every flush noticed before that dequeue.
  ghost predicate DrainInv(s: State) {
    var o := FeederOf(s);
    o.Some? ==>
      && (o.value.place.Dequeue? && s.noticed != {} ==> o.value.sawFlush)
      && (LoopEnded(o.value) ==>
            && o.value.floor <= |s.accepted| && AllOffered(s, o.value.floor)
            && (o.value.kind.SelfFlush? ==> o.value.kind.mark <= o.value.floor)
            && (forall w :: w in s.noticed && Requesting(PcOf(s, w)) ==> PcOf(s, w).mark <= o.value.floor))
  }

  // A flush that feeds itself has work for the records queued, the one in hand, and those of the
  // producers past the flag check; nobody passes the check while the flag is up.
  ghost predicate BudgetInv(s: State) {
    var o := FeederOf(s);
    o.Some? && o.value.kind.SelfFlush? && !o.value.place.Leave? ==>
      o.value.kind.fed + |Hand(s)| + |s.queue| + |Past(s)| <= o.value.kind.budget
  }

  ghost predicate Inv(d: Discipline, s: State) {
    && QueueOk(s) && SingleInv(s) && MutexInv(s) && ConserveInv(d, s) && FlagInv(s) && MarksInv(s)
    && DrainInv(s) && BudgetInv(s)
  }

  lemma InitInv(d: Discipline, dedicated: Option<ThreadId>)
    ensures Inv(d, Init(dedicated))
  {
  }

  // ----- Small facts -----

  lemma PastAt(s: State, t: ThreadId, pc: Pc)
    ensures Past(At(s, t, pc)) == if pc.Enqueueing? then Past(s) + {t} else Past(s) - {t}
    ensures |Past(At(s, t, pc))| ==
              |Past(s)| + (if pc.Enqueueing? then 1 else 0) - (if t in Past(s) then 1 else 0)
  {
    PastSet(s, t, pc);
    ToggleSize(Past(s), t, pc.Enqueueing?);
  }

  lemma PastSet(s: State, t: ThreadId, pc: Pc)
    ensures Past(At(s, t, pc)) == if pc.Enqueueing? then Past(s) + {t} else Past(s) - {t}
  {
  }

  lemma EmptyQueueAllOffered(d: Discipline, s: State)
    requires ConserveInv(d, s) && Hand(s) == [] && s.queue == []
    ensures AllOffered(s, |s.accepted|)
  {
    forall x: Serial | x < |s.accepted| ensures x in s.offered {
      assert Upto(|s.accepted|)[x] in multiset(Upto(|s.accepted|));
      assert x in multiset(s.offered);
    }
  }

  lemma UptoSnoc(n: nat)
    ensures Upto(n + 1) == Upto(n) + [n]
  {
  }

  // A step moves one thread.
  lemma BesideStep(d: Discipline, s: State, step: Step, x: ThreadId)
    requires QueueOk(s) && Enabled(d, s, step) && x != step.t
    ensures PcOf(Apply(d, s, step), x) == PcOf(s, x)
  {
    if step.FeederStep? {
      BesideFeeder(s, step.t, PcOf(s, step.t).f, step.k, step.take, x);
    }
  }

  lemma BesideFeeder(s: State, t: ThreadId, f: Feeder, k: nat, take: bool, x: ThreadId)
    requires (Takes(f, take) ==> k < |s.queue|) && x != t
    ensures PcOf(AfterFeeder(s, t, f, k, take), x) == PcOf(s, x)
  {
  }

  // ----- Steps of threads that do not feed -----

  // A thread that does not feed moves.
  lemma MoveFrame(s: State, t: ThreadId, pc: Pc, u: State)
    requires SingleInv(s) && !PcOf(s, t).Feeding? && !pc.Feeding?
    requires u.pcs == s.pcs[t := pc] && u.feeding == s.feeding
    ensures SingleInv(u) && FeederOf(u) == FeederOf(s)
    ensures PcOf(u, t) == pc && forall x: ThreadId :: x != t ==> PcOf(u, x) == PcOf(s, x)
    ensures |Past(u)| ==
      |Past(s)| + (if pc.Enqueueing? then 1 else 0) - (if PcOf(s, t).Enqueueing? then 1 else 0)
  {
    PastAt(s, t, pc);
    assert Past(u) == Past(At(s, t, pc));
    assert forall x: ThreadId :: x != t ==> PcOf(u, x) == PcOf(s, x);
  }

  // Only its place changes.
  lemma MoveKeeps(d: Discipline, s: State, t: ThreadId, pc: Pc)
    requires Inv(d, s) && !PcOf(s, t).Feeding? && !pc.Feeding? && !Raising(PcOf(s, t)) && !Raising(pc)
    requires pc.Enqueueing? ==> !s.flushRequested || PcOf(s, t).Enqueueing?
    requires pc.FlushWait? ==> PcOf(s, t) == pc
    ensures Inv(d, At(s, t, pc))
  {
    MoveFrame(s, t, pc, At(s, t, pc));
  }

  lemma AcceptKeeps(d: Discipline, s: State, t: ThreadId)
    requires Inv(d, s) && PcOf(s, t).Enqueueing?
    ensures Inv(d, Apply(d, s, Accept(t)))
  {
    AcceptFrame(d, s, t);
    AcceptKeepsRest(d, s, t);
    AcceptConserves(d, s, t);
  }

  lemma AcceptConserves(d: Discipline, s: State, t: ThreadId)
    requires QueueOk(s) && ConserveInv(d, s) && PcOf(s, t).Enqueueing?
    requires FeederOf(Apply(d, s, Accept(t))) == FeederOf(s)
    ensures ConserveInv(d, Apply(d, s, Accept(t)))
  {
    AppendConserved(d, s.offered, Hand(s), s.queue, |s.accepted|);
  }

  lemma AcceptFrame(d: Discipline, s: State, t: ThreadId)
    requires QueueOk(s) && SingleInv(s) && MutexInv(s) && BudgetInv(s) && PcOf(s, t).Enqueueing?
    ensures var u := Apply(d, s, Accept(t));
      && QueueOk(u) && SingleInv(u) && MutexInv(u) && FeederOf(u) == FeederOf(s) && BudgetInv(u)
  {
    var u := Apply(d, s, Accept(t));
    PastAt(s, t, Idle);
    assert Past(u) == Past(At(s, t, Idle));
    assert forall x: ThreadId :: x != t ==> PcOf(u, x) == PcOf(s, x);
  }

  lemma AcceptKeepsRest(d: Discipline, s: State, t: ThreadId)
    requires QueueOk(s) && FlagInv(s) && MarksInv(s) && DrainInv(s) && PcOf(s, t).Enqueueing?
    requires FeederOf(Apply(d, s, Accept(t))) == FeederOf(s)
    ensures var u := Apply(d, s, Accept(t)); FlagInv(u) && MarksInv(u) && DrainInv(u)
  {
    var u := Apply(d, s, Accept(t));
    assert forall x: ThreadId :: x != t ==> PcOf(u, x) == PcOf(s, x);
  }

  lemma AppendConserved(d: Discipline, offered: seq<Serial>, hand: seq<Serial>, queue: seq<Serial>, n: nat)
    requires Conserved(d, offered, hand, queue, n)
    ensures Conserved(d, offered, hand, queue + [n], n + 1)
  {
    UptoSnoc(n);
    assert offered + hand + (queue + [n]) == (offered + hand + queue) + [n];
  }

  lemma EnterKeeps(d: Discipline, s: State, t: ThreadId)
    requires Inv(d, s) && Enabled(d, s, Enter(t))
    ensures Inv(d, Apply(d, s, Enter(t)))
  {
    if s.feeding.Some? {
      MoveKeeps(d, s, t, Idle);
    } else {
      var u := Apply(d, s, Enter(t));
      BecomesFeeder(d, s, t, PcOf(u, t).f, u);
      assert BudgetInv(u);
    }
  }

  // A thread starts to feed.
  lemma BecomesFeeder(d: Discipline, s: State, t: ThreadId, f: Feeder, u: State)
    requires QueueOk(s) && SingleInv(s) && MutexInv(s) && ConserveInv(d, s) && MarksInv(s)
    requires s.feeding.None? && s.mutex.None? && f.place.TestStop? && !f.sawStop
    requires u == At(s, t, Feeding(f)).(feeding := Some(t), flushRequested := u.flushRequested)
    requires f.kind.SelfFlush? ==> f.kind.mark <= |s.accepted| && u.flushRequested
    ensures FeederOf(u) == Some(f) && Hand(u) == []
    ensures QueueOk(u) && SingleInv(u) && MutexInv(u) && ConserveInv(d, u)
    ensures FlagInv(u) && MarksInv(u) && DrainInv(u)
  {
    assert forall x: ThreadId :: x != t ==> PcOf(u, x) == PcOf(s, x);
    assert FeederOf(s) == None && FeederOf(u) == Some(f);
  }

  lemma FlushSelfKeeps(d: Discipline, s: State, t: ThreadId)
    requires Inv(d, s) && s.feeding.None? && s.mutex.None? && !PcOf(s, t).Feeding?
    ensures Inv(d, FlushSelf(s, t))
  {
    var u := FlushSelf(s, t);
    BecomesFeeder(d, s, t, PcOf(u, t).f, u);
    PastAt(s, t, Idle);
    PastAt(s, t, PcOf(u, t));
    assert Past(u) == Past(At(s, t, PcOf(u, t)));
  }

  lemma FlushWakeKeeps(d: Discipline, s: State, t: ThreadId)
    requires Inv(d, s) && Enabled(d, s, FlushWake(t))
    ensures Inv(d, Apply(d, s, FlushWake(t)))
  {
    if !s.stopRequested && s.flushRequested {
      MoveKeeps(d, s, t, PcOf(s, t));
    } else if s.feeding.Some? {
      MoveKeeps(d, s, t, Idle);
    } else {
      FlushSelfKeeps(d, s, t);
    }
  }

  // A thread raises a flag, and with it takes hold of the mutex.
  lemma RaiseKeeps(d: Discipline, s: State, t: ThreadId, pc: Pc, u: State)
    requires Inv(d, s) && s.mutex.None? && PcOf(s, t).Idle? && Raising(pc)
    requires u == At(s, t, pc).(mutex := Some(t), flushRequested := u.flushRequested,
                                stopRequested := u.stopRequested, noticed := u.noticed)
    requires u.noticed <= s.noticed && (pc.FlushRaised? ==> t !in u.noticed)
    requires (s.flushRequested ==> u.flushRequested) && (s.stopRequested ==> u.stopRequested)
    requires pc.FlushRaised? ==> u.flushRequested && s.feeding.Some? && pc.mark == |s.accepted|
    requires pc.StopRaised? ==> u.stopRequested
    ensures Inv(d, u)
  {
    MoveFrame(s, t, pc, u);
  }

  // It interrupts the queue, and waits or goes on without the mutex.
  lemma InterruptKeeps(d: Discipline, s: State, t: ThreadId, pc: Pc, u: State)
    requires Inv(d, s) && Raising(PcOf(s, t)) && !Raising(pc) && !pc.Feeding? && !pc.Enqueueing?
    requires u == At(s, t, pc).(mutex := None, interruption := true)
    requires Requesting(pc) ==> PcOf(s, t) == FlushRaised(pc.mark)
    ensures Inv(d, u)
  {
    MoveFrame(s, t, pc, u);
  }

  lemma StartFlushKeeps(d: Discipline, s: State, t: ThreadId)
    requires Inv(d, s) && Enabled(d, s, StartFlush(t))
    ensures Inv(d, Apply(d, s, StartFlush(t)))
  {
    if s.feeding.Some? {
      RaiseKeeps(d, s, t, FlushRaised(|s.accepted|), Apply(d, s, StartFlush(t)));
    } else {
      FlushSelfKeeps(d, s, t);
    }
  }

  lemma FlushInterruptKeeps(d: Discipline, s: State, t: ThreadId)
    requires Inv(d, s) && PcOf(s, t).FlushRaised?
    ensures Inv(d, Apply(d, s, FlushInterrupt(t)))
  {
    var mark := PcOf(s, t).mark;
    var pc := if !s.stopRequested then FlushWait(mark) else Idle;
    InterruptKeeps(d, s, t, pc, Apply(d, s, FlushInterrupt(t)));
  }

  lemma StartStopKeeps(d: Discipline, s: State, t: ThreadId)
    requires Inv(d, s) && Enabled(d, s, StartStop(t))
    ensures Inv(d, Apply(d, s, StartStop(t)))
  {
    if s.feeding.Some? || s.dedicated.Some? {
      RaiseKeeps(d, s, t, StopRaised, Apply(d, s, StartStop(t)));
    } else {
      MoveKeeps(d, s, t, Idle);
    }
  }

  lemma JoinKeeps(d: Discipline, s: State, t: ThreadId)
    requires Inv(d, s) && PcOf(s, t).Joining?
    ensures Inv(d, At(s, t, Idle).(dedicated := None))
  {
    MoveKeeps(d, s, t, Idle);
    var u := At(s, t, Idle);
    var v := u.(dedicated := None);
    assert forall x: ThreadId :: PcOf(u, x) == PcOf(v, x);
    assert FeederOf(u) == FeederOf(v) && Past(u) == Past(v);
  }

  // ----- Steps of the feeder -----

  ghost predicate IsFeeder(d: Discipline, s: State, t: ThreadId, f: Feeder, k: nat, take: bool) {
    QueueOk(s) && SingleInv(s) && PcOf(s, t) == Feeding(f) && FeederEnabled(d, s, f, k, take)
  }

  lemma FeederFrame(d: Discipline, s: State, t: ThreadId, f: Feeder, k: nat, take: bool)
    requires IsFeeder(d, s, t, f, k, take) && !f.place.Leave?
    ensures var u := AfterFeeder(s, t, f, k, take);
      && SingleInv(u) && FeederOf(s) == Some(f) && PcOf(u, t).Feeding? && FeederOf(u) == Some(PcOf(u, t).f)
      && Past(u) == Past(s) && u.accepted == s.accepted
      && forall x: ThreadId :: x != t ==> PcOf(u, x) == PcOf(s, x)
  {
    var u := AfterFeeder(s, t, f, k, take);
    assert forall x: ThreadId :: x != t ==> PcOf(u, x) == PcOf(s, x);
    assert u.pcs == s.pcs[t := PcOf(u, t)];
    PastAt(s, t, PcOf(u, t));
    assert Past(u) == Past(At(s, t, PcOf(u, t)));
  }

  lemma FeederMutex(d: Discipline, s: State, t: ThreadId, f: Feeder, k: nat, take: bool)
    requires IsFeeder(d, s, t, f, k, take) && !f.place.Leave? && MutexInv(s)
    ensures MutexInv(AfterFeeder(s, t, f, k, take))
  {
    FeederFrame(d, s, t, f, k, take);
  }

  lemma FeederFlags(d: Discipline, s: State, t: ThreadId, f: Feeder, k: nat, take: bool)
    requires IsFeeder(d, s, t, f, k, take) && !f.place.Leave? && FlagInv(s) && MarksInv(s)
    ensures var u := AfterFeeder(s, t, f, k, take); FlagInv(u) && MarksInv(u)
  {
    FeederFrame(d, s, t, f, k, take);
    var u := AfterFeeder(s, t, f, k, take);
    assert MarksInv(u);
  }

  lemma FeederConserves(d: Discipline, s: State, t: ThreadId, f: Feeder, k: nat, take: bool)
    requires IsFeeder(d, s, t, f, k, take) && !f.place.Leave? && ConserveInv(d, s)
    ensures ConserveInv(d, AfterFeeder(s, t, f, k, take))
  {
    FeederFrame(d, s, t, f, k, take);
    FeederHands(s, t, f, k, take);
    var n := |s.accepted|;
    if Takes(f, take) {
      TakeConserved(d, s.offered, s.queue, k, n);
    } else if f.place.Feed? || f.place.FeedBlocking? {
      OfferConserved(d, s.offered, f.place.serial, s.queue, n);
    }
  }

  // How a step moves records between the queue, the hand and the backend.
  lemma FeederHands(s: State, t: ThreadId, f: Feeder, k: nat, take: bool)
    requires !f.place.Leave? && (Takes(f, take) ==> k < |s.queue|)
    ensures var u := AfterFeeder(s, t, f, k, take);
      var before, after := HandOf(Some(f)), HandOf(Some(NextFeeder(s, f, k, take)));
      if Takes(f, take) then
        before == [] && after == [s.queue[k]] && u.queue == Without(s.queue, k) && u.offered == s.offered
      else if f.place.Feed? || f.place.FeedBlocking? then
        before == [f.place.serial] && after == [] && u.queue == s.queue && u.offered == s.offered + before
      else
        before == after == [] && u.queue == s.queue && u.offered == s.offered
  {
  }

  lemma TakeConserved(d: Discipline, offered: seq<Serial>, queue: seq<Serial>, k: nat, n: nat)
    requires Conserved(d, offered, [], queue, n) && k < |queue| && (d.Fifo? ==> k == 0)
    ensures Conserved(d, offered, [queue[k]], Without(queue, k), n)
  {
    assert queue[k] in multiset(queue);
    assert multiset(queue) == multiset([queue[k]]) + multiset(Without(queue, k));
    if d.Fifo? {
      TakeFirst(offered, queue);
    }
  }

  lemma TakeFirst(offered: seq<Serial>, queue: seq<Serial>)
    requires queue != []
    ensures offered + [] + queue == offered + [queue[0]] + Without(queue, 0)
  {
    assert offered + [] == offered;
  }

  lemma OfferConserved(d: Discipline, offered: seq<Serial>, serial: Serial, queue: seq<Serial>, n: nat)
    requires Conserved(d, offered, [serial], queue, n)
    ensures Conserved(d, offered + [serial], [], queue, n)
  {
    assert (offered + [serial]) + [] == offered + [serial];
  }

  lemma FeederDrains(d: Discipline, s: State, t: ThreadId, f: Feeder, k: nat, take: bool)
    requires IsFeeder(d, s, t, f, k, take) && !f.place.Leave?
    requires ConserveInv(d, s) && FlagInv(s) && MarksInv(s) && DrainInv(s)
    ensures DrainInv(AfterFeeder(s, t, f, k, take))
  {
    if f.place.Dequeue? && !take {
      FailedDequeueDrains(d, s, t, f, k);
    } else if LoopEnded(NextFeeder(s, f, k, take)) {
      EndedStaysDrained(d, s, t, f, k, take);
    } else {
      FeederFrame(d, s, t, f, k, take);
    }
  }

  lemma EndedStaysDrained(d: Discipline, s: State, t: ThreadId, f: Feeder, k: nat, take: bool)
    requires IsFeeder(d, s, t, f, k, take) && !f.place.Leave? && DrainInv(s)
    requires LoopEnded(NextFeeder(s, f, k, take)) && (f.place.Dequeue? ==> take)
    ensures DrainInv(AfterFeeder(s, t, f, k, take))
  {
    FeederFrame(d, s, t, f, k, take);
    var u := AfterFeeder(s, t, f, k, take);
    assert LoopEnded(f) && u.offered == s.offered && u.noticed == s.noticed;
  }

  // The dequeue that ends the loop: it failed with the queue empty unless records were waiting
  // for their window and the flag was down.
  lemma FailedDequeueDrains(d: Discipline, s: State, t: ThreadId, f: Feeder, k: nat)
    requires IsFeeder(d, s, t, f, k, false) && f.place.Dequeue?
    requires ConserveInv(d, s) && FlagInv(s) && MarksInv(s) && DrainInv(s)
    ensures DrainInv(AfterFeeder(s, t, f, k, false))
  {
    FeederFrame(d, s, t, f, k, false);
    if s.queue == [] {
      EmptyQueueAllOffered(d, s);
    }
  }

  lemma FeederBudget(d: Discipline, s: State, t: ThreadId, f: Feeder, k: nat, take: bool)
    requires IsFeeder(d, s, t, f, k, take) && !f.place.Leave? && FlagInv(s) && BudgetInv(s)
    ensures BudgetInv(AfterFeeder(s, t, f, k, take))
  {
    FeederFrame(d, s, t, f, k, take);
  }

  lemma LeaveKeeps(d: Discipline, s: State, t: ThreadId, f: Feeder)
    requires Inv(d, s) && PcOf(s, t) == Feeding(f) && f.place.Leave? && s.mutex.None?
    ensures Inv(d, AfterFeeder(s, t, f, 0, false))
  {
    var u := AfterFeeder(s, t, f, 0, false);
    assert forall x: ThreadId :: x != t ==> PcOf(u, x) == PcOf(s, x);
    assert FeederOf(u) == None && Hand(s) == [];
  }

  lemma FeederKeeps(d: Discipline, s: State, t: ThreadId, f: Feeder, k: nat, take: bool)
    requires Inv(d, s) && PcOf(s, t) == Feeding(f) && FeederEnabled(d, s, f, k, take)
    ensures Inv(d, AfterFeeder(s, t, f, k, take))
  {
    if f.place.Leave? {
      LeaveKeeps(d, s, t, f);
    } else {
      QueueOkFeeder(s, t, f, k, take);
      FeederFrame(d, s, t, f, k, take);
      FeederMutex(d, s, t, f, k, take);
      FeederFlags(d, s, t, f, k, take);
      FeederConserves(d, s, t, f, k, take);
      FeederDrains(d, s, t, f, k, take);
      FeederBudget(d, s, t, f, k, take);
    }
  }

  lemma StepKeeps(d: Discipline, s: State, step: Step)
    requires Inv(d, s) && Enabled(d, s, step)
    ensures Inv(d, Apply(d, s, step))
  {
    match step
    case StartConsume(t, rec) =>
      MoveKeeps(d, s, t, if s.flushRequested then ConsumeGate(rec) else Enqueueing(rec));
    case PassGate(t) =>
      if !s.flushRequested {
        MoveKeeps(d, s, t, Enqueueing(PcOf(s, t).rec));
      }
    case StartTryConsume(t, rec) =>
      if !s.flushRequested {
        MoveKeeps(d, s, t, Enqueueing(rec));
      }
    case Accept(t) => AcceptKeeps(d, s, t);
    case Reject(t) => MoveKeeps(d, s, t, Idle);
    case StartRun(t) => MoveKeeps(d, s, t, RunEntry);
    case StartFeedRecords(t) => MoveKeeps(d, s, t, FeedEntry);
    case Enter(t) => EnterKeeps(d, s, t);
    case FeederStep(t, k, take) => FeederKeeps(d, s, t, PcOf(s, t).f, k, take);
    case StartFlush(t) => StartFlushKeeps(d, s, t);
    case FlushInterrupt(t) => FlushInterruptKeeps(d, s, t);
    case FlushWake(t) => FlushWakeKeeps(d, s, t);
    case StartStop(t) => StartStopKeeps(d, s, t);
    case StopInterrupt(t) => InterruptKeeps(d, s, t, StopWait, Apply(d, s, step));
    case StopWake(t) =>
      if !s.stopRequested {
        MoveKeeps(d, s, t, Joining);
      }
    case Join(t) => JoinKeeps(d, s, t);
  }

  lemma {:induction false} RunKeeps(d: Discipline, s: State, steps: seq<Step>)
    requires Inv(d, s) && CanRun(d, s, steps)
    ensures Inv(d, Run(d, s, steps))
    decreases |steps|
  {
    if steps == [] {
    } else {
      StepKeeps(d, s, steps[0]);
      RunKeeps(d, Apply(d, s, steps[0]), steps[1..]);
    }
  }
}
