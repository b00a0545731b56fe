/**
 The asynchronous frontend over one of the mutex-protected queueing strategies: both step systems side by
 side, with every queue operation of the frontend carried out by the critical sections of the strategy.
 */
module Pipeline {
  import opened Records
  import opened QueueInterface
  import Q = QueueProtocol
  import QI = QueueInvariants
  import QT = QueueTheorems
  import F = AsyncFrontend
  import SectionEnds
  import FI = FrontendInvariants
  import FT = FrontendTheorems

  type ThreadId = F.ThreadId

  // `calls` names the call of `enqueue` or `try_enqueue` of every producer past the flag check.
  datatype Sink = Sink(front: F.State, back: Q.State, calls: map<ThreadId, Q.CallId>)

  function Init(dedicated: Option<ThreadId>): Sink {
    Sink(F.Init(dedicated), Q.Init(), map[])
  }

  // A step of the frontend that leaves the queue alone, naming the call it may begin; a critical section
  // within an operation that goes on; and a section together with the step of the frontend it ends.
  datatype Step =
    | Alone(step: F.Step, id: Q.CallId)
    | Within(section: Q.Step)
    | Both(step: F.Step, section: Q.Step)

  predicate Dequeueing(s: F.State, step: F.Step) {
    step.FeederStep? && F.PcOf(s, step.t).Feeding? &&
    (F.PcOf(s, step.t).f.place.Dequeue? || F.PcOf(s, step.t).f.place.BlockingDequeue?)
  }

  predicate UsesQueue(s: F.State, step: F.Step) {
    step.Accept? || step.Reject? || step.FlushInterrupt? || step.StopInterrupt? || Dequeueing(s, step)
  }

  predicate EnqueueOf(section: Q.Step, id: Q.CallId, rec: Record) {
    (section.EnqueueSection? && section.id == id) || (section.TryEnqueue? && section.id == id && section.rec == rec)
  }

  // The producer's call, which has ended in `q`.
  predicate CallEnds(s: Sink, t: ThreadId, section: Q.Step, q: Q.State, accepted: bool) {
    && t in s.calls && F.PcOf(s.front, t).Enqueueing? && EnqueueOf(section, s.calls[t], F.PcOf(s.front, t).rec)
    && s.calls[t] in q.calls
    && if accepted then q.calls[s.calls[t]].Accepted? else q.calls[s.calls[t]].Dropped? || q.calls[s.calls[t]].Refused?
  }

  // What the feeder calls: a flush it has seen makes it take whatever is queued.
  predicate Dequeues(f: F.Feeder, section: Q.Step, q: Q.State) {
    match f.place
    case Dequeue => if f.sawFlush then section.TryDequeue? else section.TryDequeueReady?
    case BlockingDequeue => section.DequeueReadySection? && q.consumer.Away?
    case _ => false
  }

  predicate Took(before: Q.State, after: Q.State) {
    |after.taken| > |before.taken|
  }

  // The section, which leads to `q`, carries out what the step wants of the queue.
  predicate Serves(s: Sink, step: F.Step, section: Q.Step, q: Q.State) {
    match step
    case Accept(t) => CallEnds(s, t, section, q, true)
    case Reject(t) => CallEnds(s, t, section, q, false)
    case FlushInterrupt(t) => F.PcOf(s.front, t).FlushRaised? && section.InterruptDequeue?
    case StopInterrupt(t) => F.PcOf(s.front, t).StopRaised? && section.InterruptDequeue?
    case FeederStep(t, k, take) =>
      && F.PcOf(s.front, t).Feeding? && Dequeues(F.PcOf(s.front, t).f, section, q)
      && (take <==> Took(s.back, q)) && (take ==> k == s.back.sh.front)
    case _ => false
  }

  // A section of a call that goes on: it begins, is linked, wakes up for nothing, or goes to sleep.
  ghost predicate GoesOn(s: Sink, section: Q.Step, q: Q.State) {
    match section
    case StartCall(id, rec) => exists t :: t in s.calls && s.calls[t] == id && F.PcOf(s.front, t) == F.Enqueueing(rec)
    case EnqueueSection(id, _, _) => id in s.calls.Values && id in q.calls && q.calls[id].Waiting?
    case SpuriousWake(_) => true
    case DequeueReadySection(_, _) =>
      q.consumer.Asleep? && FI.FeederOf(s.front).Some? && FI.FeederOf(s.front).value.place.BlockingDequeue?
    case _ => false
  }

  ghost predicate Enabled(cfg: Q.Config, s: Sink, step: Step)
    requires F.QueueOk(s.front) && Q.ListInv(s.back)
  {
    match step
    case Alone(f, id) =>
      && !UsesQueue(s.front, f) && F.Enabled(DisciplineOf(cfg), s.front, f)
      && id !in s.back.calls && id !in s.calls.Values
    case Within(section) =>
      Q.Enabled(cfg, s.back, section) && GoesOn(s, section, Q.Apply(cfg, s.back, section))
    case Both(f, section) =>
      Q.Enabled(cfg, s.back, section) && Serves(s, f, section, Q.Apply(cfg, s.back, section))
  }

  // ----- How the two states belong together -----

  // `entries` are those of `all` with the given numbers.
  ghost predicate EntriesAt(all: seq<Q.Entry>, serials: seq<F.Serial>, entries: seq<Q.Entry>) {
    && |serials| == |entries|
    && forall i :: 0 <= i < |serials| ==> serials[i] < |all| && entries[i] == all[serials[i]]
  }

  ghost predicate SameRecords(s: Sink) {
    && |s.back.accepted| == |s.front.accepted|
    && (forall i :: 0 <= i < |s.front.accepted| ==> s.back.accepted[i].rec == s.front.accepted[i])
    && EntriesAt(s.back.accepted, s.front.queue, s.back.sh.items)
    && EntriesAt(s.back.accepted, s.front.offered + FI.Hand(s.front), QI.Entries(s.back.taken))
    && s.back.sh.interruption == s.front.interruption
  }

  predicate Open(c: Q.Call) {
    c.Started? || c.Waiting? || c.Released?
  }

  ghost predicate SameCalls(s: Sink) {
    && s.calls.Keys == F.Past(s.front)
    && (forall t, u :: t in s.calls && u in s.calls && s.calls[t] == s.calls[u] ==> t == u)
    && (forall t :: t in s.calls && s.calls[t] in s.back.calls ==>
          Open(s.back.calls[s.calls[t]]) && s.back.calls[s.calls[t]].rec == F.PcOf(s.front, t).rec)
  }

  // The consumer sleeps only in the blocking dequeue of the feeder.
  ghost predicate SameConsumer(s: Sink) {
    s.back.consumer.Asleep? ==>
      FI.FeederOf(s.front).Some? && FI.FeederOf(s.front).value.place.BlockingDequeue?
  }

  ghost predicate Inv(cfg: Q.Config, s: Sink) {
    && FI.Inv(DisciplineOf(cfg), s.front) && QI.Inv(cfg, s.back)
    && SameRecords(s) && SameCalls(s) && SameConsumer(s)
  }

  lemma InitInv(cfg: Q.Config, dedicated: Option<ThreadId>)
    ensures Inv(cfg, Init(dedicated))
  {
    FI.InitInv(DisciplineOf(cfg), dedicated);
    QI.InitInv(cfg);
  }

  // ----- The strategy does what the frontend relies on -----

  lemma SameRecs(s: Sink)
    requires SameRecords(s) && F.QueueOk(s.front)
    ensures F.RecsOf(s.front, s.front.queue) == Q.Recs(s.back.sh.items)
  {
    assert forall i :: 0 <= i < |s.front.queue| ==> s.front.queue[i] in s.front.queue;
  }

  // A dequeue that gets a record gets one the frontend may remove, and one that fails may fail.
  lemma DequeueServes(cfg: Q.Config, q: Q.State, f: F.Feeder, section: Q.Step)
    requires Q.ListInv(q) && QI.CapacityInv(cfg, q) && Q.Enabled(cfg, q, section)
    requires Dequeues(f, section, Q.Apply(cfg, q, section))
    ensures var d, recs := DisciplineOf(cfg), Q.Recs(q.sh.items);
      if Took(q, Q.Apply(cfg, q, section)) then MayRemove(d, recs, q.sh.front)
      else
        MayFail(d, if f.place.BlockingDequeue? then Blocking else if f.sawFlush then Plain else ReadyOnly,
                recs, q.sh.interruption)
  {
    var a := MutexQueueActs(cfg, q, section);
    if a.Remove? {
      TookSomething(cfg, q, section);
      FrontMayBeRemoved(cfg, q);
    } else {
      DequeueReturns(cfg, q, f, section);
    }
  }

  lemma TookSomething(cfg: Q.Config, q: Q.State, section: Q.Step)
    requires Q.ListInv(q) && Q.Enabled(cfg, q, section) && Took(q, Q.Apply(cfg, q, section))
    ensures q.sh.items != []
  {
  }

  lemma DequeueReturns(cfg: Q.Config, q: Q.State, f: F.Feeder, section: Q.Step)
    requires Q.ListInv(q) && Q.Enabled(cfg, q, section) && Dequeues(f, section, Q.Apply(cfg, q, section))
    ensures Q.Apply(cfg, q, section).consumer.Away?
    ensures DequeueOf(section) ==
            Some(if f.place.BlockingDequeue? then Blocking else if f.sawFlush then Plain else ReadyOnly)
  {
  }

  lemma ServedFeeder(cfg: Q.Config, s: Sink, step: F.Step, section: Q.Step)
    requires Q.ValidConfig(cfg) && Inv(cfg, s) && Enabled(cfg, s, Both(step, section)) && step.FeederStep?
    ensures F.Enabled(DisciplineOf(cfg), s.front, step)
    ensures F.Takes(F.PcOf(s.front, step.t).f, step.take) == step.take
  {
    SameRecs(s);
    DequeueServes(cfg, s.back, F.PcOf(s.front, step.t).f, section);
  }

  lemma FrontMayBeRemoved(cfg: Q.Config, q: Q.State)
    requires QI.CapacityInv(cfg, q) && q.sh.items != []
    ensures MayRemove(DisciplineOf(cfg), Q.Recs(q.sh.items), q.sh.front)
  {
  }

  lemma Served(cfg: Q.Config, s: Sink, step: F.Step, section: Q.Step)
    requires Q.ValidConfig(cfg) && Inv(cfg, s) && Enabled(cfg, s, Both(step, section))
    ensures F.Enabled(DisciplineOf(cfg), s.front, step)
  {
    if step.FeederStep? {
      ServedFeeder(cfg, s, step, section);
    }
  }

  ghost function Apply(cfg: Q.Config, s: Sink, step: Step): Sink
    requires Q.ValidConfig(cfg) && Inv(cfg, s) && Enabled(cfg, s, step)
  {
    var d := DisciplineOf(cfg);
    match step
    case Alone(f, id) =>
      var front := F.Apply(d, s.front, f);
      Sink(front, s.back, if f.t !in s.calls && F.PcOf(front, f.t).Enqueueing? then s.calls[f.t := id] else s.calls)
    case Within(section) => s.(back := Q.Apply(cfg, s.back, section))
    case Both(f, section) =>
      Served(cfg, s, f, section);
      Sink(F.Apply(d, s.front, f), Q.Apply(cfg, s.back, section),
           if f.Accept? || f.Reject? then s.calls - {f.t} else s.calls)
  }

  // ----- Steps of the frontend alone -----

  // Nothing moves between queue and backend but the record in the feeder's hand.
  lemma AloneLeavesRecords(d: Discipline, s: F.State, step: F.Step)
    requires FI.Inv(d, s) && F.Enabled(d, s, step) && !UsesQueue(s, step)
    ensures var u := F.Apply(d, s, step);
      && u.accepted == s.accepted && u.queue == s.queue && u.interruption == s.interruption
      && u.offered + FI.Hand(u) == s.offered + FI.Hand(s)
  {
    if step.FeederStep? {
      FeederLeavesRecords(d, s, step.t, F.PcOf(s, step.t).f, step.k, step.take);
    } else {
      FT.OthersLeaveFeeder(d, s, step);
      OthersLeaveQueue(d, s, step);
    }
  }

  lemma FeederLeavesRecords(d: Discipline, s: F.State, t: ThreadId, f: F.Feeder, k: nat, take: bool)
    requires FI.IsFeeder(d, s, t, f, k, take) && !f.place.Dequeue? && !f.place.BlockingDequeue?
    ensures var u := F.AfterFeeder(s, t, f, k, take);
      && u.accepted == s.accepted && u.queue == s.queue && u.interruption == s.interruption
      && u.offered + FI.Hand(u) == s.offered + FI.Hand(s)
  {
    assert FI.FeederOf(s) == Some(f);
    if !f.place.Leave? {
      FI.FeederFrame(d, s, t, f, k, take);
      FI.FeederHands(s, t, f, k, take);
    }
  }

  lemma OthersLeaveQueue(d: Discipline, s: F.State, step: F.Step)
    requires F.QueueOk(s) && F.Enabled(d, s, step) && !UsesQueue(s, step) && !step.FeederStep?
    ensures var u := F.Apply(d, s, step);
      u.accepted == s.accepted && u.queue == s.queue && u.interruption == s.interruption && u.offered == s.offered
  {
    match step
    case StartFlush(t) =>
    case FlushInterrupt(t) =>
    case FlushWake(t) =>
    case Enter(t) =>
    case StartStop(t) =>
    case _ =>
  }

  // Nobody ends a call of the queue, and the thread that moves may begin one.
  lemma AloneLeavesPast(d: Discipline, s: F.State, step: F.Step)
    requires F.QueueOk(s) && F.Enabled(d, s, step) && !UsesQueue(s, step)
    ensures var u := F.Apply(d, s, step);
      && F.Past(u) == (if F.PcOf(u, step.t).Enqueueing? then F.Past(s) + {step.t} else F.Past(s))
      && step.t !in F.Past(s)
      && forall t :: t in F.Past(s) ==> F.PcOf(u, t) == F.PcOf(s, t)
  {
    var u := F.Apply(d, s, step);
    forall t: ThreadId ensures t in F.Past(s) <==> F.PcOf(s, t).Enqueueing? {
    }
    forall t: ThreadId | t != step.t ensures F.PcOf(u, t) == F.PcOf(s, t) {
      FI.BesideStep(d, s, step, t);
    }
  }

  // A feeder that sleeps in its blocking dequeue stays there.
  lemma AloneLeavesSleeper(d: Discipline, s: F.State, step: F.Step)
    requires FI.Inv(d, s) && F.Enabled(d, s, step) && !UsesQueue(s, step)
    requires FI.FeederOf(s).Some? && FI.FeederOf(s).value.place.BlockingDequeue?
    ensures FI.FeederOf(F.Apply(d, s, step)) == FI.FeederOf(s)
  {
    if !step.FeederStep? {
      FT.OthersLeaveFeeder(d, s, step);
    }
  }

  lemma SameRecordsAfter(s: Sink, u: Sink)
    requires SameRecords(s) && u.front.accepted == s.front.accepted && u.back.accepted == s.back.accepted
    requires u.front.queue == s.front.queue && u.back.sh.items == s.back.sh.items && u.back.taken == s.back.taken
    requires u.front.offered + FI.Hand(u.front) == s.front.offered + FI.Hand(s.front)
    requires u.front.interruption == s.front.interruption && u.back.sh.interruption == s.back.sh.interruption
    ensures SameRecords(u)
  {
  }

  lemma CallsAfterAlone(s: Sink, t: ThreadId, id: Q.CallId, u: Sink)
    requires SameCalls(s) && u.back == s.back && id !in s.back.calls && id !in s.calls.Values && t !in F.Past(s.front)
    requires F.Past(u.front) == if F.PcOf(u.front, t).Enqueueing? then F.Past(s.front) + {t} else F.Past(s.front)
    requires forall x :: x in F.Past(s.front) ==> F.PcOf(u.front, x) == F.PcOf(s.front, x)
    requires u.calls == if F.PcOf(u.front, t).Enqueueing? then s.calls[t := id] else s.calls
    ensures SameCalls(u)
  {
    assert u.calls.Keys == F.Past(u.front);
    forall x | x in u.calls && u.calls[x] in u.back.calls ensures x in s.calls {
      assert x == t ==> u.calls[x] == id || x in s.calls;
    }
  }

  lemma AloneKeeps(cfg: Q.Config, s: Sink, step: F.Step, id: Q.CallId)
    requires Q.ValidConfig(cfg) && Inv(cfg, s) && Enabled(cfg, s, Alone(step, id))
    ensures Inv(cfg, Apply(cfg, s, Alone(step, id)))
  {
    var d, u := DisciplineOf(cfg), Apply(cfg, s, Alone(step, id));
    FI.StepKeeps(d, s.front, step);
    AloneLeavesRecords(d, s.front, step);
    SameRecordsAfter(s, u);
    AloneLeavesPast(d, s.front, step);
    CallsAfterAlone(s, step.t, id, u);
    if s.back.consumer.Asleep? {
      AloneLeavesSleeper(d, s.front, step);
    }
  }

  // ----- Sections within an operation -----

  // Nothing comes or goes, and calls that go on stay open.
  lemma WithinEffect(cfg: Q.Config, s: Sink, section: Q.Step)
    requires Q.ListInv(s.back) && Q.Enabled(cfg, s.back, section) && GoesOn(s, section, Q.Apply(cfg, s.back, section))
    ensures var q := Q.Apply(cfg, s.back, section);
      && q.accepted == s.back.accepted && q.taken == s.back.taken
      && q.sh.items == s.back.sh.items && q.sh.interruption == s.back.sh.interruption
      && (q.consumer.Asleep? ==> s.back.consumer.Asleep? || section.DequeueReadySection?)
  {
  }

  lemma WithinCalls(cfg: Q.Config, s: Sink, section: Q.Step)
    requires Q.ListInv(s.back) && Q.Enabled(cfg, s.back, section) && GoesOn(s, section, Q.Apply(cfg, s.back, section))
    requires SameCalls(s)
    ensures SameCalls(s.(back := Q.Apply(cfg, s.back, section)))
  {
    var q := Q.Apply(cfg, s.back, section);
    forall t | t in s.calls && s.calls[t] in q.calls
      ensures Open(q.calls[s.calls[t]]) && q.calls[s.calls[t]].rec == F.PcOf(s.front, t).rec
    {
      if section.StartCall? && section.id == s.calls[t] {
        var x :| x in s.calls && s.calls[x] == section.id && F.PcOf(s.front, x) == F.Enqueueing(section.rec);
        assert x == t;
      }
    }
  }

  lemma WithinKeeps(cfg: Q.Config, s: Sink, section: Q.Step)
    requires Q.ValidConfig(cfg) && Inv(cfg, s) && Enabled(cfg, s, Within(section))
    ensures Inv(cfg, Apply(cfg, s, Within(section)))
  {
    QI.StepKeeps(cfg, s.back, section);
    WithinEffect(cfg, s, section);
    WithinCalls(cfg, s, section);
    SameRecordsAfter(s, Apply(cfg, s, Within(section)));
  }

  // ----- Sections that end an operation -----

  lemma PushedRecords(all: seq<Q.Entry>, serials: seq<F.Serial>, entries: seq<Q.Entry>, e: Q.Entry)
    requires EntriesAt(all, serials, entries)
    ensures EntriesAt(all + [e], serials, entries)
    ensures EntriesAt(all + [e], serials + [|all|], entries + [e])
  {
  }

  lemma PoppedRecords(all: seq<Q.Entry>, serials: seq<F.Serial>, entries: seq<Q.Entry>, k: nat)
    requires EntriesAt(all, serials, entries) && k < |entries|
    ensures EntriesAt(all, Without(serials, k), Without(entries, k))
  {
  }

  // A producer's call that ends leaves the others alone.
  ghost predicate OtherCallsStay(s: Sink, t: ThreadId, q: Q.State) {
    forall x :: x in s.calls && x != t ==>
      && (s.calls[x] in q.calls <==> s.calls[x] in s.back.calls)
      && (s.calls[x] in q.calls ==> q.calls[s.calls[x]] == s.back.calls[s.calls[x]])
  }

  lemma CallEffect(cfg: Q.Config, s: Sink, t: ThreadId, section: Q.Step, accepted: bool)
    requires Q.ListInv(s.back) && Q.Enabled(cfg, s.back, section) && SameCalls(s)
    requires CallEnds(s, t, section, Q.Apply(cfg, s.back, section), accepted)
    ensures var q, id, rec := Q.Apply(cfg, s.back, section), s.calls[t], F.PcOf(s.front, t).rec;
      && q.taken == s.back.taken && q.sh.interruption == s.back.sh.interruption
      && (q.consumer.Asleep? ==> s.back.consumer.Asleep?) && OtherCallsStay(s, t, q)
      && if accepted then
           && q.accepted == s.back.accepted + [Q.Entry(id, section.now, rec)]
           && q.sh.items == s.back.sh.items + [Q.Entry(id, section.now, rec)]
         else q.accepted == s.back.accepted && q.sh.items == s.back.sh.items
  {
    if section.EnqueueSection? {
      SectionEnds.EnqueueEnds(cfg, s.back, section.id, section.now, section.becomesFront);
    } else {
      SectionEnds.TryEnqueueEnds(cfg, s.back, section.id, section.rec, section.now, section.becomesFront,
                                 section.locked);
    }
  }

  lemma CallsAfterEnd(s: Sink, t: ThreadId, u: Sink)
    requires SameCalls(s) && t in s.calls && OtherCallsStay(s, t, u.back) && u.calls == s.calls - {t}
    requires F.Past(u.front) == F.Past(s.front) - {t}
    requires forall x: ThreadId :: x != t ==> F.PcOf(u.front, x) == F.PcOf(s.front, x)
    ensures SameCalls(u)
  {
    assert u.calls.Keys == s.calls.Keys - {t};
  }

  lemma ProducerLeaves(d: Discipline, s: F.State, step: F.Step)
    requires FI.Inv(d, s) && F.Enabled(d, s, step) && (step.Accept? || step.Reject?)
    ensures var u := F.Apply(d, s, step);
      && F.Past(u) == F.Past(s) - {step.t} && FI.FeederOf(u) == FI.FeederOf(s)
      && (forall x: ThreadId :: x != step.t ==> F.PcOf(u, x) == F.PcOf(s, x))
      && u.offered == s.offered && u.interruption == s.interruption
  {
    var u := F.Apply(d, s, step);
    FI.PastAt(s, step.t, F.Idle);
    assert F.Past(u) == F.Past(F.At(s, step.t, F.Idle));
    FI.MoveFrame(s, step.t, F.Idle, u);
  }

  lemma AcceptKeeps(cfg: Q.Config, s: Sink, t: ThreadId, section: Q.Step)
    requires Q.ValidConfig(cfg) && Inv(cfg, s) && Enabled(cfg, s, Both(F.Accept(t), section))
    ensures var u := Apply(cfg, s, Both(F.Accept(t), section)); SameRecords(u) && SameCalls(u) && SameConsumer(u)
  {
    var u := Apply(cfg, s, Both(F.Accept(t), section));
    ProducerLeaves(DisciplineOf(cfg), s.front, F.Accept(t));
    CallEffect(cfg, s, t, section, true);
    CallsAfterEnd(s, t, u);
    var e := Q.Entry(s.calls[t], section.now, F.PcOf(s.front, t).rec);
    PushedRecords(s.back.accepted, s.front.queue, s.back.sh.items, e);
    PushedRecords(s.back.accepted, s.front.offered + FI.Hand(s.front), QI.Entries(s.back.taken), e);
  }

  lemma RejectKeeps(cfg: Q.Config, s: Sink, t: ThreadId, section: Q.Step)
    requires Q.ValidConfig(cfg) && Inv(cfg, s) && Enabled(cfg, s, Both(F.Reject(t), section))
    ensures var u := Apply(cfg, s, Both(F.Reject(t), section)); SameRecords(u) && SameCalls(u) && SameConsumer(u)
  {
    var u := Apply(cfg, s, Both(F.Reject(t), section));
    ProducerLeaves(DisciplineOf(cfg), s.front, F.Reject(t));
    CallEffect(cfg, s, t, section, false);
    CallsAfterEnd(s, t, u);
    SameRecordsAfter(s, u);
  }

  // An interruption wakes and unlinks, but ends no call.
  lemma CallsAfterInterrupt(cfg: Q.Config, s: Sink, u: Sink)
    requires Q.ListInv(s.back) && u.back == Q.Apply(cfg, s.back, Q.InterruptDequeue)
    requires SameCalls(s) && u.calls == s.calls
    requires F.Past(u.front) == F.Past(s.front)
    requires forall x :: x in F.Past(s.front) ==> F.PcOf(u.front, x) == F.PcOf(s.front, x)
    ensures SameCalls(u)
  {
    SectionEnds.InterruptEnds(cfg, s.back);
  }

  lemma InterrupterMoves(d: Discipline, s: F.State, step: F.Step)
    requires FI.Inv(d, s) && F.Enabled(d, s, step) && (step.FlushInterrupt? || step.StopInterrupt?)
    ensures var u := F.Apply(d, s, step);
      && F.Past(u) == F.Past(s) && FI.FeederOf(u) == FI.FeederOf(s)
      && (forall x :: x in F.Past(s) ==> F.PcOf(u, x) == F.PcOf(s, x))
      && u.accepted == s.accepted && u.queue == s.queue && u.offered == s.offered && u.interruption
  {
    var u := F.Apply(d, s, step);
    FI.PastAt(s, step.t, F.PcOf(u, step.t));
    assert F.Past(u) == F.Past(F.At(s, step.t, F.PcOf(u, step.t)));
    FI.MoveFrame(s, step.t, F.PcOf(u, step.t), u);
  }

  lemma InterruptKeeps(cfg: Q.Config, s: Sink, step: F.Step, section: Q.Step)
    requires Q.ValidConfig(cfg) && Inv(cfg, s) && Enabled(cfg, s, Both(step, section))
    requires step.FlushInterrupt? || step.StopInterrupt?
    ensures var u := Apply(cfg, s, Both(step, section)); SameRecords(u) && SameCalls(u) && SameConsumer(u)
  {
    var u := Apply(cfg, s, Both(step, section));
    InterrupterMoves(DisciplineOf(cfg), s.front, step);
    CallsAfterInterrupt(cfg, s, u);
    SectionEnds.InterruptEnds(cfg, s.back);
  }

  // What the dequeue of the feeder does to the strategy.
  ghost predicate Dequeued(q: Q.State, r: Q.State) {
    && r.accepted == q.accepted && r.consumer.Away?
    && if Took(q, r) then
         && q.sh.front < |q.sh.items| && r.sh.items == Without(q.sh.items, q.sh.front)
         && QI.Entries(r.taken) == QI.Entries(q.taken) + [q.sh.items[q.sh.front]]
       else r.sh.items == q.sh.items && r.taken == q.taken
  }

  ghost predicate CallsStayOpen(q: Q.State, r: Q.State) {
    && r.calls.Keys == q.calls.Keys
    && (forall id :: id in q.calls && Open(q.calls[id]) ==> Open(r.calls[id]) && r.calls[id].rec == q.calls[id].rec)
  }

  lemma AfterDequeueEffect(cfg: Q.Config, q: Q.State, out: Q.DequeueOutcome, now: nat, next: nat, ready: bool)
    requires Q.ListInv(q) && !out.Sleep? && (out.Got? ==> q.sh.items != [] && out.entry == q.sh.items[q.sh.front])
    ensures var r := Q.AfterDequeue(cfg, q, out, now, next, ready);
      && Dequeued(q, r) && CallsStayOpen(q, r) && (Took(q, r) <==> out.Got?)
      && r.sh.interruption == (q.sh.interruption && !out.Interrupted?)
  {
    var r := Q.AfterDequeue(cfg, q, out, now, next, ready);
    assert out.Got? ==> r.taken == q.taken + [Q.Taken(out.entry, now, ready)];
  }

  lemma DequeueEffect(cfg: Q.Config, q: Q.State, f: F.Feeder, section: Q.Step)
    requires Q.ListInv(q) && Q.Enabled(cfg, q, section) && Dequeues(f, section, Q.Apply(cfg, q, section))
    ensures var r := Q.Apply(cfg, q, section);
      && Dequeued(q, r) && CallsStayOpen(q, r)
      && r.sh.interruption == (q.sh.interruption && !(f.place.BlockingDequeue? && !Took(q, r)))
  {
    match section
    case TryDequeue(now, next) => AfterDequeueEffect(cfg, q, Q.TryDequeueOutcome(q.sh), now, next, false);
    case TryDequeueReady(now, next) =>
      AfterDequeueEffect(cfg, q, Q.TryDequeueReadyOutcome(cfg, q.sh, now), now, next, true);
    case DequeueReadySection(now, next) =>
      AfterDequeueEffect(cfg, q, Q.DequeueReadyOutcome(cfg, q.sh, now), now, next, true);
  }

  lemma CallsAfterDequeue(s: Sink, u: Sink)
    requires SameCalls(s) && u.calls == s.calls && CallsStayOpen(s.back, u.back) && F.Past(u.front) == F.Past(s.front)
    requires forall x :: x in F.Past(s.front) ==> F.PcOf(u.front, x) == F.PcOf(s.front, x)
    ensures SameCalls(u)
  {
  }

  // What it does to the frontend.
  lemma DequeuerMoves(d: Discipline, s: F.State, t: ThreadId, f: F.Feeder, k: nat, take: bool)
    requires FI.IsFeeder(d, s, t, f, k, take) && (f.place.Dequeue? || f.place.BlockingDequeue?)
    ensures var u := F.AfterFeeder(s, t, f, k, take);
      && F.Past(u) == F.Past(s) && (forall x :: x in F.Past(s) ==> F.PcOf(u, x) == F.PcOf(s, x))
      && u.accepted == s.accepted && u.offered == s.offered && FI.Hand(s) == []
      && u.interruption == (s.interruption && !(f.place.BlockingDequeue? && !take))
      && if take then
           k < |s.queue| && u.queue == Without(s.queue, k) && FI.Hand(u) == [s.queue[k]]
         else u.queue == s.queue && FI.Hand(u) == []
  {
    FI.FeederFrame(d, s, t, f, k, take);
    FI.FeederHands(s, t, f, k, take);
  }

  lemma FeederKeeps(cfg: Q.Config, s: Sink, step: F.Step, section: Q.Step)
    requires Q.ValidConfig(cfg) && Inv(cfg, s) && Enabled(cfg, s, Both(step, section)) && step.FeederStep?
    ensures var u := Apply(cfg, s, Both(step, section)); SameRecords(u) && SameCalls(u) && SameConsumer(u)
  {
    var u, f := Apply(cfg, s, Both(step, section)), F.PcOf(s.front, step.t).f;
    Served(cfg, s, step, section);
    DequeuerMoves(DisciplineOf(cfg), s.front, step.t, f, step.k, step.take);
    DequeueEffect(cfg, s.back, f, section);
    FeederRecords(s, u, step.k, step.take);
    CallsAfterDequeue(s, u);
  }

  lemma FeederRecords(s: Sink, u: Sink, k: nat, take: bool)
    requires SameRecords(s) && u.front.accepted == s.front.accepted && u.back.accepted == s.back.accepted
    requires u.front.interruption == u.back.sh.interruption
    requires u.front.offered == s.front.offered && FI.Hand(s.front) == []
    requires if take then
               && k < |s.front.queue|
               && u.front.queue == Without(s.front.queue, k) && FI.Hand(u.front) == [s.front.queue[k]]
               && u.back.sh.items == Without(s.back.sh.items, k)
               && QI.Entries(u.back.taken) == QI.Entries(s.back.taken) + [s.back.sh.items[k]]
             else
               && u.front.queue == s.front.queue && FI.Hand(u.front) == []
               && u.back.sh.items == s.back.sh.items && u.back.taken == s.back.taken
    ensures SameRecords(u)
  {
    var all, gone, entries := s.back.accepted, s.front.offered + FI.Hand(s.front), QI.Entries(s.back.taken);
    if take {
      PoppedRecords(all, s.front.queue, s.back.sh.items, k);
      HandedRecord(all, gone, entries, s.front.queue[k], s.back.sh.items[k]);
      assert u.front.offered + FI.Hand(u.front) == gone + [s.front.queue[k]];
    } else {
      assert u.front.offered + FI.Hand(u.front) == gone;
    }
  }

  lemma HandedRecord(all: seq<Q.Entry>, serials: seq<F.Serial>, entries: seq<Q.Entry>, x: F.Serial, e: Q.Entry)
    requires EntriesAt(all, serials, entries) && x < |all| && e == all[x]
    ensures EntriesAt(all, serials + [x], entries + [e])
  {
  }

  // Both sides keep their invariants, and go on belonging together.
  lemma StepKeeps(cfg: Q.Config, s: Sink, step: Step)
    requires Q.ValidConfig(cfg) && Inv(cfg, s) && Enabled(cfg, s, step)
    ensures Inv(cfg, Apply(cfg, s, step))
  {
    match step
    case Alone(f, id) => AloneKeeps(cfg, s, f, id);
    case Within(section) => WithinKeeps(cfg, s, section);
    case Both(f, section) =>
      Served(cfg, s, f, section);
      FI.StepKeeps(DisciplineOf(cfg), s.front, f);
      QI.StepKeeps(cfg, s.back, section);
      match f
      case Accept(t) => AcceptKeeps(cfg, s, t, section);
      case Reject(t) => RejectKeeps(cfg, s, t, section);
      case FeederStep(_, _, _) => FeederKeeps(cfg, s, f, section);
      case FlushInterrupt(_) => InterruptKeeps(cfg, s, f, section);
      case StopInterrupt(_) => InterruptKeeps(cfg, s, f, section);
  }
}
