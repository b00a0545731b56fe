/**
 `asynchronous_sink` as a step system over any number of threads that log, feed, flush and stop.

 The frontend mutex makes each of its critical sections one step, except that `flush` and `stop`
 raise their flag and interrupt the queue in two, holding the mutex from one to the other: the
 volatile flags are also read outside it. Each such read, each queue operation and each backend
 call is a step of its own. A wait on the condition variable may end at any time. A record offered to the backend
 counts as offered whether the backend returns or its exception is swallowed.
 */
module AsyncFrontend {
  import opened Records
  import opened QueueInterface

  type ThreadId = nat

  // Accepted records are numbered in the order the queue accepted them.
  type Serial = nat

  // Who feeds: `run`, `feed_records`, or a `flush` that found no feeder. The flush remembers how
  // many records were accepted before it, the records it may have to feed, and those it fed.
  datatype Kind = RunLoop | FeedRecords | SelfFlush(mark: nat, budget: nat, fed: nat)

  // What the feeder does next. `Feed` and `FeedBlocking` hold a record in hand.
  datatype Place =
    | TestStop | TestFlush | Dequeue | Feed(serial: Serial)
    | TestFlushEnd | FlushBackend | ClearFlag
    | TestStopEnd | BlockingDequeue | FeedBlocking(serial: Serial)
    | Leave

  // `sawFlush`: the flag as last read before a dequeue. `sawStop`: the loop ended at the stop flag.
  // `floor`: if it ended with the queue empty, the number of records accepted by then.
  datatype Feeder = Feeder(kind: Kind, place: Place, sawFlush: bool, sawStop: bool, floor: nat)

  datatype Pc =
    | Idle
    | ConsumeGate(rec: Record)
    | Enqueueing(rec: Record)
    | RunEntry
    | FeedEntry
    | Feeding(f: Feeder)
    | FlushRaised(mark: nat)
    | FlushWait(mark: nat)
    | StopRaised
    | StopWait
    | Joining

  // Between its raise of a flag and the interruption of the queue.
  predicate Raising(pc: Pc) {
    pc.FlushRaised? || pc.StopRaised?
  }

  // A flush whose request a running feeder is to answer; `mark` records were accepted before its call.
  predicate Requesting(pc: Pc) {
    pc.FlushRaised? || pc.FlushWait?
  }

  // `mutex` names the thread that holds the frontend mutex between two steps. `flushes` lists how many
  // records had been offered at each call of `flush_backend`; `noticed` are the requesting flushes that
  // the feeder's last read of the flag took in.
  datatype State = State(
    pcs: map<ThreadId, Pc>,
    stopRequested: bool, flushRequested: bool, feeding: Option<ThreadId>, dedicated: Option<ThreadId>,
    mutex: Option<ThreadId>,
    queue: seq<Serial>, interruption: bool,
    accepted: seq<Record>, offered: seq<Serial>, flushes: seq<nat>, noticed: set<ThreadId>)

  // A sink with or without its dedicated thread.
  function Init(dedicated: Option<ThreadId>): State {
    State(if dedicated.Some? then map[dedicated.value := RunEntry] else map[],
          false, false, None, dedicated, None, [], false, [], [], [], {})
  }

  function PcOf(s: State, t: ThreadId): Pc {
    if t in s.pcs then s.pcs[t] else Idle
  }

  function At(s: State, t: ThreadId, pc: Pc): State {
    s.(pcs := s.pcs[t := pc])
  }

  datatype Step =
    | StartConsume(t: ThreadId, rec: Record)
    | PassGate(t: ThreadId)
    | StartTryConsume(t: ThreadId, rec: Record)
    | Accept(t: ThreadId)
    | Reject(t: ThreadId)
    | StartRun(t: ThreadId)
    | StartFeedRecords(t: ThreadId)
    | Enter(t: ThreadId)
    | FeederStep(t: ThreadId, k: nat, take: bool)
    | StartFlush(t: ThreadId)
    | FlushInterrupt(t: ThreadId)
    | FlushWake(t: ThreadId)
    | StartStop(t: ThreadId)
    | StopInterrupt(t: ThreadId)
    | StopWake(t: ThreadId)
    | Join(t: ThreadId)

  function RecsOf(s: State, serials: seq<Serial>): (r: seq<Record>)
    requires forall x :: x in serials ==> x < |s.accepted|
    ensures |r| == |serials|
  {
    seq(|serials|, i requires 0 <= i < |serials| => assert serials[i] in serials; s.accepted[serials[i]])
  }

  ghost predicate QueueOk(s: State) {
    forall x :: x in s.queue ==> x < |s.accepted|
  }

  ghost predicate FeederEnabled(d: Discipline, s: State, f: Feeder, k: nat, take: bool)
    requires QueueOk(s)
  {
    match f.place
    case Dequeue =>
      if take then MayRemove(d, RecsOf(s, s.queue), k)
      else MayFail(d, if f.sawFlush then Plain else ReadyOnly, RecsOf(s, s.queue), s.interruption)
    case BlockingDequeue =>
      if take then MayRemove(d, RecsOf(s, s.queue), k)
      else MayFail(d, Blocking, RecsOf(s, s.queue), s.interruption)
    case ClearFlag => s.mutex.None?
    case Leave => s.mutex.None?
    case _ => true
  }

  ghost predicate Enabled(d: Discipline, s: State, step: Step)
    requires QueueOk(s)
  {
    match step
    case StartConsume(t, _) => PcOf(s, t).Idle?
    case PassGate(t) => PcOf(s, t).ConsumeGate? && s.mutex.None?
    case StartTryConsume(t, _) => PcOf(s, t).Idle?
    case Accept(t) => PcOf(s, t).Enqueueing?
    case Reject(t) => PcOf(s, t).Enqueueing?
    case StartRun(t) => PcOf(s, t).Idle?
    case StartFeedRecords(t) => PcOf(s, t).Idle?
    case Enter(t) => (PcOf(s, t).RunEntry? || PcOf(s, t).FeedEntry?) && s.mutex.None?
    case FeederStep(t, k, take) => PcOf(s, t).Feeding? && FeederEnabled(d, s, PcOf(s, t).f, k, take)
    case StartFlush(t) => PcOf(s, t).Idle? && s.mutex.None?
    case FlushInterrupt(t) => PcOf(s, t).FlushRaised?
    case FlushWake(t) => PcOf(s, t).FlushWait? && s.mutex.None?
    case StartStop(t) => PcOf(s, t).Idle? && s.mutex.None?
    case StopInterrupt(t) => PcOf(s, t).StopRaised?
    case StopWake(t) => PcOf(s, t).StopWait? && s.mutex.None?
    case Join(t) => PcOf(s, t).Joining? && (s.dedicated.Some? ==> PcOf(s, s.dedicated.value).Idle?)
  }

  // A producer that has passed the flag check of `consume` or `try_consume`.
  function Past(s: State): set<ThreadId> {
    set t | t in s.pcs && s.pcs[t].Enqueueing?
  }

  function NewFeeder(kind: Kind): Pc {
    Feeding(Feeder(kind, TestStop, false, false, 0))
  }

  // The flush becomes the feeder, in the critical section that found none.
  function FlushSelf(s: State, t: ThreadId): State {
    var s' := At(s, t, Idle);
    At(s, t, NewFeeder(SelfFlush(|s.accepted|, |s.queue| + |Past(s')|, 0))).(flushRequested := true, feeding := Some(t))
  }

  // The test of the waiting loop of `flush` and what follows when it fails.
  function FlushTest(s: State, t: ThreadId, mark: nat): State {
    if !s.stopRequested && s.flushRequested then At(s, t, FlushWait(mark))
    else if s.feeding.Some? then At(s, t, Idle)
    else FlushSelf(s, t)
  }

  // Leaving `do_feed_records`: `run` goes on to its own stop test, the others leave.
  function AfterLoop(kind: Kind): Place {
    if kind.RunLoop? then TestStopEnd else Leave
  }

  function CountFed(kind: Kind): Kind {
    if kind.SelfFlush? then kind.(fed := kind.fed + 1) else kind
  }

  // A dequeue that gets a record.
  predicate Takes(f: Feeder, take: bool) {
    take && (f.place.Dequeue? || f.place.BlockingDequeue?)
  }

  // Where the feeder stands after its step: the control flow of `do_feed_records` and `run`.
  function NextFeeder(s: State, f: Feeder, k: nat, take: bool): Feeder
    requires Takes(f, take) ==> k < |s.queue|
  {
    match f.place
    case TestStop =>
      f.(place := if s.stopRequested then TestFlushEnd else TestFlush, sawStop := s.stopRequested)
    case TestFlush => f.(place := Dequeue, sawFlush := s.flushRequested)
    case Dequeue =>
      if take then f.(place := Feed(s.queue[k]))
      else f.(place := TestFlushEnd, floor := if s.queue == [] then |s.accepted| else 0)
    case Feed(_) => f.(place := TestStop, kind := CountFed(f.kind))
    case TestFlushEnd => f.(place := if s.flushRequested then FlushBackend else AfterLoop(f.kind))
    case FlushBackend => f.(place := ClearFlag)
    case ClearFlag => f.(place := AfterLoop(f.kind))
    case TestStopEnd => f.(place := if s.stopRequested then Leave else BlockingDequeue)
    case BlockingDequeue => f.(place := if take then FeedBlocking(s.queue[k]) else TestStop)
    case FeedBlocking(_) => f.(place := TestStop)
    case Leave => f
  }

  function AfterFeeder(s: State, t: ThreadId, f: Feeder, k: nat, take: bool): State
    requires Takes(f, take) ==> k < |s.queue|
  {
    if f.place.Leave? then
      At(s, t, Idle).(stopRequested := false, feeding := None)
    else
      At(s, t, Feeding(NextFeeder(s, f, k, take))).(
        queue := if Takes(f, take) then Without(s.queue, k) else s.queue,
        offered := if f.place.Feed? || f.place.FeedBlocking? then s.offered + [f.place.serial] else s.offered,
        flushes := if f.place.FlushBackend? then s.flushes + [|s.offered|] else s.flushes,
        flushRequested := s.flushRequested && !f.place.ClearFlag?,
        interruption := s.interruption && !(f.place.BlockingDequeue? && !take),
        noticed := if f.place.TestFlush? then Noticed(s) else s.noticed)
  }

  // The flushes whose request a read of the flag takes in.
  function Noticed(s: State): set<ThreadId> {
    if s.flushRequested then set w | w in s.pcs && Requesting(s.pcs[w]) else {}
  }

  function Apply(d: Discipline, s: State, step: Step): State
    requires QueueOk(s) && Enabled(d, s, step)
  {
    match step
    case StartConsume(t, rec) =>
      At(s, t, if s.flushRequested then ConsumeGate(rec) else Enqueueing(rec))
    case PassGate(t) =>
      if s.flushRequested then s else At(s, t, Enqueueing(PcOf(s, t).rec))
    case StartTryConsume(t, rec) =>
      if s.flushRequested then s else At(s, t, Enqueueing(rec))
    case Accept(t) =>
      At(s, t, Idle).(queue := s.queue + [|s.accepted|], accepted := s.accepted + [PcOf(s, t).rec])
    case Reject(t) => At(s, t, Idle)
    case StartRun(t) => At(s, t, RunEntry)
    case StartFeedRecords(t) => At(s, t, FeedEntry)
    case Enter(t) =>
      // a second feeder gets an exception
      if s.feeding.Some? then At(s, t, Idle)
      else At(s, t, NewFeeder(if PcOf(s, t).RunEntry? then RunLoop else FeedRecords)).(feeding := Some(t))
    case FeederStep(t, k, take) => AfterFeeder(s, t, PcOf(s, t).f, k, take)
    case StartFlush(t) =>
      if s.feeding.Some? then
        At(s, t, FlushRaised(|s.accepted|)).(flushRequested := true, mutex := Some(t), noticed := s.noticed - {t})
      else FlushSelf(s, t)
    case FlushInterrupt(t) => FlushTest(s.(interruption := true, mutex := None), t, PcOf(s, t).mark)
    case FlushWake(t) => FlushTest(s, t, PcOf(s, t).mark)
    case StartStop(t) =>
      if s.feeding.Some? || s.dedicated.Some? then
        At(s, t, StopRaised).(stopRequested := true, mutex := Some(t))
      else At(s, t, Idle)
    case StopInterrupt(t) => At(s, t, StopWait).(interruption := true, mutex := None)
    case StopWake(t) => if s.stopRequested then s else At(s, t, Joining)
    case Join(t) => At(s, t, Idle).(dedicated := None)
  }

  lemma WithoutIn<T>(s: seq<T>, k: nat, x: T)
    requires k < |s| && x in Without(s, k)
    ensures x in s
  {
    assert x in multiset(Without(s, k));
  }

  lemma QueueOkFeeder(s: State, t: ThreadId, f: Feeder, k: nat, take: bool)
    requires QueueOk(s)
    requires Takes(f, take) ==> k < |s.queue|
    ensures QueueOk(AfterFeeder(s, t, f, k, take))
  {
    if Takes(f, take) {
      forall x | x in Without(s.queue, k) ensures x in s.queue {
        WithoutIn(s.queue, k, x);
      }
    }
  }

  lemma QueueOkStep(d: Discipline, s: State, step: Step)
    requires QueueOk(s) && Enabled(d, s, step)
    ensures QueueOk(Apply(d, s, step))
  {
    if step.FeederStep? {
      QueueOkFeeder(s, step.t, PcOf(s, step.t).f, step.k, step.take);
    }
  }

  // ----- Runs -----

  ghost predicate CanRun(d: Discipline, s: State, steps: seq<Step>)
    requires QueueOk(s)
    decreases |steps|
  {
    steps == [] ||
    (Enabled(d, s, steps[0]) &&
     (QueueOkStep(d, s, steps[0]); CanRun(d, Apply(d, s, steps[0]), steps[1..])))
  }

  ghost function Run(d: Discipline, s: State, steps: seq<Step>): State
    requires QueueOk(s) && CanRun(d, s, steps)
    decreases |steps|
  {
    if steps == [] then s
    else QueueOkStep(d, s, steps[0]); Run(d, Apply(d, s, steps[0]), steps[1..])
  }
}
