/**
 The mutex-protected queueing strategies as one step system: `bounded_fifo_queue`,
 `bounded_ordering_queue` and `unbounded_ordering_queue`, together with the
 `block_on_overflow` and `drop_on_overflow` strategies.

 Every step is one critical section of the strategy's mutex, from acquiring it to
 releasing it or to the next wait on a condition variable. Waits may end at any time
 (spuriously), so the steps that follow a wait are always allowed.
 */
module QueueProtocol {
  import opened Records

  type CallId = nat

  // A queued record with the time stamp it got when it was pushed.
  datatype Entry = Entry(call: CallId, stamp: nat, rec: Record)

  // FIFO queues pop their oldest entry at once. Ordering queues pop an entry that nothing
  // precedes, and "ready" dequeues only when it has stayed for the window; the clock makes
  // `ticksPerMs` ticks each millisecond and ages are rounded down to milliseconds.
  datatype Discipline = Fifo | Ordering(windowMs: nat, ticksPerMs: nat)

  datatype Config = Config(discipline: Discipline, less: Order, capacity: Option<nat>, blocking: bool)

  ghost predicate ValidConfig(cfg: Config) {
    && StrictWeakOrder(cfg.less)
    && (cfg.discipline.Ordering? ==> 0 < cfg.discipline.ticksPerMs)
  }

  // The fields of a strategy object. `front` is where `front()` or `top()` points. A push leaves
  // it alone or moves it to the new entry; a pop may choose any entry that nothing precedes.
  datatype Shared = Shared(items: seq<Entry>, front: nat, interruption: bool, contexts: seq<CallId>)

  // The ordering window in clock ticks.
  function Window(cfg: Config): nat
  {
    match cfg.discipline
    case Fifo => 0
    case Ordering(w, t) => w * t
  }

  predicate Full(cfg: Config, sh: Shared) {
    cfg.capacity.Some? && |sh.items| >= cfg.capacity.value
  }

  // `size == MaxQueueSizeV`, tested by the dequeues before they report free space.
  predicate ExactlyFull(cfg: Config, sh: Shared) {
    cfg.capacity.Some? && |sh.items| == cfg.capacity.value
  }

  ghost predicate FrontOk(cfg: Config, items: seq<Entry>, f: nat) {
    && f < |items|
    && (cfg.discipline.Fifo? ==> f == 0)
    && (cfg.discipline.Ordering? ==> forall k :: 0 <= k < |items| ==> !cfg.less(items[k].rec, items[f].rec))
  }

  // Age of an entry in whole milliseconds.
  function AgeMs(cfg: Config, e: Entry, now: nat): nat
    requires cfg.discipline.Ordering? && 0 < cfg.discipline.ticksPerMs && e.stamp <= now
  {
    (now - e.stamp) / cfg.discipline.ticksPerMs
  }

  predicate Ready(cfg: Config, e: Entry, now: nat)
    requires cfg.discipline.Ordering? ==> 0 < cfg.discipline.ticksPerMs && e.stamp <= now
  {
    cfg.discipline.Fifo? || AgeMs(cfg, e, now) >= cfg.discipline.windowMs
  }

  // The argument of `timed_wait`, an unsigned subtraction in the source.
  function SleepMs(cfg: Config, e: Entry, now: nat): (ms: nat)
    requires cfg.discipline.Ordering? && 0 < cfg.discipline.ticksPerMs && e.stamp <= now
    requires !Ready(cfg, e, now)
    ensures 0 < ms <= cfg.discipline.windowMs
  {
    cfg.discipline.windowMs - AgeMs(cfg, e, now)
  }

  function Deadline(cfg: Config, e: Entry, now: nat): nat
    requires cfg.discipline.Ordering? && 0 < cfg.discipline.ticksPerMs && e.stamp <= now
    requires !Ready(cfg, e, now)
  {
    now + SleepMs(cfg, e, now) * cfg.discipline.ticksPerMs
  }

  function Recs(entries: seq<Entry>): (r: seq<Record>)
    ensures |r| == |entries|
  {
    seq(|entries|, i requires 0 <= i < |entries| => entries[i].rec)
  }

  // ----- Effects of the critical sections on the shared fields -----

  function Push(sh: Shared, e: Entry, becomesFront: bool): Shared {
    sh.(items := sh.items + [e], front := if becomesFront then |sh.items| else sh.front)
  }

  // pop(), then on_queue_space_available() if the queue was full
  function Pop(cfg: Config, sh: Shared, next: nat): Shared
    requires sh.front < |sh.items|
  {
    sh.(items := Without(sh.items, sh.front), front := next,
        contexts := if Grants(cfg, sh) then sh.contexts[1..] else sh.contexts)
  }

  predicate Grants(cfg: Config, sh: Shared) {
    ExactlyFull(cfg, sh) && sh.contexts != []
  }

  function Interrupt(sh: Shared): Shared {
    sh.(interruption := true, contexts := [])
  }

  // What the critical section of `enqueue` ends with.
  datatype EnqueueOutcome = Pushed | Linked | Discarded

  function EnqueueOutcomeOf(cfg: Config, sh: Shared): EnqueueOutcome {
    if !Full(cfg, sh) then Pushed else if cfg.blocking then Linked else Discarded
  }

  function EnqueueEffect(cfg: Config, sh: Shared, e: Entry, becomesFront: bool): Shared {
    match EnqueueOutcomeOf(cfg, sh)
    case Pushed => Push(sh, e, becomesFront)
    case Linked => sh.(contexts := sh.contexts + [e.call])
    case Discarded => sh
  }

  // What a critical section of a dequeue ends with.
  datatype DequeueOutcome = Got(entry: Entry) | Nothing | Interrupted | Sleep(deadline: Option<nat>)

  function TryDequeueOutcome(sh: Shared): DequeueOutcome
    requires sh.items != [] ==> sh.front < |sh.items|
  {
    if sh.items != [] then Got(sh.items[sh.front]) else Nothing
  }

  predicate Timely(cfg: Config, sh: Shared, now: nat) {
    && (sh.items != [] ==> sh.front < |sh.items|)
    && (cfg.discipline.Ordering? ==> 0 < cfg.discipline.ticksPerMs)
    && (forall e :: e in sh.items ==> e.stamp <= now)
  }

  function TryDequeueReadyOutcome(cfg: Config, sh: Shared, now: nat): DequeueOutcome
    requires Timely(cfg, sh, now)
  {
    if sh.items != [] && Ready(cfg, sh.items[sh.front], now) then Got(sh.items[sh.front]) else Nothing
  }

  function DequeueReadyOutcome(cfg: Config, sh: Shared, now: nat): DequeueOutcome
    requires Timely(cfg, sh, now)
  {
    if sh.interruption then Interrupted
    else if sh.items == [] then Sleep(None)
    else if Ready(cfg, sh.items[sh.front], now) then Got(sh.items[sh.front])
    else Sleep(Some(Deadline(cfg, sh.items[sh.front], now)))
  }

  function DequeueEffect(cfg: Config, sh: Shared, out: DequeueOutcome, next: nat): Shared
    requires out.Got? ==> sh.front < |sh.items|
  {
    match out
    case Got(_) => Pop(cfg, sh, next)
    case Interrupted => sh.(interruption := false)
    case Nothing => sh
    case Sleep(_) => sh
  }

  // ----- The step system -----

  // A call of `enqueue` or `try_enqueue`. `Waiting`: linked in the list of blocked contexts.
  // `Released`: unlinked by a dequeue (retry) or by an interruption, not yet running again.
  datatype Call =
    | Started(rec: Record)
    | Waiting(rec: Record)
    | Released(rec: Record, retry: bool)
    | Accepted
    | Dropped
    | Refused

  datatype Consumer = Away | Asleep(deadline: Option<nat>, notified: bool)

  datatype Taken = Taken(entry: Entry, at: nat, ready: bool)

  // `accepted`, `taken`, `granted` and `cut` record history: entries pushed, entries popped,
  // calls unlinked by a dequeue, calls unlinked by an interruption.
  datatype State = State(
    sh: Shared, calls: map<CallId, Call>, consumer: Consumer, clock: nat,
    accepted: seq<Entry>, taken: seq<Taken>, granted: seq<CallId>, cut: set<CallId>)

  function Init(): State {
    State(Shared([], 0, false, []), map[], Away, 0, [], [], [], {})
  }

  datatype Step =
    | StartCall(id: CallId, rec: Record)
    | EnqueueSection(id: CallId, now: nat, becomesFront: bool)
    | SpuriousWake(id: CallId)
    | TryEnqueue(id: CallId, rec: Record, now: nat, becomesFront: bool, locked: bool)
    | TryDequeue(now: nat, next: nat)
    | TryDequeueReady(now: nat, next: nat)
    | DequeueReadySection(now: nat, next: nat)
    | InterruptDequeue

  predicate CanRunSection(s: State, id: CallId) {
    id in s.calls && (s.calls[id].Started? || s.calls[id].Released?)
  }

  ghost predicate PushOk(cfg: Config, sh: Shared, e: Entry, becomesFront: bool) {
    && (sh.items == [] ==> becomesFront)
    && FrontOk(cfg, Push(sh, e, becomesFront).items, Push(sh, e, becomesFront).front)
  }

  ghost predicate PopOk(cfg: Config, sh: Shared, next: nat) {
    && sh.front < |sh.items|
    && (|sh.items| > 1 ==> FrontOk(cfg, Without(sh.items, sh.front), next))
  }

  ghost predicate Enabled(cfg: Config, s: State, step: Step) {
    match step
    case StartCall(id, rec) => id !in s.calls
    case EnqueueSection(id, now, bf) =>
      && CanRunSection(s, id) && s.clock <= now
      && (!Full(cfg, s.sh) && s.calls[id] != Released(s.calls[id].rec, false) ==>
            PushOk(cfg, s.sh, Entry(id, now, s.calls[id].rec), bf))
    case SpuriousWake(id) => id in s.calls && s.calls[id].Waiting?
    case TryEnqueue(id, rec, now, bf, locked) =>
      && id !in s.calls && s.clock <= now
      && (locked && !Full(cfg, s.sh) ==> PushOk(cfg, s.sh, Entry(id, now, rec), bf))
    case TryDequeue(now, next) =>
      && s.consumer.Away? && s.clock <= now
      && (s.sh.items != [] ==> PopOk(cfg, s.sh, next))
    case TryDequeueReady(now, next) =>
      && s.consumer.Away? && s.clock <= now && Timely(cfg, s.sh, now)
      && (TryDequeueReadyOutcome(cfg, s.sh, now).Got? ==> PopOk(cfg, s.sh, next))
    case DequeueReadySection(now, next) =>
      && s.clock <= now && Timely(cfg, s.sh, now)
      && (DequeueReadyOutcome(cfg, s.sh, now).Got? ==> PopOk(cfg, s.sh, next))
    case InterruptDequeue => true
  }

  function Notify(c: Consumer): Consumer {
    if c.Asleep? then c.(notified := true) else c
  }

  function AfterPush(s: State, e: Entry, becomesFront: bool): State {
    s.(sh := Push(s.sh, e, becomesFront),
       calls := s.calls[e.call := Accepted],
       consumer := if s.sh.items == [] then Notify(s.consumer) else s.consumer,
       clock := e.stamp,
       accepted := s.accepted + [e])
  }

  function AfterEnqueue(cfg: Config, s: State, id: CallId, now: nat, becomesFront: bool): State
    requires CanRunSection(s, id)
  {
    var rec := s.calls[id].rec;
    if s.calls[id] == Released(rec, false) then
      s.(calls := s.calls[id := Dropped], clock := now)
    else
      match EnqueueOutcomeOf(cfg, s.sh)
      case Pushed => AfterPush(s, Entry(id, now, rec), becomesFront)
      case Linked =>
        s.(sh := EnqueueEffect(cfg, s.sh, Entry(id, now, rec), becomesFront),
           calls := s.calls[id := Waiting(rec)], clock := now)
      case Discarded => s.(calls := s.calls[id := Dropped], clock := now)
  }

  function AfterDequeue(cfg: Config, s: State, out: DequeueOutcome, now: nat, next: nat, ready: bool): State
    requires out.Got? ==> s.sh.front < |s.sh.items|
    requires out.Got? && Grants(cfg, s.sh) ==> s.sh.contexts[0] in s.calls && s.calls[s.sh.contexts[0]].Waiting?
  {
    var s' := s.(sh := DequeueEffect(cfg, s.sh, out, next), clock := now,
                 consumer := if out.Sleep? then Asleep(out.deadline, false) else Away);
    if !out.Got? then s'
    else
      var s'' := s'.(taken := s.taken + [Taken(out.entry, now, ready)]);
      if !Grants(cfg, s.sh) then s''
      else
        var id := s.sh.contexts[0];
        s''.(calls := s.calls[id := Released(s.calls[id].rec, true)], granted := s.granted + [id])
  }

  function AfterInterrupt(s: State): State
    requires forall id :: id in s.sh.contexts ==> id in s.calls && s.calls[id].Waiting?
  {
    s.(sh := Interrupt(s.sh),
       calls := map id | id in s.calls ::
         if id in s.sh.contexts then Released(s.calls[id].rec, false) else s.calls[id],
       consumer := Notify(s.consumer),
       cut := s.cut + set id | id in s.sh.contexts)
  }

  // A context is in the list exactly while its call waits, and only once.
  ghost predicate ListInv(s: State) {
    && (forall i, j :: 0 <= i < j < |s.sh.contexts| ==> s.sh.contexts[i] != s.sh.contexts[j])
    && (forall id :: id in s.sh.contexts <==> id in s.calls && s.calls[id].Waiting?)
    && (s.sh.items != [] ==> s.sh.front < |s.sh.items|)
  }

  function Apply(cfg: Config, s: State, step: Step): State
    requires ListInv(s) && Enabled(cfg, s, step)
  {
    match step
    case StartCall(id, rec) => s.(calls := s.calls[id := Started(rec)])
    case EnqueueSection(id, now, bf) => AfterEnqueue(cfg, s, id, now, bf)
    case SpuriousWake(id) => s
    case TryEnqueue(id, rec, now, bf, locked) =>
      if locked && !Full(cfg, s.sh) then AfterPush(s, Entry(id, now, rec), bf)
      else s.(calls := s.calls[id := Refused], clock := now)
    case TryDequeue(now, next) =>
      AfterDequeue(cfg, s, TryDequeueOutcome(s.sh), now, next, false)
    case TryDequeueReady(now, next) =>
      AfterDequeue(cfg, s, TryDequeueReadyOutcome(cfg, s.sh, now), now, next, true)
    case DequeueReadySection(now, next) =>
      AfterDequeue(cfg, s, DequeueReadyOutcome(cfg, s.sh, now), now, next, true)
    case InterruptDequeue => AfterInterrupt(s)
  }

  lemma ListInvEnqueue(cfg: Config, s: State, id: CallId, now: nat, becomesFront: bool)
    requires ListInv(s) && Enabled(cfg, s, EnqueueSection(id, now, becomesFront))
    ensures ListInv(AfterEnqueue(cfg, s, id, now, becomesFront))
  {
  }

  lemma ListInvDequeue(cfg: Config, s: State, out: DequeueOutcome, now: nat, next: nat, ready: bool)
    requires ListInv(s) && (out.Got? ==> PopOk(cfg, s.sh, next))
    ensures ListInv(AfterDequeue(cfg, s, out, now, next, ready))
  {
    if out.Got? && Grants(cfg, s.sh) {
      var t := AfterDequeue(cfg, s, out, now, next, ready);
      var id := s.sh.contexts[0];
      assert t.sh.contexts == s.sh.contexts[1..];
      forall x ensures x in t.sh.contexts <==> x in t.calls && t.calls[x].Waiting? {
        assert s.sh.contexts == [id] + t.sh.contexts;
        assert x in t.sh.contexts <==> x in s.sh.contexts && x != id;
      }
    }
  }

  lemma ListInvStep(cfg: Config, s: State, step: Step)
    requires ListInv(s) && Enabled(cfg, s, step)
    ensures ListInv(Apply(cfg, s, step))
  {
    match step
    case StartCall(id, rec) =>
    case EnqueueSection(id, now, bf) => ListInvEnqueue(cfg, s, id, now, bf);
    case SpuriousWake(id) =>
    case TryEnqueue(id, rec, now, bf, locked) =>
    case TryDequeue(now, next) =>
      ListInvDequeue(cfg, s, TryDequeueOutcome(s.sh), now, next, false);
    case TryDequeueReady(now, next) =>
      ListInvDequeue(cfg, s, TryDequeueReadyOutcome(cfg, s.sh, now), now, next, true);
    case DequeueReadySection(now, next) =>
      ListInvDequeue(cfg, s, DequeueReadyOutcome(cfg, s.sh, now), now, next, true);
    case InterruptDequeue =>
  }

  // ----- Runs -----

  ghost predicate CanRun(cfg: Config, s: State, steps: seq<Step>)
    requires ListInv(s)
    decreases |steps|
  {
    steps == [] ||
    (Enabled(cfg, s, steps[0]) &&
     (ListInvStep(cfg, s, steps[0]); CanRun(cfg, Apply(cfg, s, steps[0]), steps[1..])))
  }

  ghost function Run(cfg: Config, s: State, steps: seq<Step>): State
    requires ListInv(s) && CanRun(cfg, s, steps)
    decreases |steps|
  {
    if steps == [] then s
    else ListInvStep(cfg, s, steps[0]); Run(cfg, Apply(cfg, s, steps[0]), steps[1..])
  }
}
