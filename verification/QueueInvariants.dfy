/** What every step of the queueing strategies keeps, and the theorems over whole runs. */
module QueueInvariants {
  import opened Records
  import opened QueueProtocol

  function Entries(taken: seq<Taken>): (r: seq<Entry>)
    ensures |r| == |taken|
  {
    seq(|taken|, i requires 0 <= i < |taken| => taken[i].entry)
  }

  // ----- The invariant, one concern at a time -----

  ghost predicate CapacityInv(cfg: Config, s: State) {
    && (cfg.capacity.Some? ==> |s.sh.items| <= cfg.capacity.value)
    && (s.sh.items != [] ==> FrontOk(cfg, s.sh.items, s.sh.front))
  }

  ghost predicate ClockInv(s: State) {
    && (forall e :: e in s.sh.items ==> e.stamp <= s.clock)
    && (forall k :: 0 <= k < |s.taken| ==> s.taken[k].at <= s.clock)
  }

  // Nothing is lost, duplicated or invented; a FIFO queue also keeps the order.
  ghost predicate ConservationInv(cfg: Config, s: State) {
    && multiset(s.accepted) == multiset(Entries(s.taken)) + multiset(s.sh.items)
    && (cfg.discipline.Fifo? ==> s.accepted == Entries(s.taken) + s.sh.items)
  }

  // A call is accepted exactly when one entry of it was pushed, and never twice.
  ghost predicate CallsInv(s: State) {
    && (forall i, j :: 0 <= i < j < |s.accepted| ==> s.accepted[i].call != s.accepted[j].call)
    && (forall k :: 0 <= k < |s.accepted| ==>
          s.accepted[k].call in s.calls && s.calls[s.accepted[k].call].Accepted?)
    && (forall id :: id in s.calls && s.calls[id].Accepted? ==>
          exists k :: 0 <= k < |s.accepted| && s.accepted[k].call == id)
  }

  ghost predicate Lost(c: Call) {
    c.Dropped? || (c.Released? && !c.retry)
  }

  // Under `block_on_overflow` the calls that lose their record are those an interruption cut;
  // under `drop_on_overflow` nobody ever blocks.
  ghost predicate DropInv(cfg: Config, s: State) {
    && (cfg.blocking ==> forall id :: id in s.cut <==> id in s.calls && Lost(s.calls[id]))
    && (!cfg.blocking ==>
          s.sh.contexts == [] && s.cut == {} &&
          forall id :: id in s.calls ==> !s.calls[id].Waiting? && !s.calls[id].Released?)
  }

  function Tick(cfg: Config): nat {
    if cfg.discipline.Ordering? then cfg.discipline.ticksPerMs else 0
  }

  // Sleeping without a pending notification, the consumer has nothing to do before its deadline.
  ghost predicate WakeInv(cfg: Config, s: State) {
    s.consumer.Asleep? ==>
      && (s.consumer.deadline.Some? ==> s.consumer.deadline.value <= s.clock + Window(cfg))
      && (cfg.discipline.Fifo? ==> s.consumer.deadline.None?)
      && (!s.consumer.notified ==>
            && !s.sh.interruption
            && (s.sh.items != [] ==>
                  && s.consumer.deadline.Some? && s.sh.front < |s.sh.items|
                  && s.consumer.deadline.value < s.sh.items[s.sh.front].stamp + Window(cfg) + Tick(cfg)))
  }

  // An entry that strictly precedes `b` was pushed at least a window after `b`.
  ghost predicate LateIfBefore(cfg: Config, b: Entry, a: Entry) {
    cfg.less(a.rec, b.rec) ==> b.stamp + Window(cfg) <= a.stamp
  }

  // Whatever a ready dequeue popped had stayed for the window.
  ghost predicate StayInv(cfg: Config, s: State) {
    forall i :: 0 <= i < |s.taken| && s.taken[i].ready ==>
      s.taken[i].entry.stamp + Window(cfg) <= s.taken[i].at
  }

  // Whatever strictly precedes such an entry and is popped later, or still queued, came late.
  ghost predicate OrderInv(cfg: Config, s: State) {
    cfg.discipline.Ordering? ==> Ordered(cfg, s.taken, s.sh.items)
  }

  ghost predicate Ordered(cfg: Config, taken: seq<Taken>, items: seq<Entry>) {
    && (forall i, k :: 0 <= i < |taken| && taken[i].ready && 0 <= k < |items| ==>
          LateIfBefore(cfg, taken[i].entry, items[k]))
    && (forall i, j :: 0 <= i < j < |taken| && taken[i].ready ==>
          LateIfBefore(cfg, taken[i].entry, taken[j].entry))
  }

  ghost predicate Inv(cfg: Config, s: State) {
    && ListInv(s) && CapacityInv(cfg, s) && ClockInv(s) && ConservationInv(cfg, s) && CallsInv(s)
    && DropInv(cfg, s) && WakeInv(cfg, s) && StayInv(cfg, s) && OrderInv(cfg, s)
  }

  lemma InitInv(cfg: Config)
    ensures Inv(cfg, Init())
  {
    assert Entries([]) == [];
    assert multiset(Init().accepted) == multiset(Entries(Init().taken)) + multiset(Init().sh.items);
  }

  // ----- Arithmetic of the window -----

  // Rounding ages down to milliseconds does not matter to readiness.
  lemma ReadyIffWindowPassed(cfg: Config, e: Entry, now: nat)
    requires ValidConfig(cfg) && e.stamp <= now
    ensures Ready(cfg, e, now) <==> e.stamp + Window(cfg) <= now
  {
    if cfg.discipline.Ordering? {
      var w, t, d := cfg.discipline.windowMs, cfg.discipline.ticksPerMs, now - e.stamp;
      assert d == d / t * t + d % t;
      if d / t >= w {
        MulLe(w, d / t, t);
      } else {
        MulLe(d / t + 1, w, t);
        assert (d / t + 1) * t == d / t * t + t;
      }
    }
  }

  lemma MulLe(a: nat, b: nat, t: nat)
    requires a <= b
    ensures a * t <= b * t
  {
  }

  // The computed deadline is late enough for the entry, by less than a millisecond.
  lemma DeadlineBounds(cfg: Config, e: Entry, now: nat)
    requires ValidConfig(cfg) && cfg.discipline.Ordering? && e.stamp <= now && !Ready(cfg, e, now)
    ensures e.stamp + Window(cfg) <= Deadline(cfg, e, now) < e.stamp + Window(cfg) + Tick(cfg)
    ensures Deadline(cfg, e, now) <= now + Window(cfg)
    ensures Ready(cfg, e, Deadline(cfg, e, now))
  {
    var w, t, d := cfg.discipline.windowMs, cfg.discipline.ticksPerMs, now - e.stamp;
    var q := d / t;
    assert d == q * t + d % t;
    assert (w - q) * t == w * t - q * t;
    MulLe(w - q, w, t);
    ReadyIffWindowPassed(cfg, e, Deadline(cfg, e, now));
  }

  // ----- Every step keeps the invariant -----

  lemma PushKeeps(cfg: Config, s: State, e: Entry, bf: bool)
    requires ValidConfig(cfg) && Inv(cfg, s) && !Full(cfg, s.sh) && PushOk(cfg, s.sh, e, bf)
    requires s.clock <= e.stamp && (e.call in s.calls ==> CanRunSection(s, e.call) && !Lost(s.calls[e.call]))
    ensures Inv(cfg, AfterPush(s, e, bf))
  {
    PushKeepsLists(cfg, s, e, bf);
    PushKeepsCalls(s, e, bf);
    PushKeepsHistory(cfg, s, e, bf);
    PushKeepsWake(cfg, s, e, bf);
    PushKeepsOrder(cfg, s, e, bf);
  }

  lemma PushKeepsLists(cfg: Config, s: State, e: Entry, bf: bool)
    requires ListInv(s) && CapacityInv(cfg, s) && ClockInv(s) && DropInv(cfg, s)
    requires !Full(cfg, s.sh) && PushOk(cfg, s.sh, e, bf)
    requires s.clock <= e.stamp && (e.call in s.calls ==> CanRunSection(s, e.call) && !Lost(s.calls[e.call]))
    ensures var t := AfterPush(s, e, bf); ListInv(t) && CapacityInv(cfg, t) && ClockInv(t) && DropInv(cfg, t)
  {
  }

  lemma PushKeepsHistory(cfg: Config, s: State, e: Entry, bf: bool)
    requires ConservationInv(cfg, s)
    ensures ConservationInv(cfg, AfterPush(s, e, bf))
  {
  }

  lemma PushKeepsWake(cfg: Config, s: State, e: Entry, bf: bool)
    requires ValidConfig(cfg) && WakeInv(cfg, s) && PushOk(cfg, s.sh, e, bf) && s.clock <= e.stamp
    ensures WakeInv(cfg, AfterPush(s, e, bf))
  {
  }

  // A later push carries a stamp no earlier than any completed pop.
  lemma PushKeepsOrder(cfg: Config, s: State, e: Entry, bf: bool)
    requires ClockInv(s) && StayInv(cfg, s) && OrderInv(cfg, s) && s.clock <= e.stamp
    ensures var t := AfterPush(s, e, bf); StayInv(cfg, t) && OrderInv(cfg, t)
  {
  }

  lemma PushKeepsCalls(s: State, e: Entry, bf: bool)
    requires CallsInv(s) && (e.call in s.calls ==> !s.calls[e.call].Accepted?)
    ensures CallsInv(AfterPush(s, e, bf))
  {
    var t := AfterPush(s, e, bf);
    forall id | id in t.calls && t.calls[id].Accepted?
      ensures exists k :: 0 <= k < |t.accepted| && t.accepted[k].call == id
    {
      if id == e.call {
        assert t.accepted[|s.accepted|].call == id;
      } else {
        var k :| 0 <= k < |s.accepted| && s.accepted[k].call == id;
        assert t.accepted[k].call == id;
      }
    }
  }

  lemma EnqueueKeeps(cfg: Config, s: State, id: CallId, now: nat, bf: bool)
    requires ValidConfig(cfg) && Inv(cfg, s) && Enabled(cfg, s, EnqueueSection(id, now, bf))
    ensures Inv(cfg, AfterEnqueue(cfg, s, id, now, bf))
  {
    var rec := s.calls[id].rec;
    if s.calls[id] != Released(rec, false) && !Full(cfg, s.sh) {
      PushKeeps(cfg, s, Entry(id, now, rec), bf);
    } else {
      ListInvEnqueue(cfg, s, id, now, bf);
      NoPushKeeps(cfg, s, id, now, bf);
    }
  }

  lemma NoPushKeeps(cfg: Config, s: State, id: CallId, now: nat, bf: bool)
    requires Inv(cfg, s) && CanRunSection(s, id) && s.clock <= now
    requires s.calls[id] == Released(s.calls[id].rec, false) || Full(cfg, s.sh)
    requires ListInv(AfterEnqueue(cfg, s, id, now, bf))
    ensures Inv(cfg, AfterEnqueue(cfg, s, id, now, bf))
  {
    var t := AfterEnqueue(cfg, s, id, now, bf);
    assert t.sh.items == s.sh.items && t.sh.front == s.sh.front && t.taken == s.taken && t.accepted == s.accepted;
    CallChangeKeeps(s, t, id);
  }

  // A change of one call that is neither accepted before nor after.
  lemma CallChangeKeeps(s: State, t: State, id: CallId)
    requires CallsInv(s) && id in t.calls && t.calls == s.calls[id := t.calls[id]]
    requires t.accepted == s.accepted && !t.calls[id].Accepted?
    requires id in s.calls ==> !s.calls[id].Accepted?
    ensures CallsInv(t)
  {
  }

  lemma InterruptKeeps(cfg: Config, s: State)
    requires Inv(cfg, s)
    ensures Inv(cfg, AfterInterrupt(s))
  {
    var t := AfterInterrupt(s);
    assert CallsInv(t);
    assert DropInv(cfg, t);
  }

  lemma QuietDequeueKeeps(cfg: Config, s: State, out: DequeueOutcome, now: nat, next: nat, ready: bool)
    requires ValidConfig(cfg) && Inv(cfg, s) && s.clock <= now && !out.Got?
    requires out.Sleep? ==> Timely(cfg, s.sh, now) && out == DequeueReadyOutcome(cfg, s.sh, now)
    ensures Inv(cfg, AfterDequeue(cfg, s, out, now, next, ready))
  {
    var t := AfterDequeue(cfg, s, out, now, next, ready);
    QuietDequeueWakes(cfg, s, out, now, next, ready);
    SameRecordsKeeps(cfg, s, t);
  }

  lemma QuietDequeueWakes(cfg: Config, s: State, out: DequeueOutcome, now: nat, next: nat, ready: bool)
    requires ValidConfig(cfg) && s.clock <= now && !out.Got?
    requires out.Sleep? ==> Timely(cfg, s.sh, now) && out == DequeueReadyOutcome(cfg, s.sh, now)
    ensures WakeInv(cfg, AfterDequeue(cfg, s, out, now, next, ready))
  {
    if out.Sleep? && s.sh.items != [] {
      DeadlineBounds(cfg, s.sh.items[s.sh.front], now);
    }
  }

  // A step that moves no record and changes no call.
  lemma SameRecordsKeeps(cfg: Config, s: State, t: State)
    requires Inv(cfg, s) && WakeInv(cfg, t)
    requires t.sh.items == s.sh.items && t.sh.front == s.sh.front && t.sh.contexts == s.sh.contexts
    requires t.calls == s.calls && t.accepted == s.accepted && t.taken == s.taken && t.cut == s.cut
    requires s.clock <= t.clock
    ensures Inv(cfg, t)
  {
  }

  lemma PopKeeps(cfg: Config, s: State, out: DequeueOutcome, now: nat, next: nat, ready: bool)
    requires ValidConfig(cfg) && Inv(cfg, s) && s.clock <= now
    requires Takes(cfg, s, out, next)
    requires ready ==> out.entry.stamp + Window(cfg) <= now
    ensures Inv(cfg, AfterDequeue(cfg, s, out, now, next, ready))
  {
    ListInvDequeue(cfg, s, out, now, next, ready);
    PopKeepsLists(cfg, s, out, now, next, ready);
    PopKeepsCalls(cfg, s, out, now, next, ready);
    PopKeepsHistory(cfg, s, out, now, next, ready);
    PopKeepsOrder(cfg, s, out, now, next, ready);
  }

  ghost predicate Takes(cfg: Config, s: State, out: DequeueOutcome, next: nat) {
    out.Got? && PopOk(cfg, s.sh, next) && out.entry == s.sh.items[s.sh.front]
  }

  lemma PopKeepsLists(cfg: Config, s: State, out: DequeueOutcome, now: nat, next: nat, ready: bool)
    requires ListInv(s) && CapacityInv(cfg, s) && ClockInv(s) && s.clock <= now && Takes(cfg, s, out, next)
    ensures var t := AfterDequeue(cfg, s, out, now, next, ready); CapacityInv(cfg, t) && ClockInv(t)
  {
    var t := AfterDequeue(cfg, s, out, now, next, ready);
    var rest := Without(s.sh.items, s.sh.front);
    assert t.sh.items == rest && t.sh.front == next && t.clock == now;
    assert CapacityInv(cfg, t) by {
      assert rest != [] ==> |s.sh.items| > 1;
    }
    StampsAfterRemoval(s.sh.items, s.sh.front, s.clock);
    HistoryStamps(s.taken, s.clock, Taken(out.entry, now, ready));
  }

  lemma HistoryStamps(taken: seq<Taken>, clock: nat, more: Taken)
    requires clock <= more.at && forall k :: 0 <= k < |taken| ==> taken[k].at <= clock
    ensures forall k :: 0 <= k < |taken + [more]| ==> (taken + [more])[k].at <= more.at
  {
  }

  lemma StampsAfterRemoval(items: seq<Entry>, f: nat, clock: nat)
    requires f < |items| && forall e :: e in items ==> e.stamp <= clock
    ensures forall e :: e in Without(items, f) ==> e.stamp <= clock
  {
    forall e | e in Without(items, f) ensures e in items {
      assert e in multiset(Without(items, f));
    }
  }

  lemma PopKeepsCalls(cfg: Config, s: State, out: DequeueOutcome, now: nat, next: nat, ready: bool)
    requires ListInv(s) && CallsInv(s) && DropInv(cfg, s) && Takes(cfg, s, out, next)
    ensures var t := AfterDequeue(cfg, s, out, now, next, ready); CallsInv(t) && DropInv(cfg, t)
  {
    if Grants(cfg, s.sh) {
      CallChangeKeeps(s, AfterDequeue(cfg, s, out, now, next, ready), s.sh.contexts[0]);
    }
  }

  lemma PopKeepsHistory(cfg: Config, s: State, out: DequeueOutcome, now: nat, next: nat, ready: bool)
    requires ListInv(s) && CapacityInv(cfg, s) && ConservationInv(cfg, s) && Takes(cfg, s, out, next)
    ensures ConservationInv(cfg, AfterDequeue(cfg, s, out, now, next, ready))
  {
    var t := AfterDequeue(cfg, s, out, now, next, ready);
    assert t.sh.items == Without(s.sh.items, s.sh.front) && t.accepted == s.accepted;
    assert t.taken == s.taken + [Taken(out.entry, now, ready)];
    MoveOne(multiset(s.accepted), s.taken, s.sh.items, s.sh.front, t.taken[|s.taken|]);
    if cfg.discipline.Fifo? {
      MoveFirst(s.accepted, s.taken, s.sh.items, t.taken[|s.taken|]);
    }
  }

  // Moving entry `f` from the queue to the history conserves the entries.
  lemma MoveOne(all: multiset<Entry>, taken: seq<Taken>, items: seq<Entry>, f: nat, moved: Taken)
    requires f < |items| && moved.entry == items[f]
    requires all == multiset(Entries(taken)) + multiset(items)
    ensures all == multiset(Entries(taken + [moved])) + multiset(Without(items, f))
  {
    var rest := Without(items, f);
    assert Entries(taken + [moved]) == Entries(taken) + [items[f]];
    assert items[f] in multiset(items);
    assert multiset(items) == multiset(rest) + multiset{items[f]};
  }

  lemma MoveFirst(all: seq<Entry>, taken: seq<Taken>, items: seq<Entry>, moved: Taken)
    requires items != [] && moved.entry == items[0] && all == Entries(taken) + items
    ensures all == Entries(taken + [moved]) + Without(items, 0)
  {
    var done, rest := Entries(taken), items[1..];
    assert Entries(taken + [moved]) == done + [items[0]];
    assert items == [items[0]] + rest;
    assert done + ([items[0]] + rest) == (done + [items[0]]) + rest;
    assert Without(items, 0) == rest;
  }

  lemma PopKeepsOrder(cfg: Config, s: State, out: DequeueOutcome, now: nat, next: nat, ready: bool)
    requires ListInv(s) && CapacityInv(cfg, s) && Takes(cfg, s, out, next)
    requires StayInv(cfg, s) && OrderInv(cfg, s)
    requires ready ==> out.entry.stamp + Window(cfg) <= now
    ensures var t := AfterDequeue(cfg, s, out, now, next, ready); StayInv(cfg, t) && OrderInv(cfg, t)
  {
    var t := AfterDequeue(cfg, s, out, now, next, ready);
    assert t.sh.items == Without(s.sh.items, s.sh.front);
    assert t.taken == s.taken + [Taken(out.entry, now, ready)];
    if cfg.discipline.Ordering? {
      forall k | 0 <= k < |s.sh.items| ensures LateIfBefore(cfg, out.entry, s.sh.items[k]) {
        assert !cfg.less(s.sh.items[k].rec, out.entry.rec);
      }
      OrderedAfterMove(cfg, s.taken, s.sh.items, s.sh.front, t.taken[|s.taken|]);
    }
  }

  lemma OrderedAfterMove(cfg: Config, taken: seq<Taken>, items: seq<Entry>, f: nat, moved: Taken)
    requires f < |items| && moved.entry == items[f]
    requires forall k :: 0 <= k < |items| ==> LateIfBefore(cfg, moved.entry, items[k])
    requires Ordered(cfg, taken, items)
    ensures Ordered(cfg, taken + [moved], Without(items, f))
  {
  }

  lemma DequeueKeeps(cfg: Config, s: State, out: DequeueOutcome, now: nat, next: nat, ready: bool)
    requires ValidConfig(cfg) && Inv(cfg, s) && s.clock <= now
    requires out.Got? ==> Takes(cfg, s, out, next)
    requires out.Sleep? ==> Timely(cfg, s.sh, now) && out == DequeueReadyOutcome(cfg, s.sh, now)
    requires ready && out.Got? ==> Timely(cfg, s.sh, now) && Ready(cfg, out.entry, now)
    ensures Inv(cfg, AfterDequeue(cfg, s, out, now, next, ready))
  {
    if out.Got? {
      if ready {
        ReadyIffWindowPassed(cfg, out.entry, now);
      }
      PopKeeps(cfg, s, out, now, next, ready);
    } else {
      QuietDequeueKeeps(cfg, s, out, now, next, ready);
    }
  }

  lemma TryEnqueueKeeps(cfg: Config, s: State, step: Step)
    requires ValidConfig(cfg) && Inv(cfg, s) && Enabled(cfg, s, step) && step.TryEnqueue?
    ensures Inv(cfg, Apply(cfg, s, step))
  {
    if step.locked && !Full(cfg, s.sh) {
      PushKeeps(cfg, s, Entry(step.id, step.now, step.rec), step.becomesFront);
    } else {
      CallChangeKeeps(s, Apply(cfg, s, step), step.id);
    }
  }

  lemma StepKeeps(cfg: Config, s: State, step: Step)
    requires ValidConfig(cfg) && Inv(cfg, s) && Enabled(cfg, s, step)
    ensures Inv(cfg, Apply(cfg, s, step))
  {
    match step
    case StartCall(id, rec) => StartKeeps(cfg, s, id, rec);
    case EnqueueSection(id, now, bf) => EnqueueKeeps(cfg, s, id, now, bf);
    case SpuriousWake(id) =>
    case TryEnqueue(id, rec, now, bf, locked) => TryEnqueueKeeps(cfg, s, step);
    case TryDequeue(now, next) =>
      DequeueKeeps(cfg, s, TryDequeueOutcome(s.sh), now, next, false);
    case TryDequeueReady(now, next) =>
      DequeueKeeps(cfg, s, TryDequeueReadyOutcome(cfg, s.sh, now), now, next, true);
    case DequeueReadySection(now, next) =>
      DequeueKeeps(cfg, s, DequeueReadyOutcome(cfg, s.sh, now), now, next, true);
    case InterruptDequeue => InterruptKeeps(cfg, s);
  }

  lemma StartKeeps(cfg: Config, s: State, id: CallId, rec: Record)
    requires Inv(cfg, s) && id !in s.calls
    ensures Inv(cfg, s.(calls := s.calls[id := Started(rec)]))
  {
    CallChangeKeeps(s, s.(calls := s.calls[id := Started(rec)]), id);
  }

  lemma {:induction false} RunKeeps(cfg: Config, s: State, steps: seq<Step>)
    requires ValidConfig(cfg) && Inv(cfg, s) && CanRun(cfg, s, steps)
    ensures Inv(cfg, Run(cfg, s, steps))
    decreases |steps|
  {
    if steps == [] {
    } else {
      StepKeeps(cfg, s, steps[0]);
      RunKeeps(cfg, Apply(cfg, s, steps[0]), steps[1..]);
    }
  }
}
