/** Theorems about every run of the queueing strategies, from an empty queue on. */
module QueueTheorems {
  import opened Records
  import opened QueueProtocol
  import opened QueueInvariants

  ghost predicate RunsTo(cfg: Config, steps: seq<Step>, s: State) {
    CanRun(cfg, Init(), steps) && Run(cfg, Init(), steps) == s
  }

  lemma ReachableInv(cfg: Config, steps: seq<Step>, s: State)
    requires ValidConfig(cfg) && RunsTo(cfg, steps, s)
    ensures Inv(cfg, s)
  {
    InitInv(cfg);
    RunKeeps(cfg, Init(), steps);
  }

  // ----- Ordering within the window -----

  lemma AcceptedIsTakenOrQueued(cfg: Config, s: State, a: Entry)
    requires Inv(cfg, s) && a in s.accepted
    ensures a in s.sh.items || exists j :: 0 <= j < |s.taken| && s.taken[j].entry == a
  {
    assert multiset(s.accepted)[a] > 0;
    if a !in s.sh.items {
      assert multiset(Entries(s.taken))[a] > 0;
      var j :| 0 <= j < |s.taken| && Entries(s.taken)[j] == a;
      assert s.taken[j].entry == a;
    }
  }

  // If `a` strictly precedes `b` and was pushed less than a window after `b`, then a ready
  // dequeue of `b` happens only after `a` has left the queue.
  lemma BoundedDisorder(cfg: Config, steps: seq<Step>, s: State, a: Entry, i: nat)
    requires ValidConfig(cfg) && cfg.discipline.Ordering? && RunsTo(cfg, steps, s)
    requires i < |s.taken| && s.taken[i].ready && a in s.accepted
    requires cfg.less(a.rec, s.taken[i].entry.rec)
    requires a.stamp < s.taken[i].entry.stamp + Window(cfg)
    ensures exists j :: 0 <= j < i && s.taken[j].entry == a
  {
    ReachableInv(cfg, steps, s);
    AcceptedIsTakenOrQueued(cfg, s, a);
    var b := s.taken[i].entry;
    if a in s.sh.items {
      assert false;
    }
    var j :| 0 <= j < |s.taken| && s.taken[j].entry == a;
    assert j > i ==> LateIfBefore(cfg, b, s.taken[j].entry);
    assert j != i;
  }

  ghost predicate DisorderBounded(cfg: Config, entries: seq<Entry>) {
    forall a, b :: a in entries && b in entries && cfg.less(a.rec, b.rec) ==> a.stamp < b.stamp + Window(cfg)
  }

  // The whole output is sorted if no record arrives a window or more after one it precedes.
  lemma SortedOutput(cfg: Config, steps: seq<Step>, s: State)
    requires ValidConfig(cfg) && cfg.discipline.Ordering? && RunsTo(cfg, steps, s)
    requires DisorderBounded(cfg, s.accepted)
    requires forall i :: 0 <= i < |s.taken| ==> s.taken[i].ready
    ensures SortedBy(cfg.less, Recs(Entries(s.taken)))
  {
    ReachableInv(cfg, steps, s);
    forall i | 0 <= i < |s.taken| ensures s.taken[i].entry in s.accepted {
      assert Entries(s.taken)[i] in multiset(Entries(s.taken));
      assert s.taken[i].entry in multiset(s.accepted);
    }
    forall i, j | 0 <= i < j < |s.taken| ensures !cfg.less(s.taken[j].entry.rec, s.taken[i].entry.rec) {
      assert LateIfBefore(cfg, s.taken[i].entry, s.taken[j].entry);
    }
  }

  ghost predicate OnlyTryDequeue(steps: seq<Step>) {
    forall k :: 0 <= k < |steps| ==> steps[k].TryDequeue?
  }

  // What was popped since `before` is sorted and is what left the queue.
  ghost predicate Drained(cfg: Config, before: seq<Taken>, items: seq<Entry>, after: seq<Taken>, left: seq<Entry>) {
    && |before| <= |after| && after[..|before|] == before
    && SortedBy(cfg.less, Recs(Entries(after[|before|..])))
    && multiset(Entries(after[|before|..])) + multiset(left) == multiset(items)
  }

  // Popping an ordering queue without pushes gives a sorted permutation of what left it.
  lemma {:induction false} SortedDrain(cfg: Config, s: State, steps: seq<Step>)
    requires cfg.discipline.Ordering? && ListInv(s) && CapacityInv(cfg, s)
    requires CanRun(cfg, s, steps) && OnlyTryDequeue(steps)
    ensures var t := Run(cfg, s, steps);
      && Drained(cfg, s.taken, s.sh.items, t.taken, t.sh.items)
      && |t.sh.items| == if |steps| <= |s.sh.items| then |s.sh.items| - |steps| else 0
    decreases |steps|
  {
    if steps == [] {
      assert s.taken[|s.taken|..] == [];
      assert Entries(s.taken[|s.taken|..]) == [];
    } else {
      var s' := Apply(cfg, s, steps[0]);
      DrainStep(cfg, s, steps[0]);
      SortedDrain(cfg, s', steps[1..]);
      if s.sh.items != [] {
        var t := Run(cfg, s', steps[1..]);
        var f := s.sh.front;
        DrainedCons(cfg, s.taken, s.sh.items, f, s'.taken[|s.taken|], t.taken, t.sh.items);
      }
    }
  }

  lemma DrainStep(cfg: Config, s: State, step: Step)
    requires cfg.discipline.Ordering? && ListInv(s) && CapacityInv(cfg, s)
    requires step.TryDequeue? && Enabled(cfg, s, step)
    ensures var s' := Apply(cfg, s, step);
      && ListInv(s') && CapacityInv(cfg, s')
      && (s.sh.items == [] ==> s'.taken == s.taken && s'.sh.items == [])
      && (s.sh.items != [] ==>
            && s'.taken == s.taken + [Taken(s.sh.items[s.sh.front], step.now, false)]
            && s'.sh.items == Without(s.sh.items, s.sh.front))
  {
    ListInvStep(cfg, s, step);
    if s.sh.items != [] {
      assert |Without(s.sh.items, s.sh.front)| == |s.sh.items| - 1;
    }
  }

  lemma DrainedCons(cfg: Config, before: seq<Taken>, items: seq<Entry>, f: nat, head: Taken,
                    after: seq<Taken>, left: seq<Entry>)
    requires f < |items| && head.entry == items[f]
    requires forall k :: 0 <= k < |items| ==> !cfg.less(items[k].rec, items[f].rec)
    requires Drained(cfg, before + [head], Without(items, f), after, left)
    ensures Drained(cfg, before, items, after, left)
  {
    var n := |before|;
    var rest := after[n + 1..];
    assert after[..n] == after[..n + 1][..n] == before;
    assert after[n] == after[..n + 1][n] == head;
    assert |before + [head]| == n + 1;
    assert after[n..] == [head] + rest;
    SortedCons(cfg, items, f, head, rest, left);
    assert Entries([head] + rest) == [items[f]] + Entries(rest);
    assert items[f] in multiset(items);
    assert multiset(items) == multiset{items[f]} + multiset(Without(items, f));
    assert multiset(Entries(after[n..])) == multiset{items[f]} + multiset(Entries(rest));
  }

  lemma SortedCons(cfg: Config, items: seq<Entry>, f: nat, head: Taken, rest: seq<Taken>, left: seq<Entry>)
    requires f < |items| && head.entry == items[f]
    requires forall k :: 0 <= k < |items| ==> !cfg.less(items[k].rec, items[f].rec)
    requires multiset(Entries(rest)) + multiset(left) == multiset(Without(items, f))
    requires SortedBy(cfg.less, Recs(Entries(rest)))
    ensures SortedBy(cfg.less, Recs(Entries([head] + rest)))
  {
    forall j | 0 <= j < |rest| ensures !cfg.less(rest[j].entry.rec, head.entry.rec) {
      assert Entries(rest)[j] in multiset(Entries(rest));
      assert rest[j].entry in multiset(Without(items, f));
      assert rest[j].entry in multiset(items);
      var k :| 0 <= k < |items| && items[k] == rest[j].entry;
    }
    assert Recs(Entries([head] + rest)) == [head.entry.rec] + Recs(Entries(rest));
  }

  // ----- The consumer's sleep -----

  // Un-notified over a non-empty queue, the consumer sleeps less than a tick past the time
  // when the current front becomes ready; with a millisecond clock, not past it at all.
  lemma NoOversleep(cfg: Config, steps: seq<Step>, s: State)
    requires ValidConfig(cfg) && RunsTo(cfg, steps, s)
    requires s.consumer.Asleep? && !s.consumer.notified && s.sh.items != []
    ensures cfg.discipline.Ordering? && s.consumer.deadline.Some?
    ensures s.sh.front < |s.sh.items|
    ensures s.consumer.deadline.value <= s.sh.items[s.sh.front].stamp + Window(cfg) + (Tick(cfg) - 1)
    ensures forall now: nat :: s.clock <= now && s.sh.items[s.sh.front].stamp + Window(cfg) <= now ==>
              Ready(cfg, s.sh.items[s.sh.front], now)
  {
    ReachableInv(cfg, steps, s);
    var e := s.sh.items[s.sh.front];
    forall now: nat | s.clock <= now && e.stamp + Window(cfg) <= now ensures Ready(cfg, e, now) {
      ReadyIffWindowPassed(cfg, e, now);
    }
  }

  ghost predicate SleepsExactly(cfg: Config, s: State) {
    s.consumer.Asleep? && !s.consumer.notified && s.sh.items != [] ==>
      && s.sh.front < |s.sh.items| && s.consumer.deadline.Some?
      && s.consumer.deadline.value <= s.sh.items[s.sh.front].stamp + Window(cfg)
  }

  // "Never later than stamp plus window" holds in every run exactly for a clock that ticks in
  // milliseconds, a zero window, or a queue without room: ages are rounded down, so a finer clock
  // adds up to a millisecond.
  lemma SleepsExactlyIff(cfg: Config)
    requires ValidConfig(cfg) && cfg.discipline.Ordering?
    ensures (forall steps, s :: RunsTo(cfg, steps, s) ==> SleepsExactly(cfg, s))
            <==> (cfg.discipline.ticksPerMs == 1 || cfg.discipline.windowMs == 0 || cfg.capacity == Some(0))
  {
    if cfg.discipline.ticksPerMs == 1 || cfg.discipline.windowMs == 0 || cfg.capacity == Some(0) {
      forall steps, s | RunsTo(cfg, steps, s) ensures SleepsExactly(cfg, s) {
        ReachableInv(cfg, steps, s);
        if s.consumer.Asleep? && !s.consumer.notified && s.sh.items != [] {
          ZeroWindowNeverSleeps(cfg, Init(), steps);
          NoOversleep(cfg, steps, s);
        }
      }
    } else {
      var steps, s := LateSleeper(cfg);
    }
  }

  // With a zero window every queued record is ready, so the consumer never sets a deadline.
  lemma {:induction false} ZeroWindowNeverSleeps(cfg: Config, s: State, steps: seq<Step>)
    requires ValidConfig(cfg) && Inv(cfg, s) && CanRun(cfg, s, steps)
    requires cfg.discipline.Ordering? && cfg.discipline.windowMs == 0 ==>
               s.consumer.Asleep? ==> s.consumer.deadline.None?
    ensures cfg.discipline.Ordering? && cfg.discipline.windowMs == 0 ==>
              Run(cfg, s, steps).consumer.Asleep? ==> Run(cfg, s, steps).consumer.deadline.None?
    decreases |steps|
  {
    if steps == [] {
    } else {
      StepKeeps(cfg, s, steps[0]);
      ZeroWindowStep(cfg, s, steps[0]);
      ZeroWindowNeverSleeps(cfg, Apply(cfg, s, steps[0]), steps[1..]);
    }
  }

  lemma ZeroWindowStep(cfg: Config, s: State, step: Step)
    requires ListInv(s) && Enabled(cfg, s, step)
    requires cfg.discipline.Ordering? && cfg.discipline.windowMs == 0 ==>
               s.consumer.Asleep? ==> s.consumer.deadline.None?
    ensures cfg.discipline.Ordering? && cfg.discipline.windowMs == 0 ==>
              Apply(cfg, s, step).consumer.Asleep? ==> Apply(cfg, s, step).consumer.deadline.None?
  {
  }

  lemma LateSleeper(cfg: Config) returns (steps: seq<Step>, s: State)
    requires ValidConfig(cfg) && cfg.discipline.Ordering? && cfg.capacity != Some(0)
    requires cfg.discipline.ticksPerMs > 1 && cfg.discipline.windowMs > 0
    ensures RunsTo(cfg, steps, s) && !SleepsExactly(cfg, s)
  {
    steps := OneQueuedRun(cfg);
    s := SleepStep(cfg, OneQueued());
    steps := Extend(cfg, steps, OneQueued(), DequeueReadySection(1, 0), s);
  }

  // A record pushed at time zero.
  function OneQueued(): State {
    var e := Entry(0, 0, 0);
    Init().(calls := map[0 := Accepted], sh := Shared([e], 0, false, []), accepted := [e])
  }

  lemma OneQueuedRun(cfg: Config) returns (steps: seq<Step>)
    requires ValidConfig(cfg) && cfg.capacity != Some(0)
    ensures RunsTo(cfg, steps, OneQueued()) && ListInv(OneQueued())
  {
    InitInv(cfg);
    var s1 := Init().(calls := map[0 := Started(0)]);
    steps := Extend(cfg, [], Init(), StartCall(0, 0), s1);
    steps := Extend(cfg, steps, s1, EnqueueSection(0, 0, true), OneQueued());
  }

  // A tick later the consumer rounds the record's age down to nothing and sleeps a whole window.
  lemma SleepStep(cfg: Config, s: State) returns (t: State)
    requires ValidConfig(cfg) && cfg.discipline.Ordering? && ListInv(s) && s == OneQueued()
    requires cfg.discipline.ticksPerMs > 1 && cfg.discipline.windowMs > 0
    ensures Enabled(cfg, s, DequeueReadySection(1, 0)) && t == Apply(cfg, s, DequeueReadySection(1, 0))
    ensures !SleepsExactly(cfg, t)
  {
    assert AgeMs(cfg, Entry(0, 0, 0), 1) == 0;
    t := s.(consumer := Asleep(Some(1 + Window(cfg)), false), clock := 1);
  }

  lemma Extend(cfg: Config, steps: seq<Step>, s: State, step: Step, t: State) returns (longer: seq<Step>)
    requires ListInv(s) && RunsTo(cfg, steps, s) && Enabled(cfg, s, step) && t == Apply(cfg, s, step)
    ensures longer == steps + [step] && RunsTo(cfg, longer, t) && ListInv(t)
  {
    longer := steps + [step];
    ListInvStep(cfg, s, step);
    RunSnoc(cfg, Init(), steps, step);
  }

  lemma {:induction false} RunSnoc(cfg: Config, s: State, steps: seq<Step>, step: Step)
    requires ListInv(s) && CanRun(cfg, s, steps)
    requires ListInv(Run(cfg, s, steps)) && Enabled(cfg, Run(cfg, s, steps), step)
    ensures CanRun(cfg, s, steps + [step])
    ensures Run(cfg, s, steps + [step]) == Apply(cfg, Run(cfg, s, steps), step)
    decreases |steps|
  {
    if steps == [] {
      ListInvStep(cfg, s, step);
      assert (steps + [step])[1..] == [];
    } else {
      ListInvStep(cfg, s, steps[0]);
      RunSnoc(cfg, Apply(cfg, s, steps[0]), steps[1..], step);
      assert (steps + [step])[1..] == steps[1..] + [step];
    }
  }

  // A FIFO consumer that sleeps un-notified has nothing to pop and no interruption to answer.
  lemma NoLostWakeup(cfg: Config, steps: seq<Step>, s: State)
    requires ValidConfig(cfg) && RunsTo(cfg, steps, s)
    requires s.consumer.Asleep? && !s.consumer.notified
    ensures !s.sh.interruption
    ensures cfg.discipline.Fifo? ==> s.sh.items == []
  {
    ReachableInv(cfg, steps, s);
  }
}
