/** How the critical sections of the queueing strategies end, in terms of the fields they leave behind. */
module SectionEnds {
  import opened Records
  import opened QueueProtocol
  import opened QueueInvariants

  // The entry at the front has stayed for the window.
  predicate Ripe(cfg: Config, sh: Shared, now: nat)
    requires sh.items != [] ==> sh.front < |sh.items|
  {
    sh.items != [] && sh.items[sh.front].stamp + Window(cfg) <= now
  }

  // From `s` to `t` the front entry was popped and handed out.
  ghost predicate Popped(s: State, t: State, now: nat, ready: bool)
    requires s.sh.front < |s.sh.items|
  {
    && t.sh.items == Without(s.sh.items, s.sh.front) && t.taken == s.taken + [Taken(s.sh.items[s.sh.front], now, ready)]
    && t.accepted == s.accepted && t.sh.interruption == s.sh.interruption
    && t.consumer.Away?
  }

  // No entry came or went.
  ghost predicate Undisturbed(s: State, t: State) {
    t.sh.items == s.sh.items && t.sh.contexts == s.sh.contexts && t.taken == s.taken && t.accepted == s.accepted
  }

  // A waiting dequeue answers an interruption before it looks at the queue. Otherwise it takes the front
  // once that has stayed for the window, and sleeps until then, or without limit over an empty queue.
  lemma DequeueReadyEnds(cfg: Config, s: State, now: nat, next: nat)
    requires ValidConfig(cfg) && ListInv(s) && Enabled(cfg, s, DequeueReadySection(now, next))
    ensures var t := Apply(cfg, s, DequeueReadySection(now, next));
      && !t.sh.interruption
      && (s.sh.interruption ==> Undisturbed(s, t) && t.consumer.Away?)
      && (!s.sh.interruption && Ripe(cfg, s.sh, now) ==> Popped(s, t, now, true))
      && (!s.sh.interruption && !Ripe(cfg, s.sh, now) ==>
            && Undisturbed(s, t) && t.consumer.Asleep? && !t.consumer.notified
            && (t.consumer.deadline.None? <==> s.sh.items == [])
            && (t.consumer.deadline.Some? ==>
                  var ripe := s.sh.items[s.sh.front].stamp + Window(cfg);
                  ripe <= t.consumer.deadline.value < ripe + Tick(cfg)))
  {
    if s.sh.items != [] {
      FrontRipe(cfg, s, now);
    }
  }

  // The dequeues that do not wait: one takes any front, the other one only a front that has stayed.
  lemma TryDequeuesEnd(cfg: Config, s: State, now: nat, next: nat)
    requires ValidConfig(cfg) && ListInv(s)
    ensures Enabled(cfg, s, TryDequeue(now, next)) ==>
              var t := Apply(cfg, s, TryDequeue(now, next));
              if s.sh.items == [] then Undisturbed(s, t) && t.consumer.Away? && t.sh.interruption == s.sh.interruption
              else Popped(s, t, now, false)
    ensures Enabled(cfg, s, TryDequeueReady(now, next)) ==>
              var t := Apply(cfg, s, TryDequeueReady(now, next));
              if Ripe(cfg, s.sh, now) then Popped(s, t, now, true)
              else Undisturbed(s, t) && t.consumer.Away? && t.sh.interruption == s.sh.interruption
  {
    if s.sh.items != [] && Enabled(cfg, s, TryDequeueReady(now, next)) {
      FrontRipe(cfg, s, now);
    }
  }

  predicate HasRoom(cfg: Config, s: State) {
    cfg.capacity.None? || |s.sh.items| < cfg.capacity.value
  }

  // A section of `enqueue`: the call gives up if an interruption has unlinked it. Otherwise it is done
  // when there is room, and without room it waits in line or loses its record, as the strategy says.
  lemma EnqueueEnds(cfg: Config, s: State, id: CallId, now: nat, becomesFront: bool)
    requires ListInv(s) && Enabled(cfg, s, EnqueueSection(id, now, becomesFront))
    ensures var t, c := Apply(cfg, s, EnqueueSection(id, now, becomesFront)), s.calls[id];
      && t.taken == s.taken && t.sh.interruption == s.sh.interruption
      && t.calls.Keys == s.calls.Keys && (forall x :: x in s.calls && x != id ==> t.calls[x] == s.calls[x])
      && if !(c.Released? && !c.retry) && HasRoom(cfg, s) then
           && t.calls[id].Accepted? && t.accepted == s.accepted + [Entry(id, now, c.rec)]
           && t.sh.items == s.sh.items + [Entry(id, now, c.rec)] && t.sh.contexts == s.sh.contexts
           && (s.sh.items == [] && s.consumer.Asleep? ==> t.consumer.Asleep? && t.consumer.notified)
         else
           && t.accepted == s.accepted && t.sh.items == s.sh.items && t.consumer == s.consumer
           && if !(c.Released? && !c.retry) && cfg.blocking then
                t.calls[id] == Waiting(c.rec) && t.sh.contexts == s.sh.contexts + [id]
              else t.calls[id].Dropped? && t.sh.contexts == s.sh.contexts
  {
  }

  // `try_enqueue` never waits and fails only for want of the mutex or of room.
  lemma TryEnqueueEnds(cfg: Config, s: State, id: CallId, rec: Record, now: nat, becomesFront: bool, locked: bool)
    requires ListInv(s) && Enabled(cfg, s, TryEnqueue(id, rec, now, becomesFront, locked))
    ensures var t := Apply(cfg, s, TryEnqueue(id, rec, now, becomesFront, locked));
      && t.taken == s.taken && t.sh.interruption == s.sh.interruption && t.sh.contexts == s.sh.contexts
      && id in t.calls && (forall x :: x in s.calls ==> x in t.calls && t.calls[x] == s.calls[x])
      && if locked && HasRoom(cfg, s) then
           && t.calls[id].Accepted? && t.accepted == s.accepted + [Entry(id, now, rec)]
           && t.sh.items == s.sh.items + [Entry(id, now, rec)]
           && (s.sh.items == [] && s.consumer.Asleep? ==> t.consumer.Asleep? && t.consumer.notified)
         else
           t.calls[id].Refused? && t.accepted == s.accepted && t.sh.items == s.sh.items && t.consumer == s.consumer
  {
  }

  // An interruption turns every waiting call away, wakes the consumer and touches no record.
  lemma InterruptEnds(cfg: Config, s: State)
    requires ListInv(s)
    ensures var t := Apply(cfg, s, InterruptDequeue);
      && t.sh.interruption && t.sh.contexts == [] && t.sh.items == s.sh.items
      && t.taken == s.taken && t.accepted == s.accepted && t.calls.Keys == s.calls.Keys
      && (forall id :: id in s.calls ==>
            t.calls[id] == if s.calls[id].Waiting? then Released(s.calls[id].rec, false) else s.calls[id])
      && (s.consumer.Asleep? ==> t.consumer.Asleep? && t.consumer.notified)
      && (s.consumer.Away? ==> t.consumer.Away?)
  {
  }

  // ----- Every section can be carried out -----

  // Some entry of a heap may stand on top of it.
  lemma {:induction false} FrontExists(cfg: Config, items: seq<Entry>) returns (f: nat)
    requires ValidConfig(cfg) && items != []
    ensures FrontOk(cfg, items, f)
  {
    if |items| == 1 || cfg.discipline.Fifo? {
      f := 0;
    } else {
      f := FrontExists(cfg, items[1..]);
      if cfg.less(items[0].rec, items[1..][f].rec) {
        f := 0;
      } else {
        f := f + 1;
      }
      FrontOfMore(cfg, items, f);
    }
  }

  lemma FrontOfMore(cfg: Config, items: seq<Entry>, f: nat)
    requires ValidConfig(cfg) && cfg.discipline.Ordering? && f < |items| && items != []
    requires exists g: nat :: FrontOk(cfg, items[1..], g) &&
               f == if cfg.less(items[0].rec, items[1..][g].rec) then 0 else g + 1
    ensures FrontOk(cfg, items, f)
  {
    var g: nat :| FrontOk(cfg, items[1..], g) && f == if cfg.less(items[0].rec, items[1..][g].rec) then 0 else g + 1;
    forall k | 0 <= k < |items| ensures !cfg.less(items[k].rec, items[f].rec) {
      if k > 0 {
        assert !cfg.less(items[1..][k - 1].rec, items[1..][g].rec);
      }
    }
  }

  lemma PushExists(cfg: Config, s: State, e: Entry) returns (becomesFront: bool)
    requires ValidConfig(cfg) && CapacityInv(cfg, s)
    ensures PushOk(cfg, s.sh, e, becomesFront)
  {
    if s.sh.items == [] {
      becomesFront := true;
    } else {
      becomesFront := cfg.discipline.Ordering? && cfg.less(e.rec, s.sh.items[s.sh.front].rec);
    }
  }

  // The stamps there are lie in the past, so ages can be told.
  lemma TimelyNow(cfg: Config, s: State, now: nat)
    requires ValidConfig(cfg) && Inv(cfg, s) && s.clock <= now
    ensures Timely(cfg, s.sh, now)
  {
  }

  lemma PopExists(cfg: Config, s: State) returns (next: nat)
    requires ValidConfig(cfg) && CapacityInv(cfg, s)
    ensures s.sh.items != [] ==> PopOk(cfg, s.sh, next)
  {
    next := 0;
    if |s.sh.items| > 1 {
      next := FrontExists(cfg, Without(s.sh.items, s.sh.front));
    }
  }

  // In every reachable state and at any later time, whoever wants to enqueue or dequeue can.
  lemma SectionsEnabled(cfg: Config, s: State, now: nat, id: CallId, rec: Record, locked: bool)
      returns (next: nat, becomesFront: bool)
    requires ValidConfig(cfg) && Inv(cfg, s) && s.clock <= now
    ensures CanRunSection(s, id) ==> Enabled(cfg, s, EnqueueSection(id, now, becomesFront))
    ensures id !in s.calls ==> Enabled(cfg, s, StartCall(id, rec))
    ensures id !in s.calls ==> Enabled(cfg, s, TryEnqueue(id, rec, now, becomesFront, locked))
    ensures s.consumer.Away? ==> Enabled(cfg, s, TryDequeue(now, next)) && Enabled(cfg, s, TryDequeueReady(now, next))
    ensures Enabled(cfg, s, DequeueReadySection(now, next)) && Enabled(cfg, s, InterruptDequeue)
  {
    becomesFront := PushExists(cfg, s, Entry(id, now, if CanRunSection(s, id) then s.calls[id].rec else rec));
    next := PopExists(cfg, s);
    TimelyNow(cfg, s, now);
  }

  lemma FrontRipe(cfg: Config, s: State, now: nat)
    requires ValidConfig(cfg) && ListInv(s) && Timely(cfg, s.sh, now) && s.sh.items != []
    ensures Ripe(cfg, s.sh, now) <==> Ready(cfg, s.sh.items[s.sh.front], now)
    ensures !Ripe(cfg, s.sh, now) ==>
              var e := s.sh.items[s.sh.front];
              var ripe := e.stamp + Window(cfg);
              cfg.discipline.Ordering? && ripe <= Deadline(cfg, e, now) < ripe + Tick(cfg)
  {
    ReadyIffWindowPassed(cfg, s.sh.items[s.sh.front], now);
    if !Ripe(cfg, s.sh, now) {
      DeadlineBounds(cfg, s.sh.items[s.sh.front], now);
    }
  }
}
