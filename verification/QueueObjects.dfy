/**
 The queueing strategies as objects. Each method is one critical section, written the way the
 source updates its fields, and is proved to have the effect the step system gives that section.
 */
module QueueObjects {
  import opened Records
  import opened QueueProtocol
  import opened QueueInvariants

  // Index of an entry that may stand at the front of a container holding `items`.
  method ChooseFront(cfg: Config, items: seq<Entry>) returns (f: nat)
    requires ValidConfig(cfg) && items != []
    ensures FrontOk(cfg, items, f)
  {
    f := 0;
    if cfg.discipline.Ordering? {
      for i := 0 to |items|
        invariant f < |items|
        invariant forall k :: 0 <= k < i ==> !cfg.less(items[k].rec, items[f].rec)
      {
        if cfg.less(items[i].rec, items[f].rec) {
          f := i;
        }
      }
    }
  }

  class RecordQueue {
    const cfg: Config
    var items: seq<Entry>
    var front: nat
    var interruptionRequested: bool
    // The blocked contexts in link order, and the `result` field of every context linked so far.
    var threadContexts: seq<CallId>
    var results: map<CallId, bool>

    function Abs(): Shared
      reads this
    {
      Shared(items, front, interruptionRequested, threadContexts)
    }

    ghost predicate Valid()
      reads this
    {
      && ValidConfig(cfg)
      && (items != [] ==> FrontOk(cfg, items, front))
      && (forall id :: id in threadContexts ==> id in results && results[id])
    }

    constructor (cfg: Config)
      requires ValidConfig(cfg)
      ensures Valid() && this.cfg == cfg && Abs() == Init().sh && results == map[]
    {
      this.cfg := cfg;
      items, front, interruptionRequested, threadContexts, results := [], 0, false, [], map[];
    }

    // priority_queue::push, which moves the new entry to the top only if it precedes the old top
    method PushEntry(e: Entry) returns (ghost becomesFront: bool)
      requires Valid()
      modifies this`items, this`front
      ensures Valid() && PushOk(cfg, old(Abs()), e, becomesFront)
      ensures Abs() == Push(old(Abs()), e, becomesFront)
    {
      var up := items == [] || (cfg.discipline.Ordering? && cfg.less(e.rec, items[front].rec));
      if up {
        front := |items|;
      }
      items := items + [e];
      becomesFront := up;
    }

    method PopEntry() returns (rec: Entry, ghost next: nat)
      requires Valid() && items != []
      modifies this`items, this`front
      ensures Valid() && PopOk(cfg, old(Abs()), next) && rec == old(items[front])
      ensures Abs() == old(Abs()).(items := Without(old(items), old(front)), front := next)
    {
      rec := items[front];
      var rest := Without(items, front);
      if rest != [] {
        front := ChooseFront(cfg, rest);
      }
      items := rest;
      next := front;
    }

    method OnQueueSpaceAvailable()
      requires Valid()
      modifies this`threadContexts
      ensures Valid()
      ensures threadContexts == if old(threadContexts) == [] then [] else old(threadContexts)[1..]
    {
      if threadContexts != [] {
        threadContexts := threadContexts[1..];
      }
    }

    // Unlinks every blocked context and tells it to give up.
    method Interrupt()
      requires Valid()
      modifies this`threadContexts, this`results
      ensures Valid() && threadContexts == []
      ensures results.Keys == old(results.Keys)
      ensures forall id :: id in results ==>
                results[id] == (if id in old(threadContexts) then false else old(results)[id])
    {
      ghost var all := threadContexts;
      ghost var done: seq<CallId> := [];
      while threadContexts != []
        invariant all == done + threadContexts
        invariant results.Keys == old(results.Keys)
        invariant forall id :: id in results ==> results[id] == (if id in done then false else old(results)[id])
      {
        var context := threadContexts[0];
        assert context in all;
        results := results[context := false];
        done := done + [context];
        threadContexts := threadContexts[1..];
      }
    }

    method InterruptDequeue()
      requires Valid()
      modifies this`interruptionRequested, this`threadContexts, this`results
      ensures Valid() && Abs() == QueueProtocol.Interrupt(old(Abs()))
      ensures results.Keys == old(results.Keys)
      ensures forall id :: id in results ==>
                results[id] == (if id in old(threadContexts) then false else old(results)[id])
    {
      interruptionRequested := true;
      Interrupt();
    }

    // `enqueue` up to its return or its next wait; `resumed` when `on_overflow` returns to it.
    method Enqueue(id: CallId, rec: Record, now: nat, resumed: bool)
        returns (outcome: EnqueueOutcome, notify: bool, ghost becomesFront: bool)
      requires Valid() && id !in threadContexts && (resumed ==> id in results)
      modifies this
      ensures Valid()
      ensures resumed && !old(results)[id] ==> outcome == Discarded && Abs() == old(Abs())
      ensures !(resumed && !old(results)[id]) ==>
                && outcome == EnqueueOutcomeOf(cfg, old(Abs()))
                && Abs() == EnqueueEffect(cfg, old(Abs()), Entry(id, now, rec), becomesFront)
                && (outcome.Pushed? ==> PushOk(cfg, old(Abs()), Entry(id, now, rec), becomesFront))
      ensures notify <==> outcome.Pushed? && old(items) == []
      ensures results == if outcome.Linked? then old(results)[id := true] else old(results)
      // in terms of the fields: no record gets past a full queue, and only a full queue turns one away
      ensures interruptionRequested == old(interruptionRequested)
      ensures !(resumed && !old(results)[id]) ==>
                if cfg.capacity.None? || |old(items)| < cfg.capacity.value then
                  items == old(items) + [Entry(id, now, rec)] && threadContexts == old(threadContexts)
                else
                  items == old(items) && threadContexts == old(threadContexts) + if cfg.blocking then [id] else []
    {
      notify, becomesFront := false, false;
      if resumed && !results[id] {
        return Discarded, notify, becomesFront;
      }
      var size := |items|;
      if cfg.capacity.Some? && size >= cfg.capacity.value {
        if !cfg.blocking {
          return Discarded, notify, becomesFront;
        }
        results := results[id := true];
        threadContexts := threadContexts + [id];
        return Linked, notify, becomesFront;
      }
      becomesFront := PushEntry(Entry(id, now, rec));
      return Pushed, size == 0, becomesFront;
    }

    method TryEnqueue(id: CallId, rec: Record, now: nat, locked: bool)
        returns (ok: bool, notify: bool, ghost becomesFront: bool)
      requires Valid()
      modifies this
      ensures Valid() && results == old(results)
      ensures ok <==> locked && (cfg.capacity.None? || |old(items)| < cfg.capacity.value)
      ensures items == old(items) + if ok then [Entry(id, now, rec)] else []
      ensures !ok ==> Abs() == old(Abs())
      ensures ok ==> PushOk(cfg, old(Abs()), Entry(id, now, rec), becomesFront)
      ensures ok ==> Abs() == Push(old(Abs()), Entry(id, now, rec), becomesFront)
      ensures notify <==> ok && old(items) == []
    {
      ok, notify, becomesFront := false, false, false;
      if locked {
        var size := |items|;
        if cfg.capacity.None? || size < cfg.capacity.value {
          becomesFront := PushEntry(Entry(id, now, rec));
          ok, notify := true, size == 0;
        }
      }
    }

    // pop(), then the report of free space
    method Take() returns (outcome: DequeueOutcome, ghost next: nat)
      requires Valid() && items != []
      modifies this
      ensures Valid() && results == old(results)
      ensures outcome == Got(old(items[front])) && PopOk(cfg, old(Abs()), next)
      ensures Abs() == Pop(cfg, old(Abs()), next)
      ensures items == Without(old(items), old(front)) && interruptionRequested == old(interruptionRequested)
      ensures threadContexts == if cfg.capacity == Some(|old(items)|) && old(threadContexts) != []
                                then old(threadContexts)[1..] else old(threadContexts)
    {
      var size := |items|;
      var rec;
      rec, next := PopEntry();
      if cfg.capacity.Some? && size == cfg.capacity.value {
        OnQueueSpaceAvailable();
      }
      outcome := Got(rec);
    }

    lemma FrontReadyIff(now: nat)
      requires Valid() && Timely(cfg, Abs(), now)
      ensures items != [] ==> (Ready(cfg, items[front], now) <==> items[front].stamp + Window(cfg) <= now)
      ensures items != [] && !Ready(cfg, items[front], now) ==>
                var ripe := items[front].stamp + Window(cfg);
                cfg.discipline.Ordering? && ripe <= Deadline(cfg, items[front], now) < ripe + Tick(cfg)
    {
      if items != [] {
        ReadyIffWindowPassed(cfg, items[front], now);
        if !Ready(cfg, items[front], now) {
          DeadlineBounds(cfg, items[front], now);
        }
      }
    }

    method TryDequeue() returns (outcome: DequeueOutcome, ghost next: nat)
      requires Valid()
      modifies this
      ensures Valid() && results == old(results)
      ensures outcome == TryDequeueOutcome(old(Abs()))
      ensures outcome.Got? ==> PopOk(cfg, old(Abs()), next)
      ensures Abs() == DequeueEffect(cfg, old(Abs()), outcome, next)
      ensures if old(items) == [] then outcome == Nothing && Abs() == old(Abs())
              else outcome == Got(old(items[front])) && items == Without(old(items), old(front))
      ensures interruptionRequested == old(interruptionRequested)
    {
      outcome, next := Nothing, 0;
      if |items| > 0 {
        outcome, next := Take();
      }
    }

    method TryDequeueReady(now: nat) returns (outcome: DequeueOutcome, ghost next: nat)
      requires Valid() && Timely(cfg, Abs(), now)
      modifies this
      ensures Valid() && results == old(results)
      ensures outcome == TryDequeueReadyOutcome(cfg, old(Abs()), now)
      ensures outcome.Got? ==> PopOk(cfg, old(Abs()), next)
      ensures Abs() == DequeueEffect(cfg, old(Abs()), outcome, next)
      // only a front that has stayed for the window leaves, and it does
      ensures if old(items) != [] && old(items[front]).stamp + Window(cfg) <= now
              then outcome == Got(old(items[front])) && items == Without(old(items), old(front))
              else outcome == Nothing && Abs() == old(Abs())
      ensures interruptionRequested == old(interruptionRequested)
    {
      FrontReadyIff(now);
      outcome, next := Nothing, 0;
      if |items| > 0 {
        if Ready(cfg, items[front], now) {
          outcome, next := Take();
        }
      }
    }

    // `dequeue_ready` from the head of its loop to its return or its next wait.
    method DequeueReady(now: nat) returns (outcome: DequeueOutcome, ghost next: nat)
      requires Valid() && Timely(cfg, Abs(), now)
      modifies this
      ensures Valid() && results == old(results)
      ensures outcome == DequeueReadyOutcome(cfg, old(Abs()), now)
      ensures outcome.Got? ==> PopOk(cfg, old(Abs()), next)
      ensures Abs() == DequeueEffect(cfg, old(Abs()), outcome, next)
      // an interruption comes first, whatever is queued
      ensures old(interruptionRequested) ==>
                outcome == Interrupted && !interruptionRequested && items == old(items) && front == old(front)
      ensures !old(interruptionRequested) ==> !interruptionRequested
      ensures !old(interruptionRequested) && old(items) == [] ==> outcome == Sleep(None) && items == []
      ensures !old(interruptionRequested) && old(items) != [] ==>
                var ripe := old(items[front]).stamp + Window(cfg);
                if ripe <= now then outcome == Got(old(items[front])) && items == Without(old(items), old(front))
                else
                  && items == old(items) && outcome.Sleep? && outcome.deadline.Some?
                  && ripe <= outcome.deadline.value < ripe + Tick(cfg)
    {
      FrontReadyIff(now);
      next := 0;
      if interruptionRequested {
        interruptionRequested := false;
        return Interrupted, next;
      }
      if |items| == 0 {
        return Sleep(None), next;
      }
      if Ready(cfg, items[front], now) {
        outcome, next := Take();
      } else {
        outcome := Sleep(Some(now + SleepMs(cfg, items[front], now) * cfg.discipline.ticksPerMs));
      }
    }
  }
}
