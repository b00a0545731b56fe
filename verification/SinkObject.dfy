/**
 The feeding loop of `asynchronous_sink` as the source writes it, over a queue object, for a
 stretch in which no other thread acts: what one `do_feed_records`, `feed_records` or `flush`
 does to the queue, the flags and the backend.
 */
module SinkObject {
  import opened Records
  import opened QueueProtocol
  import opened QueueObjects

  // `fed` left the queue `before`, which became `after`, in an order the discipline allows.
  ghost predicate FedFrom(cfg: Config, before: seq<Entry>, fed: seq<Entry>, after: seq<Entry>) {
    && multiset(before) == multiset(fed) + multiset(after)
    && (cfg.discipline.Fifo? ==> before == fed + after)
    && (cfg.discipline.Ordering? ==> SortedBy(cfg.less, Recs(fed)) && NoneBefore(cfg, fed, after))
  }

  // Nothing left in the queue strictly precedes anything fed.
  ghost predicate NoneBefore(cfg: Config, fed: seq<Entry>, after: seq<Entry>) {
    forall i, k :: 0 <= i < |fed| && 0 <= k < |after| ==> !cfg.less(after[k].rec, fed[i].rec)
  }

  // All of them have been queued for the ordering window.
  ghost predicate AllStayed(cfg: Config, fed: seq<Entry>, now: nat) {
    forall e :: e in fed ==> e.stamp + Window(cfg) <= now
  }

  lemma FedOneMore(cfg: Config, before: seq<Entry>, fed: seq<Entry>, after: seq<Entry>, f: nat)
    requires FedFrom(cfg, before, fed, after) && FrontOk(cfg, after, f)
    ensures FedFrom(cfg, before, fed + [after[f]], Without(after, f))
  {
    ConservedOneMore(before, fed, after, f);
    if cfg.discipline.Fifo? {
      FirstOneMore(before, fed, after);
    } else {
      SortedOneMore(cfg, fed, after, f);
    }
  }

  lemma FedNothing(cfg: Config, items: seq<Entry>)
    ensures FedFrom(cfg, items, [], items)
  {
  }

  lemma FirstOneMore(before: seq<Entry>, fed: seq<Entry>, after: seq<Entry>)
    requires after != [] && before == fed + after
    ensures before == fed + [after[0]] + Without(after, 0)
  {
    var e, rest := after[0], after[1..];
    assert after == [e] + rest;
    assert fed + ([e] + rest) == (fed + [e]) + rest;
  }

  lemma ConservedOneMore(before: seq<Entry>, fed: seq<Entry>, after: seq<Entry>, f: nat)
    requires f < |after| && multiset(before) == multiset(fed) + multiset(after)
    ensures multiset(before) == multiset(fed + [after[f]]) + multiset(Without(after, f))
  {
    assert after[f] in multiset(after);
    assert multiset(after) == multiset(Without(after, f)) + multiset{after[f]};
  }

  lemma SortedOneMore(cfg: Config, fed: seq<Entry>, after: seq<Entry>, f: nat)
    requires f < |after| && SortedBy(cfg.less, Recs(fed)) && NoneBefore(cfg, fed, after)
    requires forall k :: 0 <= k < |after| ==> !cfg.less(after[k].rec, after[f].rec)
    ensures SortedBy(cfg.less, Recs(fed + [after[f]])) && NoneBefore(cfg, fed + [after[f]], Without(after, f))
  {
    assert Recs(fed + [after[f]]) == Recs(fed) + [after[f].rec];
  }

  lemma TimelyAfter(cfg: Config, sh: Shared, next: nat, now: nat)
    requires Timely(cfg, sh, now) && sh.items != [] && PopOk(cfg, sh, next)
    ensures Timely(cfg, Pop(cfg, sh, next), now)
  {
  }

  class AsynchronousSink {
    const queue: RecordQueue
    var stopRequested: bool
    var flushRequested: bool
    // m_FeedingThreadID names a thread
    var feeding: bool
    var clock: nat
    // What the backend was given, and how much of it at each of its flushes.
    var offered: seq<Entry>
    var flushes: seq<nat>

    ghost predicate Valid()
      reads this, queue
    {
      queue.Valid() && Timely(queue.cfg, queue.Abs(), clock)
    }

    constructor (cfg: Config)
      requires ValidConfig(cfg)
      ensures Valid() && fresh(queue) && queue.cfg == cfg && !stopRequested && !flushRequested && !feeding
      ensures offered == [] && flushes == []
    {
      queue := new RecordQueue(cfg);
      stopRequested, flushRequested, feeding, clock, offered, flushes := false, false, false, 0, [], [];
    }

    // One pass of the loop: false when it has to end.
    method FeedOne() returns (dequeued: bool)
      requires Valid() && !stopRequested
      modifies this`clock, this`offered, queue
      ensures Valid() && old(clock) <= clock
      ensures dequeued ==>
                && old(queue.items) != [] && FrontOk(queue.cfg, old(queue.items), old(queue.front))
                && offered == old(offered) + [old(queue.items[queue.front])]
                && queue.items == Without(old(queue.items), old(queue.front))
                && (!flushRequested ==> old(queue.items[queue.front]).stamp + Window(queue.cfg) <= clock)
      ensures !dequeued ==> offered == old(offered) && queue.items == old(queue.items) && LoopOver()
    {
      var now: nat :| clock <= now;
      clock := now;
      var outcome;
      ghost var next;
      if !flushRequested {
        outcome, next := queue.TryDequeueReady(clock);
      } else {
        outcome, next := queue.TryDequeue();
      }
      dequeued := outcome.Got?;
      if dequeued {
        TimelyAfter(queue.cfg, old(queue.Abs()), next, clock);
        offered := offered + [outcome.entry];
      }
    }

    // The same pass, keeping account of what left the queue `before`.
    method FeedOneOf(ghost before: seq<Entry>, ghost fed: seq<Entry>, ghost earlier: seq<Entry>)
        returns (dequeued: bool, ghost more: seq<Entry>)
      requires Valid() && !stopRequested && FedFrom(queue.cfg, before, fed, queue.items) && offered == earlier + fed
      modifies this`clock, this`offered, queue
      ensures Valid() && FedFrom(queue.cfg, before, more, queue.items)
      ensures offered == earlier + more
      ensures old(clock) <= clock
      ensures !flushRequested && AllStayed(queue.cfg, fed, old(clock)) ==> AllStayed(queue.cfg, more, clock)
      ensures if dequeued then |queue.items| < |old(queue.items)|
              else more == fed && |queue.items| == |old(queue.items)| && LoopOver()
    {
      dequeued := FeedOne();
      more := fed;
      if dequeued {
        FedOneMore(queue.cfg, before, fed, old(queue.items), old(queue.front));
        more := fed + [old(queue.items[queue.front])];
        assert earlier + more == (earlier + fed) + [old(queue.items[queue.front])];
      }
    }

    // Feeds until a dequeue fails.
    method FeedLoop() returns (ghost fed: seq<Entry>)
      requires Valid()
      modifies this`clock, this`offered, queue
      ensures Valid() && offered == old(offered) + fed
      ensures FedFrom(queue.cfg, old(queue.items), fed, queue.items)
      ensures stopRequested ==> fed == []
      ensures !stopRequested ==> LoopOver()
      ensures !flushRequested ==> AllStayed(queue.cfg, fed, clock)
    {
      fed := [];
      FedNothing(queue.cfg, queue.items);
      ghost var before, earlier := queue.items, offered;
      var dequeued := true;
      while !stopRequested && dequeued
        invariant Valid() && offered == earlier + fed
        invariant FedFrom(queue.cfg, before, fed, queue.items)
        invariant stopRequested ==> fed == []
        invariant !dequeued ==> LoopOver()
        invariant !flushRequested ==> AllStayed(queue.cfg, fed, clock)
        decreases |queue.items|, dequeued
      {
        dequeued, fed := FeedOneOf(before, fed, earlier);
      }
    }

    // What a failed dequeue means: nothing is queued, or the front still has to wait.
    ghost predicate LoopOver()
      requires Valid()
      reads this, queue
    {
      queue.items != [] ==> !flushRequested && clock < queue.items[queue.front].stamp + Window(queue.cfg)
    }

    // The loop, then the answer to a flush request.
    method DoFeedRecords() returns (ghost fed: seq<Entry>)
      requires Valid()
      modifies this`clock, this`offered, this`flushRequested, this`flushes, queue
      ensures Valid() && offered == old(offered) + fed && !flushRequested
      ensures FedFrom(queue.cfg, old(queue.items), fed, queue.items)
      ensures stopRequested ==> fed == []
      ensures !stopRequested ==> LoopOver() && (old(flushRequested) ==> queue.items == [])
      ensures flushes == old(flushes) + if old(flushRequested) then [|offered|] else []
      ensures !old(flushRequested) ==> AllStayed(queue.cfg, fed, clock)
    {
      fed := FeedLoop();
      if flushRequested {
        flushes := flushes + [|offered|];
        flushRequested := false;
      }
    }

    // `feed_records`, which throws when another thread feeds already.
    method FeedRecords() returns (ok: bool, ghost fed: seq<Entry>)
      requires Valid()
      modifies this, queue
      ensures Valid() && ok == !old(feeding) && feeding == old(feeding)
      ensures !ok ==> fed == [] && queue.Abs() == old(queue.Abs()) && stopRequested == old(stopRequested)
      ensures ok ==> !stopRequested
      ensures offered == old(offered) + fed
      ensures FedFrom(queue.cfg, old(queue.items), fed, queue.items)
      ensures ok && !old(stopRequested) ==> LoopOver() && (old(flushRequested) ==> queue.items == [])
      ensures old(stopRequested) ==> fed == []
      ensures ok ==> flushes == old(flushes) + if old(flushRequested) then [|offered|] else []
      ensures !old(flushRequested) ==> AllStayed(queue.cfg, fed, clock)
    {
      ok, fed := !feeding, [];
      if ok {
        fed := FeedGuarded();
      } else {
        FedNothing(queue.cfg, queue.items);
        assert offered + fed == offered;
      }
    }

    // The loop while this thread is the feeder; leaving, it takes a pending stop down.
    method FeedGuarded() returns (ghost fed: seq<Entry>)
      requires Valid() && !feeding
      modifies this, queue
      ensures Valid() && !feeding && !stopRequested && !flushRequested && offered == old(offered) + fed
      ensures FedFrom(queue.cfg, old(queue.items), fed, queue.items)
      ensures if old(stopRequested) then fed == [] else LoopOver() && (old(flushRequested) ==> queue.items == [])
      ensures flushes == old(flushes) + if old(flushRequested) then [|offered|] else []
      ensures !old(flushRequested) ==> AllStayed(queue.cfg, fed, clock)
    {
      feeding := true;
      fed := DoFeedRecords();
      stopRequested, feeding := false, false;
    }

    // `flush` when no thread feeds: whatever is queued comes out in order and the backend is flushed last.
    method FlushSelf() returns (ghost fed: seq<Entry>)
      requires Valid() && !feeding
      modifies this, queue
      ensures Valid() && !feeding && !flushRequested && !stopRequested
      ensures offered == old(offered) + fed && flushes == old(flushes) + [|offered|]
      ensures FedFrom(queue.cfg, old(queue.items), fed, queue.items)
      ensures old(stopRequested) ==> fed == []
      ensures !old(stopRequested) ==> queue.items == [] && multiset(fed) == multiset(old(queue.items))
    {
      flushRequested := true;
      fed := FeedGuarded();
    }
  }
}
