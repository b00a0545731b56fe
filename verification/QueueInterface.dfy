/**
 What the frontend may rely on in a queueing strategy: records are appended one at a time and
 removed one at a time from a position the discipline allows. Both the mutex-protected
 strategies and the event-based one are shown to do nothing else.
 */
module QueueInterface {
  import opened Records
  import QueueProtocol
  import QueueInvariants
  import EventQueue

  datatype Discipline = Fifo | Ordered(less: Order)

  // A dequeue may remove the record at `k`: the oldest one, or one that nothing precedes.
  ghost predicate MayRemove(d: Discipline, recs: seq<Record>, k: nat) {
    && k < |recs|
    && (d.Fifo? ==> k == 0)
    && (d.Ordered? ==> forall j :: 0 <= j < |recs| ==> !d.less(recs[j], recs[k]))
  }

  datatype Action = Append(rec: Record) | Remove(k: nat) | Raise | Answer | Quiet

  // The queue and its interruption flag before and after one action.
  ghost predicate Acts(d: Discipline, recs: seq<Record>, flag: bool, a: Action, recs': seq<Record>, flag': bool) {
    match a
    case Append(rec) => recs' == recs + [rec] && flag' == flag
    case Remove(k) => MayRemove(d, recs, k) && recs' == Without(recs, k) && flag' == flag
    case Raise => recs' == recs && flag'
    case Answer => recs' == recs && flag && !flag'
    case Quiet => recs' == recs && flag' == flag
  }

  // The ways to dequeue: at once, at once if a record is ready, and after waiting for one.
  datatype Dequeue = Plain | ReadyOnly | Blocking

  // When a dequeue may return without a record: never while the queue holds one that it could take.
  // A record of an ordering queue may have to wait for its window; a waiting dequeue answers an
  // interruption.
  ghost predicate MayFail(d: Discipline, kind: Dequeue, recs: seq<Record>, flag: bool) {
    match kind
    case Plain => recs == []
    case ReadyOnly => recs == [] || d.Ordered?
    case Blocking => flag
  }

  // ----- The mutex-protected strategies -----

  function DequeueOf(step: QueueProtocol.Step): Option<Dequeue> {
    match step
    case TryDequeue(_, _) => Some(Plain)
    case TryDequeueReady(_, _) => Some(ReadyOnly)
    case DequeueReadySection(_, _) => Some(Blocking)
    case _ => None
  }

  function DisciplineOf(cfg: QueueProtocol.Config): Discipline {
    if cfg.discipline.Fifo? then Fifo else Ordered(cfg.less)
  }

  lemma RemovedRecs(items: seq<QueueProtocol.Entry>, k: nat)
    requires k < |items|
    ensures QueueProtocol.Recs(Without(items, k)) == Without(QueueProtocol.Recs(items), k)
  {
  }

  // From `s` to `t` the strategy did `a`: a removal pops the record `a` names, and no other
  // action pops or accepts anything.
  ghost predicate OneAction(cfg: QueueProtocol.Config, s: QueueProtocol.State, t: QueueProtocol.State, a: Action) {
    && Acts(DisciplineOf(cfg), QueueProtocol.Recs(s.sh.items), s.sh.interruption, a,
            QueueProtocol.Recs(t.sh.items), t.sh.interruption)
    && |t.taken| == |s.taken| + (if a.Remove? then 1 else 0)
    && (a.Remove? ==> t.taken[|s.taken|].entry.rec == QueueProtocol.Recs(s.sh.items)[a.k])
    && |t.accepted| == |s.accepted| + (if a.Append? then 1 else 0)
  }

  lemma PopActs(cfg: QueueProtocol.Config, s: QueueProtocol.State, out: QueueProtocol.DequeueOutcome,
                now: nat, next: nat, ready: bool) returns (a: Action)
    requires QueueProtocol.ListInv(s) && QueueInvariants.CapacityInv(cfg, s)
    requires out.Got? ==> s.sh.items != [] && out.entry == s.sh.items[s.sh.front]
    requires out.Interrupted? ==> s.sh.interruption
    ensures OneAction(cfg, s, QueueProtocol.AfterDequeue(cfg, s, out, now, next, ready), a) && !a.Raise?
    ensures (a.Remove? <==> out.Got?) && (a.Answer? <==> out.Interrupted?)
  {
    if out.Got? {
      a := Remove(s.sh.front);
      RemovedRecs(s.sh.items, s.sh.front);
    } else if out.Interrupted? {
      a := Answer;
    } else {
      a := Quiet;
    }
  }

  lemma PushActs(cfg: QueueProtocol.Config, s: QueueProtocol.State, e: QueueProtocol.Entry, bf: bool)
    ensures OneAction(cfg, s, QueueProtocol.AfterPush(s, e, bf), Append(e.rec))
  {
    assert QueueProtocol.Recs(s.sh.items + [e]) == QueueProtocol.Recs(s.sh.items) + [e.rec];
  }

  lemma EnqueueActs(cfg: QueueProtocol.Config, s: QueueProtocol.State, id: QueueProtocol.CallId,
                    now: nat, bf: bool) returns (a: Action)
    requires QueueProtocol.CanRunSection(s, id)
    ensures OneAction(cfg, s, QueueProtocol.AfterEnqueue(cfg, s, id, now, bf), a) && !a.Raise?
  {
    var rec := s.calls[id].rec;
    if s.calls[id] != QueueProtocol.Released(rec, false) && !QueueProtocol.Full(cfg, s.sh) {
      PushActs(cfg, s, QueueProtocol.Entry(id, now, rec), bf);
      a := Append(rec);
    } else {
      a := Quiet;
    }
  }

  // Every critical section of a mutex-protected strategy is one action on the queue, and a dequeue
  // returns without a record only where it may.
  lemma MutexQueueActs(cfg: QueueProtocol.Config, s: QueueProtocol.State, step: QueueProtocol.Step)
      returns (a: Action)
    requires QueueProtocol.ListInv(s) && QueueInvariants.CapacityInv(cfg, s) && QueueProtocol.Enabled(cfg, s, step)
    ensures OneAction(cfg, s, QueueProtocol.Apply(cfg, s, step), a)
    ensures a.Raise? <==> step.InterruptDequeue?
    ensures DequeueOf(step).Some? && QueueProtocol.Apply(cfg, s, step).consumer.Away? && !a.Remove? ==>
              && MayFail(DisciplineOf(cfg), DequeueOf(step).value, QueueProtocol.Recs(s.sh.items), s.sh.interruption)
              && (step.DequeueReadySection? ==> a.Answer?)
              && (step.TryDequeueReady? && s.sh.items != [] ==>
                    !QueueProtocol.Ready(cfg, s.sh.items[s.sh.front], step.now))
  {
    match step
    case StartCall(id, rec) => a := Quiet;
    case SpuriousWake(id) => a := Quiet;
    case InterruptDequeue => a := Raise;
    case EnqueueSection(id, now, bf) => a := EnqueueActs(cfg, s, id, now, bf);
    case TryEnqueue(id, rec, now, bf, locked) =>
      if locked && !QueueProtocol.Full(cfg, s.sh) {
        PushActs(cfg, s, QueueProtocol.Entry(id, now, rec), bf);
        a := Append(rec);
      } else {
        a := Quiet;
      }
    case TryDequeue(now, next) =>
      a := PopActs(cfg, s, QueueProtocol.TryDequeueOutcome(s.sh), now, next, false);
    case TryDequeueReady(now, next) =>
      a := PopActs(cfg, s, QueueProtocol.TryDequeueReadyOutcome(cfg, s.sh, now), now, next, true);
    case DequeueReadySection(now, next) =>
      a := PopActs(cfg, s, QueueProtocol.DequeueReadyOutcome(cfg, s.sh, now), now, next, true);
  }

  // ----- The event-based strategy -----

  lemma EventQueueActs(s: EventQueue.State, step: EventQueue.Step) returns (a: Action)
    requires EventQueue.Inv(s) && EventQueue.Enabled(s, step)
    ensures var t := EventQueue.Apply(s, step);
      && Acts(Fifo, s.queue, s.interruption, a, t.queue, t.interruption)
      && (a.Raise? <==> step.Raise?)
      && |t.popped| == |s.popped| + (if a.Remove? then 1 else 0)
      && (a.Remove? ==> t.popped[|s.popped|] == s.queue[a.k])
      && |t.accepted| == |s.accepted| + (if a.Append? then 1 else 0)
      && (step.TryDequeue? && !a.Remove? ==>
            forall kind: Dequeue :: !kind.Blocking? ==> MayFail(Fifo, kind, s.queue, s.interruption))
      && (step.ConsumerStep? && t.consumer.Away? && !a.Remove? ==>
            a.Answer? && MayFail(Fifo, Blocking, s.queue, s.interruption))
  {
    match step
    case Push(t, rec) => a := Append(rec);
    case Raise(t) => a := Raise;
    case SignalPush(t) => a := Quiet;
    case SignalRaise(t) => a := Quiet;
    case BeginDequeueReady => a := Quiet;
    case TryDequeue => a := if s.queue == [] then Quiet else Remove(0);
    case ConsumerStep =>
      a := if (s.consumer.FirstPop? || s.consumer.LaterPop?) && s.queue != [] then Remove(0)
           else if s.consumer.ResetFlag? then Answer else Quiet;
  }
}
