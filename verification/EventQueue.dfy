/**
 `unbounded_fifo_queue`: a thread-safe FIFO, a sticky event and an interruption flag that no
 mutex protects. Every read and write of the three is a step of its own, so producers stand
 between their push and their signal, interrupters between raising the flag and signalling it,
 and the consumer between any two operations of `dequeue_ready`.
 */
module EventQueue {
  import opened Records

  type ThreadId = nat

  // Where the consumer is: not dequeueing, about to pop for the first time, at the event's wait,
  // about to test the flag, about to reset it, about to pop after a wait.
  datatype Consumer = Away | FirstPop | AtWait | TestFlag | ResetFlag | LaterPop

  datatype State = State(
    queue: seq<Record>, signalled: bool, interruption: bool, consumer: Consumer,
    pushers: set<ThreadId>, raisers: set<ThreadId>,
    accepted: seq<Record>, popped: seq<Record>)

  function Init(): State {
    State([], false, false, Away, {}, {}, [], [])
  }

  datatype Step =
    | Push(t: ThreadId, rec: Record)
    | SignalPush(t: ThreadId)
    | Raise(t: ThreadId)
    | SignalRaise(t: ThreadId)
    | TryDequeue
    | BeginDequeueReady
    | ConsumerStep

  predicate Enabled(s: State, step: Step) {
    match step
    case Push(t, _) => t !in s.pushers
    case SignalPush(t) => t in s.pushers
    case Raise(t) => t !in s.raisers
    case SignalRaise(t) => t in s.raisers
    case TryDequeue => s.consumer.Away?
    case BeginDequeueReady => s.consumer.Away?
    case ConsumerStep => !s.consumer.Away? && (s.consumer.AtWait? ==> s.signalled)
  }

  // try_pop, going on to `failed` when the queue is empty
  function PopOr(s: State, failed: Consumer): State {
    if s.queue == [] then s.(consumer := failed)
    else s.(queue := s.queue[1..], popped := s.popped + [s.queue[0]], consumer := Away)
  }

  function Apply(s: State, step: Step): State
    requires Enabled(s, step)
  {
    match step
    case Push(t, rec) =>
      s.(queue := s.queue + [rec], accepted := s.accepted + [rec], pushers := s.pushers + {t})
    case SignalPush(t) => s.(signalled := true, pushers := s.pushers - {t})
    case Raise(t) => s.(interruption := true, raisers := s.raisers + {t})
    case SignalRaise(t) => s.(signalled := true, raisers := s.raisers - {t})
    case TryDequeue => PopOr(s, Away)
    case BeginDequeueReady => s.(consumer := FirstPop)
    case ConsumerStep =>
      match s.consumer
      case FirstPop => PopOr(s, AtWait)
      case AtWait => s.(signalled := false, consumer := TestFlag)
      case TestFlag => s.(consumer := if s.interruption then ResetFlag else LaterPop)
      case ResetFlag => s.(interruption := false, consumer := Away)
      case LaterPop => PopOr(s, AtWait)
      case Away => s
  }

  ghost predicate CanRun(s: State, steps: seq<Step>)
    decreases |steps|
  {
    steps == [] || (Enabled(s, steps[0]) && CanRun(Apply(s, steps[0]), steps[1..]))
  }

  ghost function Run(s: State, steps: seq<Step>): State
    requires CanRun(s, steps)
    decreases |steps|
  {
    if steps == [] then s else Run(Apply(s, steps[0]), steps[1..])
  }

  ghost predicate Inv(s: State) {
    && s.accepted == s.popped + s.queue
    && (s.consumer.AtWait? && s.queue != [] ==> s.signalled || s.pushers != {})
    && (s.interruption ==> s.signalled || s.raisers != {} || s.consumer.TestFlag? || s.consumer.ResetFlag?)
    && (s.consumer.ResetFlag? ==> s.interruption)
  }

  lemma StepKeeps(s: State, step: Step)
    requires Inv(s) && Enabled(s, step)
    ensures Inv(Apply(s, step))
  {
    var t := Apply(s, step);
    Conserves(s, step);
    if step.ConsumerStep? {
      ConsumerKeeps(s);
    }
  }

  lemma Conserves(s: State, step: Step)
    requires s.accepted == s.popped + s.queue && Enabled(s, step)
    ensures var t := Apply(s, step); t.accepted == t.popped + t.queue
  {
    if step.Push? {
      assert s.popped + (s.queue + [step.rec]) == (s.popped + s.queue) + [step.rec];
    } else if s.queue != [] {
      HeadMoves(s.popped, s.queue);
    }
  }

  lemma HeadMoves(popped: seq<Record>, queue: seq<Record>)
    requires queue != []
    ensures popped + queue == popped + [queue[0]] + queue[1..]
  {
  }

  lemma ConsumerKeeps(s: State)
    requires Inv(s) && Enabled(s, ConsumerStep)
    requires Apply(s, ConsumerStep).accepted == Apply(s, ConsumerStep).popped + Apply(s, ConsumerStep).queue
    ensures Inv(Apply(s, ConsumerStep))
  {
  }

  lemma {:induction false} RunKeeps(s: State, steps: seq<Step>)
    requires Inv(s) && CanRun(s, steps)
    ensures Inv(Run(s, steps))
    decreases |steps|
  {
    if steps == [] {
    } else {
      StepKeeps(s, steps[0]);
      RunKeeps(Apply(s, steps[0]), steps[1..]);
    }
  }

  // Waiting for a signal over a non-empty queue, or under a raised flag, the consumer will be
  // signalled by a thread that is already past its push or its raise; pops come in push order.
  lemma NoLostWakeup(steps: seq<Step>)
    requires CanRun(Init(), steps)
    ensures var s := Run(Init(), steps);
      && s.accepted == s.popped + s.queue
      && (s.consumer.AtWait? ==> (Enabled(s, ConsumerStep) <==> s.signalled))
      && (s.consumer.AtWait? && !s.signalled && s.queue != [] ==> exists t :: Enabled(s, SignalPush(t)))
      && (s.consumer.AtWait? && !s.signalled && s.interruption ==> exists t :: Enabled(s, SignalRaise(t)))
  {
    RunKeeps(Init(), steps);
    var s := Run(Init(), steps);
    if s.consumer.AtWait? && !s.signalled {
      if s.queue != [] {
        var t :| t in s.pushers;
        assert Enabled(s, SignalPush(t));
      }
      if s.interruption {
        var t :| t in s.raisers;
        assert Enabled(s, SignalRaise(t));
      }
    }
  }
}
