/**
 `unbounded_fifo_queue` as an object. Each method is a stretch in which no other thread gets in
 between; `trace` lists the accesses it consists of, as steps of the fine-grained system, so every
 state the object gets into is one that system reaches.
 */
module EventQueueObject {
  import opened Records
  import opened EventQueue

  datatype Outcome = Got(rec: Record) | Interrupted | Blocked

  lemma {:induction false} RunSnoc(s: State, steps: seq<Step>, step: Step)
    requires CanRun(s, steps) && Enabled(Run(s, steps), step)
    ensures CanRun(s, steps + [step]) && Run(s, steps + [step]) == Apply(Run(s, steps), step)
    decreases |steps|
  {
    if steps == [] {
      assert (steps + [step])[1..] == [];
    } else {
      RunSnoc(Apply(s, steps[0]), steps[1..], step);
      assert (steps + [step])[1..] == steps[1..] + [step];
    }
  }

  class UnboundedFifoQueue {
    var queue: seq<Record>
    // The event, and the flag that says why it was signalled.
    var signalled: bool
    var interruptionRequested: bool
    ghost var trace: seq<Step>

    ghost predicate Traced()
      reads this
    {
      CanRun(Init(), trace)
    }

    ghost function Now(): State
      reads this
      requires Traced()
    {
      Run(Init(), trace)
    }

    ghost predicate Valid()
      reads this
    {
      && Traced()
      && Now().queue == queue && Now().signalled == signalled && Now().interruption == interruptionRequested
    }

    constructor ()
      ensures Valid() && Now() == Init()
    {
      queue, signalled, interruptionRequested, trace := [], false, false, [];
    }

    ghost method Did(step: Step)
      requires Traced() && Enabled(Now(), step)
      modifies this`trace
      ensures Traced() && Now() == Apply(old(Now()), step)
    {
      RunSnoc(Init(), trace, step);
      trace := trace + [step];
    }

    method Enqueue(t: ThreadId, rec: Record)
      requires Valid() && t !in Now().pushers
      modifies this
      ensures Valid() && queue == old(queue) + [rec] && signalled
      ensures Now() == Apply(Apply(old(Now()), Push(t, rec)), SignalPush(t))
    {
      queue := queue + [rec];
      Did(Push(t, rec));
      signalled := true;
      Did(SignalPush(t));
    }

    method InterruptDequeue(t: ThreadId)
      requires Valid() && t !in Now().raisers
      modifies this
      ensures Valid() && interruptionRequested && signalled
      ensures Now() == Apply(Apply(old(Now()), Raise(t)), SignalRaise(t))
    {
      interruptionRequested := true;
      Did(Raise(t));
      signalled := true;
      Did(SignalRaise(t));
    }

    // m_queue.try_pop, as the step of the consumer that pops.
    method TryPop(ghost step: Step) returns (rec: Option<Record>)
      requires Valid() && Enabled(Now(), step)
      requires step.TryDequeue? || (step.ConsumerStep? && (Now().consumer.FirstPop? || Now().consumer.LaterPop?))
      modifies this`queue, this`trace
      ensures Valid() && Now() == Apply(old(Now()), step)
      ensures rec == if old(queue) == [] then None else Some(old(queue)[0])
      ensures queue == if old(queue) == [] then [] else old(queue)[1..]
    {
      rec := None;
      if queue != [] {
        rec := Some(queue[0]);
        queue := queue[1..];
      }
      Did(step);
    }

    method TryDequeue() returns (rec: Option<Record>)
      requires Valid() && Now().consumer.Away?
      modifies this`queue, this`trace
      ensures Valid() && Now() == Apply(old(Now()), EventQueue.TryDequeue)
      ensures rec == if old(queue) == [] then None else Some(old(queue)[0])
    {
      rec := TryPop(EventQueue.TryDequeue);
    }

    // Up to its return, or to a wait that no signal ends; `resumed` when it blocked there before.
    method DequeueReady(resumed: bool) returns (outcome: Outcome)
      requires Valid() && if resumed then Now().consumer.AtWait? else Now().consumer.Away?
      modifies this
      ensures Valid() && if outcome.Blocked? then Now().consumer.AtWait? else Now().consumer.Away?
      // a first attempt to pop, unless it has been waiting before, leaves flag and signal alone
      ensures !resumed && old(queue) != [] ==>
                && outcome == Got(old(queue)[0]) && queue == old(queue)[1..]
                && interruptionRequested == old(interruptionRequested) && signalled == old(signalled)
      // then it takes a signal, which may be left over from records popped long ago; an interruption
      // comes before whatever is queued
      ensures resumed || old(queue) == [] ==> !signalled
      ensures (resumed || old(queue) == []) && !old(signalled) ==>
                outcome.Blocked? && queue == old(queue) && interruptionRequested == old(interruptionRequested)
      ensures (resumed || old(queue) == []) && old(signalled) && old(interruptionRequested) ==>
                outcome.Interrupted? && queue == old(queue) && !interruptionRequested
      ensures (resumed || old(queue) == []) && old(signalled) && !old(interruptionRequested) ==>
                && !interruptionRequested
                && if old(queue) == [] then outcome.Blocked? && queue == []
                   else outcome == Got(old(queue)[0]) && queue == old(queue)[1..]
    {
      if !resumed {
        Did(BeginDequeueReady);
        var rec := TryPop(ConsumerStep);
        if rec.Some? {
          return Got(rec.value);
        }
      }
      while signalled
        invariant Valid() && Now().consumer.AtWait?
        invariant queue == old(queue) && interruptionRequested == old(interruptionRequested)
        invariant if signalled then old(signalled)
                  else old(signalled) ==> !interruptionRequested && queue == []
        invariant !resumed ==> queue == []
        decreases signalled
      {
        // m_event.wait() takes the signal
        signalled := false;
        Did(ConsumerStep);
        Did(ConsumerStep);
        if interruptionRequested {
          interruptionRequested := false;
          Did(ConsumerStep);
          return Interrupted;
        }
        var rec := TryPop(ConsumerStep);
        if rec.Some? {
          return Got(rec.value);
        }
      }
      return Blocked;
    }
  }
}
