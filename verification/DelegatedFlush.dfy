/**
 A flush that leaves the feeding to a thread that feeds already: what is offered by the time it is
 answered. The statements range over every run from the raise of the flag to the answer.
 */
module DelegatedFlush {
  import opened Records
  import opened QueueInterface
  import opened AsyncFrontend
  import opened FrontendInvariants
  import opened FrontendTheorems

  // ----- Answers -----

  // Feeder `t` is about to answer the requests there are: it flushes the backend and takes the flag down.
  ghost predicate Answering(s: State, t: ThreadId) {
    PcOf(s, t).Feeding? && (PcOf(s, t).f.place.FlushBackend? || PcOf(s, t).f.place.ClearFlag?)
  }

  // No stop has cut short the loop before the answer.
  ghost predicate Uncut(s: State, t: ThreadId) {
    PcOf(s, t).Feeding? && !PcOf(s, t).f.sawStop
  }

  // Everything accepted before the flush `w` was called has been offered.
  ghost predicate DrainedFor(s: State, w: ThreadId)
    requires Requesting(PcOf(s, w))
  {
    AllOffered(s, PcOf(s, w).mark)
  }

  // A flush whose request the feeder's last read of the flag took in is answered by a full drain, if no
  // stop cuts the loop short.
  lemma NoticedFlushDrains(d: Discipline, dedicated: Option<ThreadId>, steps: seq<Step>, s: State,
                           t: ThreadId, w: ThreadId)
    requires RunsTo(d, dedicated, steps, s) && Answering(s, t) && Uncut(s, t)
    requires Requesting(PcOf(s, w)) && w in s.noticed
    ensures DrainedFor(s, w)
  {
    ReachableInv(d, dedicated, steps, s);
  }

  ghost predicate Waits(s: State, w: ThreadId) {
    Requesting(PcOf(s, w)) && s.flushRequested
  }

  // `w` waits for the answer to its request in every state of the run.
  ghost predicate WaitsThroughout(d: Discipline, s: State, steps: seq<Step>, w: ThreadId)
    requires QueueOk(s) && CanRun(d, s, steps)
    decreases |steps|
  {
    && Waits(s, w)
    && (steps != [] ==>
          (QueueOkStep(d, s, steps[0]); WaitsThroughout(d, Apply(d, s, steps[0]), steps[1..], w)))
  }

  // A run from `s` to `u` in which `w` waits.
  ghost predicate Path(d: Discipline, s: State, steps: seq<Step>, w: ThreadId, u: State)
    requires QueueOk(s)
  {
    CanRun(d, s, steps) && WaitsThroughout(d, s, steps, w) && Run(d, s, steps) == u
  }

  lemma PathStep(d: Discipline, s: State, step: Step, w: ThreadId) returns (u: State)
    requires Inv(d, s) && Enabled(d, s, step) && Waits(s, w) && Waits(Apply(d, s, step), w)
    ensures u == Apply(d, s, step) && Inv(d, u) && Path(d, s, [step], w, u)
  {
    u := Apply(d, s, step);
    StepKeeps(d, s, step);
    PathNil(d, u, w);
    assert [step][1..] == [];
  }

  lemma PathNil(d: Discipline, s: State, w: ThreadId)
    requires QueueOk(s) && Waits(s, w)
    ensures Path(d, s, [], w, s)
  {
  }

  lemma {:induction false} PathConcat(d: Discipline, s: State, a: seq<Step>, u: State, b: seq<Step>,
                                      w: ThreadId, v: State)
    requires QueueOk(s) && Path(d, s, a, w, u) && QueueOk(u) && Path(d, u, b, w, v)
    ensures Path(d, s, a + b, w, v)
    decreases |a|
  {
    if a == [] {
      assert [] + b == b;
    } else {
      QueueOkStep(d, s, a[0]);
      PathConcat(d, Apply(d, s, a[0]), a[1..], u, b, w, v);
      assert (a + b)[1..] == a[1..] + b;
    }
  }

  // A thread that has not done anything yet.
  lemma {:induction false} FreshThread(a: set<ThreadId>) returns (v: ThreadId)
    ensures forall x :: x in a ==> x < v
  {
    v := 0;
    if a == {} {
    } else {
      var x :| x in a;
      v := FreshThread(a - {x});
      v := if v <= x then x + 1 else v;
      assert a == (a - {x}) + {x};
    }
  }

  predicate Ending(p: Place) {
    p.TestFlushEnd? || p.FlushBackend? || p.ClearFlag?
  }

  // The feeder may come to the answer without another look at the flag: its loop has ended, or the
  // dequeue it is about to try may fail over records that wait for their window.
  ghost predicate MayMiss(d: Discipline, s: State) {
    var o := FeederOf(s);
    && o.Some? && !o.value.sawStop
    && (Ending(o.value.place) || (o.value.place.Dequeue? && d.Ordered? && !o.value.sawFlush))
  }

  ghost predicate NothingLeft(s: State) {
    s.queue == [] && Hand(s) == []
  }

  // As long as the feeder has not seen the request that `w` made in state `s0`, a feeder on its way to
  // the answer has offered nothing since, and had its reason to look no more.
  ghost predicate Unseen(d: Discipline, s0: State, s: State, w: ThreadId) {
    var o := FeederOf(s);
    o.Some? && w !in s.noticed && !o.value.sawStop && (o.value.place.Dequeue? || Ending(o.value.place)) ==>
      && s.offered == s0.offered
      && (if o.value.place.Dequeue? then FeederOf(s0) == o && s0.queue <= s.queue
          else MayMiss(d, s0) || NothingLeft(s0))
  }

  lemma UnseenAtCall(d: Discipline, s0: State, w: ThreadId)
    requires Inv(d, s0) && Enabled(d, s0, StartFlush(w)) && s0.feeding.Some?
    ensures Unseen(d, s0, Apply(d, s0, StartFlush(w)), w)
  {
    MoveFrame(s0, w, FlushRaised(|s0.accepted|), Apply(d, s0, StartFlush(w)));
  }

  // Other threads append to the queue at most.
  lemma OthersAppend(d: Discipline, s: State, step: Step)
    requires QueueOk(s) && Enabled(d, s, step) && !step.FeederStep?
    ensures var u := Apply(d, s, step); u.offered == s.offered && s.queue <= u.queue
  {
    var u := Apply(d, s, step);
    assert u.queue == if step.Accept? then s.queue + [|s.accepted|] else s.queue;
  }

  // What the feeder has noticed changes only by a new request of the noticed thread.
  lemma OthersNotice(d: Discipline, s: State, step: Step, w: ThreadId)
    requires QueueOk(s) && Enabled(d, s, step) && !step.FeederStep?
    requires w in s.noticed && Requesting(PcOf(s, w))
    ensures w in Apply(d, s, step).noticed
  {
  }

  lemma UnseenOthers(d: Discipline, s0: State, s: State, step: Step, w: ThreadId)
    requires Inv(d, s) && Enabled(d, s, step) && !step.FeederStep?
    requires Unseen(d, s0, s, w) && Requesting(PcOf(s, w))
    ensures Unseen(d, s0, Apply(d, s, step), w)
  {
    OthersAppend(d, s, step);
    OthersLeaveFeeder(d, s, step);
    if w in s.noticed {
      OthersNotice(d, s, step, w);
    }
  }

  lemma UnseenFeeder(d: Discipline, s0: State, s: State, t: ThreadId, f: Feeder, k: nat, take: bool, w: ThreadId)
    requires IsFeeder(d, s, t, f, k, take) && Requesting(PcOf(s, w)) && s.flushRequested && Unseen(d, s0, s, w)
    ensures Unseen(d, s0, AfterFeeder(s, t, f, k, take), w)
  {
    var u := AfterFeeder(s, t, f, k, take);
    if f.place.Leave? {
      assert FeederOf(u) == None;
    } else {
      var g := NextFeeder(s, f, k, take);
      FeederFrame(d, s, t, f, k, take);
      assert FeederOf(s) == Some(f) && FeederOf(u) == Some(g);
      if g.place.Dequeue? {
        assert f.place.TestFlush? && w in u.noticed;
      } else if Ending(g.place) && !g.sawStop {
        BeforeEnding(s, t, f, k, take);
        if f.place.Dequeue? {
          UnseenFailure(d, s0, s, f, k);
        }
      }
    }
  }

  // How a feeder whose loop no stop has cut short comes to be at its end.
  lemma BeforeEnding(s: State, t: ThreadId, f: Feeder, k: nat, take: bool)
    requires (Takes(f, take) ==> k < |s.queue|) && !f.place.Leave?
    requires Ending(NextFeeder(s, f, k, take).place) && !NextFeeder(s, f, k, take).sawStop
    ensures !f.sawStop && (Ending(f.place) || (f.place.Dequeue? && !take))
    ensures var u := AfterFeeder(s, t, f, k, take); u.offered == s.offered && u.noticed == s.noticed
  {
  }

  // A dequeue fails before the feeder has seen the request.
  lemma UnseenFailure(d: Discipline, s0: State, s: State, f: Feeder, k: nat)
    requires QueueOk(s) && FeederEnabled(d, s, f, k, false) && f.place.Dequeue?
    ensures FeederOf(s0) == Some(f) && s0.queue <= s.queue && !f.sawStop ==> MayMiss(d, s0) || NothingLeft(s0)
  {
  }

  lemma UnseenStep(d: Discipline, s0: State, s: State, step: Step, w: ThreadId)
    requires Inv(d, s) && Enabled(d, s, step) && Requesting(PcOf(s, w)) && s.flushRequested
    requires Unseen(d, s0, s, w)
    ensures Unseen(d, s0, Apply(d, s, step), w)
  {
    if step.FeederStep? {
      UnseenFeeder(d, s0, s, step.t, PcOf(s, step.t).f, step.k, step.take, w);
    } else {
      UnseenOthers(d, s0, s, step, w);
    }
  }

  lemma SameRequest(d: Discipline, s: State, step: Step, w: ThreadId)
    requires Inv(d, s) && Enabled(d, s, step)
    requires Requesting(PcOf(s, w)) && Requesting(PcOf(Apply(d, s, step), w))
    ensures PcOf(Apply(d, s, step), w).mark == PcOf(s, w).mark
  {
    if step.FeederStep? && !PcOf(s, step.t).f.place.Leave? {
      FeederFrame(d, s, step.t, PcOf(s, step.t).f, step.k, step.take);
    }
  }

  lemma {:induction false} UnseenRun(d: Discipline, s0: State, s: State, steps: seq<Step>, w: ThreadId)
    requires Inv(d, s) && CanRun(d, s, steps) && WaitsThroughout(d, s, steps, w) && Unseen(d, s0, s, w)
    ensures var u := Run(d, s, steps);
      && Inv(d, u) && Unseen(d, s0, u, w) && u.flushRequested
      && Requesting(PcOf(u, w)) && PcOf(u, w).mark == PcOf(s, w).mark
    decreases |steps|
  {
    if steps == [] {
    } else {
      StepKeeps(d, s, steps[0]);
      UnseenStep(d, s0, s, steps[0], w);
      SameRequest(d, s, steps[0], w);
      UnseenRun(d, s0, Apply(d, s, steps[0]), steps[1..], w);
    }
  }

  // A queued record is queued once, and neither offered nor in hand.
  lemma QueuedOnce(d: Discipline, s: State, x: Serial)
    requires ConserveInv(d, s) && x in s.queue
    ensures x < |s.accepted| && x !in s.offered && x !in Hand(s)
  {
    InOnePlace(d, s, x);
    assert x in multiset(s.queue);
    assert x !in multiset(s.offered) && x !in multiset(Hand(s));
  }

  lemma InOnePlace(d: Discipline, s: State, x: Serial)
    requires ConserveInv(d, s) && (x in s.queue || x in Hand(s))
    ensures x < |s.accepted| && multiset(s.offered)[x] + multiset(Hand(s))[x] + multiset(s.queue)[x] == 1
  {
    SerialsInRange(d, s);
    UptoOnce(|s.accepted|, x);
    assert multiset(s.offered) + multiset(Hand(s)) + multiset(s.queue) == multiset(Upto(|s.accepted|));
  }

  // What is offered makes up everything accepted exactly when nothing is queued or in hand.
  lemma AllOfferedIff(d: Discipline, s: State)
    requires ConserveInv(d, s)
    ensures AllOffered(s, |s.accepted|) <==> NothingLeft(s)
  {
    if NothingLeft(s) {
      EmptyQueueAllOffered(d, s);
    } else {
      var x := if s.queue != [] then s.queue[0] else Hand(s)[0];
      InOnePlace(d, s, x);
      assert x in multiset(s.queue) || x in multiset(Hand(s));
      assert x !in multiset(s.offered);
      assert x !in s.offered && x < |s.accepted|;
    }
  }

  // The run goes on from the raise of the flag by `w` in `s0` to an answer by `t`, with `w` waiting.
  ghost predicate AnsweredBy(d: Discipline, s0: State, w: ThreadId, steps: seq<Step>, t: ThreadId)
    requires QueueOk(s0) && Enabled(d, s0, StartFlush(w))
  {
    QueueOkStep(d, s0, StartFlush(w));
    var s1 := Apply(d, s0, StartFlush(w));
    CanRun(d, s1, steps) && WaitsThroughout(d, s1, steps, w) && Answering(Run(d, s1, steps), t)
  }

  ghost function Outcome(d: Discipline, s0: State, w: ThreadId, steps: seq<Step>, t: ThreadId): (u: State)
    requires QueueOk(s0) && Enabled(d, s0, StartFlush(w)) && AnsweredBy(d, s0, w, steps, t)
  {
    QueueOkStep(d, s0, StartFlush(w));
    Run(d, Apply(d, s0, StartFlush(w)), steps)
  }

  lemma AnswerFacts(d: Discipline, s0: State, w: ThreadId, steps: seq<Step>, t: ThreadId)
    requires Inv(d, s0) && Enabled(d, s0, StartFlush(w)) && s0.feeding.Some? && AnsweredBy(d, s0, w, steps, t)
    ensures var u := Outcome(d, s0, w, steps, t);
      && Inv(d, u) && Unseen(d, s0, u, w) && Requesting(PcOf(u, w)) && PcOf(u, w).mark == |s0.accepted|
  {
    StepKeeps(d, s0, StartFlush(w));
    UnseenAtCall(d, s0, w);
    UnseenRun(d, s0, Apply(d, s0, StartFlush(w)), steps, w);
  }

  // A flush that a running feeder answers, after a loop no stop cut short, is answered with everything
  // accepted before its call offered exactly when the feeder's last read of the flag took the request in,
  // or nothing was queued or in hand at the call.
  lemma DelegatedFlushDrainsIff(d: Discipline, s0: State, w: ThreadId, steps: seq<Step>, t: ThreadId)
    requires Inv(d, s0) && Enabled(d, s0, StartFlush(w)) && s0.feeding.Some? && AnsweredBy(d, s0, w, steps, t)
    requires Uncut(Outcome(d, s0, w, steps, t), t)
    ensures var u := Outcome(d, s0, w, steps, t);
      Requesting(PcOf(u, w)) && (DrainedFor(u, w) <==> w in u.noticed || NothingLeft(s0))
  {
    AnswerFacts(d, s0, w, steps, t);
    AllOfferedIff(d, s0);
    var u := Outcome(d, s0, w, steps, t);
    assert FeederOf(u) == Some(PcOf(u, t).f);
    if w in u.noticed {
      assert DrainedFor(u, w);
    } else {
      assert u.offered == s0.offered;
      assert DrainedFor(u, w) <==> AllOffered(s0, |s0.accepted|);
    }
  }

  // The answer comes with everything accepted before the call offered.
  ghost predicate AnsweredDrained(d: Discipline, s0: State, w: ThreadId, steps: seq<Step>, t: ThreadId)
    requires QueueOk(s0) && Enabled(d, s0, StartFlush(w)) && AnsweredBy(d, s0, w, steps, t)
  {
    Requesting(PcOf(Outcome(d, s0, w, steps, t), w)) && DrainedFor(Outcome(d, s0, w, steps, t), w)
  }

  // Seen from the call: every answer that no stop cuts short comes after a full drain exactly unless the
  // feeder may come to it without another look at the flag while there is something left to offer.
  lemma EveryUncutAnswerDrainsIff(d: Discipline, s0: State, w: ThreadId)
    requires Inv(d, s0) && Enabled(d, s0, StartFlush(w)) && s0.feeding.Some?
    ensures (forall steps, t: ThreadId ::
               AnsweredBy(d, s0, w, steps, t) && Uncut(Outcome(d, s0, w, steps, t), t) ==>
               AnsweredDrained(d, s0, w, steps, t))
            <==> (!MayMiss(d, s0) || NothingLeft(s0))
  {
    if !MayMiss(d, s0) || NothingLeft(s0) {
      forall steps, t: ThreadId | AnsweredBy(d, s0, w, steps, t) && Uncut(Outcome(d, s0, w, steps, t), t)
        ensures AnsweredDrained(d, s0, w, steps, t)
      {
        AnswerFacts(d, s0, w, steps, t);
        DelegatedFlushDrainsIff(d, s0, w, steps, t);
      }
    } else {
      var steps, t := MissedRun(d, s0, w);
      DelegatedFlushDrainsIff(d, s0, w, steps, t);
    }
  }

  // The feeder goes straight on to the answer.
  lemma MissedRun(d: Discipline, s0: State, w: ThreadId) returns (steps: seq<Step>, t: ThreadId)
    requires Inv(d, s0) && Enabled(d, s0, StartFlush(w)) && MayMiss(d, s0)
    ensures AnsweredBy(d, s0, w, steps, t) && Uncut(Outcome(d, s0, w, steps, t), t)
    ensures w !in Outcome(d, s0, w, steps, t).noticed
  {
    t := s0.feeding.value;
    var s1 := Apply(d, s0, StartFlush(w));
    StepKeeps(d, s0, StartFlush(w));
    MoveFrame(s0, w, FlushRaised(|s0.accepted|), s1);
    var u;
    steps, u := MissedFrom(d, s1, w, t);
  }

  lemma {:induction false} MissedFrom(d: Discipline, s: State, w: ThreadId, t: ThreadId)
      returns (steps: seq<Step>, u: State)
    requires Inv(d, s) && s.feeding == Some(t) && MayMiss(d, s)
    requires Waits(s, w) && w !in s.noticed
    ensures Path(d, s, steps, w, u) && (forall k :: 0 <= k < |steps| ==> steps[k].FeederStep?)
    ensures Inv(d, u) && Answering(u, t) && Uncut(u, t) && w !in u.noticed && NextInLine(s, u, t)
    decreases Rank(PcOf(s, t).f.place)
  {
    if Answering(s, t) {
      PathNil(d, s, w);
      steps, u := [], s;
    } else {
      var s' := MissStep(d, s, w, t);
      var rest;
      rest, u := MissedFrom(d, s', w, t);
      MissOn(d, s, s', rest, w, t, u);
      steps := [FeederStep(t, 0, false)] + rest;
    }
  }

  lemma MissOn(d: Discipline, s: State, s1: State, steps: seq<Step>, w: ThreadId, t: ThreadId, u: State)
    requires QueueOk(s) && Path(d, s, [FeederStep(t, 0, false)], w, s1) && NextInLine(s, s1, t)
    requires QueueOk(s1) && Path(d, s1, steps, w, u) && NextInLine(s1, u, t)
    requires forall k :: 0 <= k < |steps| ==> steps[k].FeederStep?
    ensures var longer := [FeederStep(t, 0, false)] + steps;
      Path(d, s, longer, w, u) && NextInLine(s, u, t) && forall k :: 0 <= k < |longer| ==> longer[k].FeederStep?
  {
    PathConcat(d, s, [FeederStep(t, 0, false)], s1, steps, w, u);
  }

  // What the feeder's way to the answer leaves alone.
  ghost predicate NextInLine(s: State, u: State, t: ThreadId) {
    && u.feeding == s.feeding && u.mutex == s.mutex && u.stopRequested == s.stopRequested && u.offered == s.offered
    && (forall p: ThreadId :: p != t ==> PcOf(u, p) == PcOf(s, p))
  }

  lemma MissStep(d: Discipline, s: State, w: ThreadId, t: ThreadId) returns (u: State)
    requires Inv(d, s) && s.feeding == Some(t) && MayMiss(d, s) && !Answering(s, t)
    requires Waits(s, w) && w !in s.noticed
    ensures Path(d, s, [FeederStep(t, 0, false)], w, u) && Inv(d, u)
    ensures u.feeding == Some(t) && MayMiss(d, u) && Waits(u, w) && w !in u.noticed
    ensures Rank(PcOf(u, t).f.place) < Rank(PcOf(s, t).f.place) && NextInLine(s, u, t)
  {
    var f := PcOf(s, t).f;
    FeederFrame(d, s, t, f, 0, false);
    MissNext(s, t, f);
    MissPlace(d, s, t, f);
    u := PathStep(d, s, FeederStep(t, 0, false), w);
  }

  lemma MissPlace(d: Discipline, s: State, t: ThreadId, f: Feeder)
    requires IsFeeder(d, s, t, f, 0, false) && s.feeding == Some(t) && s.flushRequested && !f.sawStop
    requires f.place.Dequeue? || f.place.TestFlushEnd?
    ensures var u := AfterFeeder(s, t, f, 0, false);
      MayMiss(d, u) && u.flushRequested && u.noticed == s.noticed && PcOf(u, t) == Feeding(NextFeeder(s, f, 0, false))
  {
    FeederFrame(d, s, t, f, 0, false);
  }

  lemma MissNext(s: State, t: ThreadId, f: Feeder)
    requires (f.place.Dequeue? || f.place.TestFlushEnd?) && s.flushRequested
    ensures NextInLine(s, AfterFeeder(s, t, f, 0, false), t)
    ensures var g := NextFeeder(s, f, 0, false);
      Ending(g.place) && g.sawStop == f.sawStop && Rank(g.place) < Rank(f.place)
  {
  }

  // Behind the failed dequeue a record is accepted from thread 1.
  lemma AcceptedLateRun(d: Discipline) returns (steps: seq<Step>, s: State)
    ensures RunsTo(d, None, steps, s) && QueueOk(s)
    ensures s == Solo(TestFlushEnd).(
      pcs := map[0 := PcOf(Solo(TestFlushEnd), 0), 1 := Idle], queue := [0], accepted := [7])
  {
    var s0;
    steps, s0 := FailedFeedRun(d);
    var f := PcOf(s0, 0);
    var s1 := s0.(pcs := map[0 := f, 1 := Enqueueing(7)]);
    steps := Extend(d, None, steps, s0, StartConsume(1, 7), s1);
    s := s1.(pcs := map[0 := f, 1 := Idle], queue := [0], accepted := [7]);
    steps := Extend(d, None, steps, s1, Accept(1), s);
  }

  // Thread `w` calls `flush` beside a running feeder, and comes to wait.
  lemma RaisedRun(d: Discipline, steps: seq<Step>, s: State, w: ThreadId) returns (longer: seq<Step>, u: State)
    requires RunsTo(d, None, steps, s) && QueueOk(s) && Enabled(d, s, StartFlush(w))
    requires s.feeding.Some? && !s.stopRequested && w !in s.noticed
    ensures RunsTo(d, None, longer, u) && QueueOk(u)
    ensures u == s.(pcs := s.pcs[w := FlushWait(|s.accepted|)], flushRequested := true, interruption := true)
  {
    var s1 := Apply(d, s, StartFlush(w));
    longer := Extend(d, None, steps, s, StartFlush(w), s1);
    u := Apply(d, s1, FlushInterrupt(w));
    longer := Extend(d, None, longer, s1, FlushInterrupt(w), u);
    assert s1.pcs[w := FlushWait(|s.accepted|)] == s.pcs[w := FlushWait(|s.accepted|)];
    assert s.noticed - {w} == s.noticed;
  }

  // Then thread 2 calls `flush`, and only now does thread 0 test the flag.
  lemma UnnoticedRun(d: Discipline) returns (steps: seq<Step>, s: State)
    ensures RunsTo(d, None, steps, s) && Answering(s, 0) && Uncut(s, 0) && PcOf(s, 2).FlushWait? && 2 !in s.noticed
    ensures !DrainedFor(s, 2)
  {
    var s2;
    steps, s2 := AcceptedLateRun(d);
    var f := PcOf(s2, 0);
    var s3;
    steps, s3 := RaisedRun(d, steps, s2, 2);
    s := s3.(pcs := s3.pcs[0 := Feeding(f.f.(place := FlushBackend))]);
    steps := Extend(d, None, steps, s3, FeederStep(0, 0, false), s);
    assert 0 !in s.offered;
  }
}
