/** Theorems about every run of the asynchronous frontend over a mutex-protected queueing strategy. */
module PipelineTheorems {
  import opened Records
  import opened QueueInterface
  import opened Pipeline
  import Q = QueueProtocol
  import QI = QueueInvariants
  import QT = QueueTheorems
  import SectionEnds
  import F = AsyncFrontend
  import FI = FrontendInvariants
  import FT = FrontendTheorems
  import D = DelegatedFlush

  ghost predicate CanRun(cfg: Q.Config, s: Sink, steps: seq<Step>)
    requires Q.ValidConfig(cfg) && Inv(cfg, s)
    decreases |steps|
  {
    steps == [] ||
    (Enabled(cfg, s, steps[0]) &&
     (StepKeeps(cfg, s, steps[0]); CanRun(cfg, Apply(cfg, s, steps[0]), steps[1..])))
  }

  ghost function Run(cfg: Q.Config, s: Sink, steps: seq<Step>): Sink
    requires Q.ValidConfig(cfg) && Inv(cfg, s) && CanRun(cfg, s, steps)
    decreases |steps|
  {
    if steps == [] then s
    else StepKeeps(cfg, s, steps[0]); Run(cfg, Apply(cfg, s, steps[0]), steps[1..])
  }

  ghost predicate RunsTo(cfg: Q.Config, dedicated: Option<ThreadId>, steps: seq<Step>, s: Sink)
    requires Q.ValidConfig(cfg)
  {
    InitInv(cfg, dedicated);
    CanRun(cfg, Init(dedicated), steps) && Run(cfg, Init(dedicated), steps) == s
  }

  // ----- The sink is a run of either side -----

  function FrontSteps(steps: seq<Step>): seq<F.Step> {
    if steps == [] then []
    else (if steps[0].Within? then [] else [steps[0].step]) + FrontSteps(steps[1..])
  }

  function BackSteps(steps: seq<Step>): seq<Q.Step> {
    if steps == [] then []
    else (if steps[0].Alone? then [] else [steps[0].section]) + BackSteps(steps[1..])
  }

  lemma {:induction false} RunKeeps(cfg: Q.Config, s: Sink, steps: seq<Step>)
    requires Q.ValidConfig(cfg) && Inv(cfg, s) && CanRun(cfg, s, steps)
    ensures Inv(cfg, Run(cfg, s, steps))
    decreases |steps|
  {
    if steps == [] {
    } else {
      StepKeeps(cfg, s, steps[0]);
      RunKeeps(cfg, Apply(cfg, s, steps[0]), steps[1..]);
    }
  }

  // Every run of the sink over its strategy is a run of the frontend over a queue that does what
  // `QueueInterface` says, so all that was proved of those runs holds of it.
  lemma {:induction false} FrontRuns(cfg: Q.Config, s: Sink, steps: seq<Step>)
    requires Q.ValidConfig(cfg) && Inv(cfg, s) && CanRun(cfg, s, steps)
    ensures F.CanRun(DisciplineOf(cfg), s.front, FrontSteps(steps))
    ensures F.Run(DisciplineOf(cfg), s.front, FrontSteps(steps)) == Run(cfg, s, steps).front
    decreases |steps|
  {
    if steps == [] {
    } else {
      StepKeeps(cfg, s, steps[0]);
      FrontRuns(cfg, Apply(cfg, s, steps[0]), steps[1..]);
      FrontStep(cfg, s, steps);
    }
  }

  lemma FrontStep(cfg: Q.Config, s: Sink, steps: seq<Step>)
    requires Q.ValidConfig(cfg) && Inv(cfg, s) && steps != [] && Enabled(cfg, s, steps[0])
    ensures if steps[0].Within? then
              Apply(cfg, s, steps[0]).front == s.front && FrontSteps(steps) == FrontSteps(steps[1..])
            else
              && F.Enabled(DisciplineOf(cfg), s.front, steps[0].step)
              && Apply(cfg, s, steps[0]).front == F.Apply(DisciplineOf(cfg), s.front, steps[0].step)
              && FrontSteps(steps) == [steps[0].step] + FrontSteps(steps[1..])
              && FrontSteps(steps)[1..] == FrontSteps(steps[1..])
  {
    if steps[0].Both? {
      Served(cfg, s, steps[0].step, steps[0].section);
    }
  }

  // And it is a run of the strategy.
  lemma {:induction false} BackRuns(cfg: Q.Config, s: Sink, steps: seq<Step>)
    requires Q.ValidConfig(cfg) && Inv(cfg, s) && CanRun(cfg, s, steps)
    ensures Q.CanRun(cfg, s.back, BackSteps(steps))
    ensures Q.Run(cfg, s.back, BackSteps(steps)) == Run(cfg, s, steps).back
    decreases |steps|
  {
    if steps == [] {
    } else {
      StepKeeps(cfg, s, steps[0]);
      BackRuns(cfg, Apply(cfg, s, steps[0]), steps[1..]);
      BackStep(cfg, s, steps);
    }
  }

  lemma BackStep(cfg: Q.Config, s: Sink, steps: seq<Step>)
    requires Q.ValidConfig(cfg) && Inv(cfg, s) && steps != [] && Enabled(cfg, s, steps[0])
    ensures if steps[0].Alone? then Apply(cfg, s, steps[0]).back == s.back && BackSteps(steps) == BackSteps(steps[1..])
            else
              && Q.Enabled(cfg, s.back, steps[0].section)
              && Apply(cfg, s, steps[0]).back == Q.Apply(cfg, s.back, steps[0].section)
              && BackSteps(steps) == [steps[0].section] + BackSteps(steps[1..])
              && BackSteps(steps)[1..] == BackSteps(steps[1..])
  {
  }

  // ----- Nobody is held up by the strategy -----

  lemma FreshCall(s: Sink) returns (id: Q.CallId)
    ensures id !in s.back.calls && id !in s.calls.Values
  {
    id := D.FreshThread(s.back.calls.Keys + s.calls.Values);
  }

  // Whatever the frontend does beside the queue it can do here.
  lemma AloneServed(cfg: Q.Config, s: Sink, step: F.Step) returns (id: Q.CallId)
    requires Inv(cfg, s) && F.Enabled(DisciplineOf(cfg), s.front, step) && !UsesQueue(s.front, step)
    ensures Enabled(cfg, s, Alone(step, id))
  {
    id := FreshCall(s);
  }

  lemma InterrupterServed(cfg: Q.Config, s: Sink, t: ThreadId)
    requires Inv(cfg, s)
    ensures F.PcOf(s.front, t).FlushRaised? ==> Enabled(cfg, s, Both(F.FlushInterrupt(t), Q.InterruptDequeue))
    ensures F.PcOf(s.front, t).StopRaised? ==> Enabled(cfg, s, Both(F.StopInterrupt(t), Q.InterruptDequeue))
  {
  }

  // The consumer is awake but in the blocking dequeue.
  lemma FeederAwake(s: Sink, t: ThreadId)
    requires FI.SingleInv(s.front) && SameConsumer(s) && F.PcOf(s.front, t).Feeding?
    ensures F.PcOf(s.front, t).f.place.BlockingDequeue? || s.back.consumer.Away?
  {
    assert FI.FeederOf(s.front) == Some(F.PcOf(s.front, t).f);
  }

  // A feeder that wants to dequeue can: with or without a record, or it goes to sleep in its blocking
  // dequeue, but not over an interruption.
  lemma FeederServed(cfg: Q.Config, s: Sink, t: ThreadId, now: nat) returns (step: Step)
    requires Q.ValidConfig(cfg) && Inv(cfg, s) && F.PcOf(s.front, t).Feeding? && s.back.clock <= now
    requires F.PcOf(s.front, t).f.place.Dequeue? || F.PcOf(s.front, t).f.place.BlockingDequeue?
    ensures Enabled(cfg, s, step)
    ensures (step.Both? && step.step.FeederStep? && step.step.t == t) ||
            (step.Within? && step.section.DequeueReadySection?)
    ensures F.PcOf(s.front, t).f.place.Dequeue? || s.front.interruption ==> step.Both?
  {
    var next, bf := SectionEnds.SectionsEnabled(cfg, s.back, now, 0, 0, false);
    FeederAwake(s, t);
    var f := F.PcOf(s.front, t).f;
    assert FI.FeederOf(s.front) == Some(f);
    var section := if f.place.BlockingDequeue? then Q.DequeueReadySection(now, next)
                   else if f.sawFlush then Q.TryDequeue(now, next) else Q.TryDequeueReady(now, next);
    DequeueEnds(cfg, s.back, f, section);
    var q := Q.Apply(cfg, s.back, section);
    if q.consumer.Asleep? {
      step := Within(section);
    } else {
      step := Both(F.FeederStep(t, s.back.sh.front, Took(s.back, q)), section);
    }
  }

  lemma DequeueEnds(cfg: Q.Config, q: Q.State, f: F.Feeder, section: Q.Step)
    requires Q.ListInv(q) && Q.Enabled(cfg, q, section)
    requires section.DequeueReadySection? || section.TryDequeue? || section.TryDequeueReady?
    ensures Q.Apply(cfg, q, section).consumer.Asleep? ==> section.DequeueReadySection? && !q.sh.interruption
  {
  }

  // A producer past the flag check can begin its call, or carry out a section that ends it or puts it in line;
  // only in line it has to wait.
  lemma ProducerServed(cfg: Q.Config, s: Sink, t: ThreadId, now: nat) returns (step: Step)
    requires Q.ValidConfig(cfg) && Inv(cfg, s) && F.PcOf(s.front, t).Enqueueing? && s.back.clock <= now
    ensures Enabled(cfg, s, step) && t in s.calls
    ensures if s.calls[t] !in s.back.calls then step == Within(Q.StartCall(s.calls[t], F.PcOf(s.front, t).rec))
            else if s.back.calls[s.calls[t]].Waiting? then step == Within(Q.SpuriousWake(s.calls[t]))
            else !step.Alone? && step.section.EnqueueSection? && step.section.id == s.calls[t] &&
                 (step.Both? ==> step.step == F.Accept(t) || step.step == F.Reject(t))
  {
    assert t in F.Past(s.front);
    var id, rec := s.calls[t], F.PcOf(s.front, t).rec;
    if id !in s.back.calls {
      step := Within(Q.StartCall(id, rec));
    } else if s.back.calls[id].Waiting? {
      step := Within(Q.SpuriousWake(id));
    } else {
      var next, bf := SectionEnds.SectionsEnabled(cfg, s.back, now, id, rec, false);
      var section := Q.EnqueueSection(id, now, bf);
      SectionEnds.EnqueueEnds(cfg, s.back, id, now, bf);
      var c := Q.Apply(cfg, s.back, section).calls[id];
      step := if c.Accepted? then Both(F.Accept(t), section)
              else if c.Dropped? then Both(F.Reject(t), section) else Within(section);
    }
  }

  // ----- The ordering window reaches the sink -----

  // A record fed without a flush having been seen has been queued for the window.
  lemma FedAfterWindow(cfg: Q.Config, s: Sink, t: ThreadId, k: nat, section: Q.Step)
    requires Q.ValidConfig(cfg) && Inv(cfg, s) && Enabled(cfg, s, Both(F.FeederStep(t, k, true), section))
    requires F.PcOf(s.front, t).f.place.Dequeue? ==> !F.PcOf(s.front, t).f.sawFlush
    ensures k < |s.front.queue| && s.front.queue[k] < |s.back.accepted|
    ensures s.back.accepted[s.front.queue[k]].stamp + Q.Window(cfg) <= section.now
    ensures Q.Apply(cfg, s.back, section).taken ==
              s.back.taken + [Q.Taken(s.back.accepted[s.front.queue[k]], section.now, true)]
  {
    TookSomething(cfg, s.back, section);
    if section.DequeueReadySection? {
      SectionEnds.DequeueReadyEnds(cfg, s.back, section.now, section.next);
    } else {
      SectionEnds.TryDequeuesEnd(cfg, s.back, section.now, section.next);
    }
  }

  // Nobody has asked for a flush.
  ghost predicate Unflushed(s: F.State) {
    && !s.flushRequested
    && (forall t: ThreadId :: !F.Requesting(F.PcOf(s, t)))
    && (FI.FeederOf(s).Some? ==> !FI.FeederOf(s).value.sawFlush)
  }

  lemma UnflushedStep(d: Discipline, s: F.State, step: F.Step)
    requires FI.Inv(d, s) && F.Enabled(d, s, step) && Unflushed(s) && !step.StartFlush?
    ensures Unflushed(F.Apply(d, s, step))
  {
    var u := F.Apply(d, s, step);
    if step.FeederStep? {
      var f := F.PcOf(s, step.t).f;
      assert FI.FeederOf(s) == Some(f);
      if !f.place.Leave? {
        FI.FeederFrame(d, s, step.t, f, step.k, step.take);
      }
    } else {
      FT.OthersLeaveFeeder(d, s, step);
    }
    forall t: ThreadId ensures !F.Requesting(F.PcOf(u, t)) {
      if t != step.t {
        FI.BesideStep(d, s, step, t);
      } else {
        assert !F.Requesting(F.PcOf(s, t));
        MovesOnUnflushed(d, s, step);
      }
    }
  }

  lemma MovesOnUnflushed(d: Discipline, s: F.State, step: F.Step)
    requires F.QueueOk(s) && F.Enabled(d, s, step) && !step.StartFlush? && !F.Requesting(F.PcOf(s, step.t))
    ensures !F.Requesting(F.PcOf(F.Apply(d, s, step), step.t))
  {
  }

  predicate NoFlushBegins(step: Step) {
    step.Within? || !step.step.StartFlush?
  }

  lemma UnflushedSinkStep(cfg: Q.Config, s: Sink, step: Step)
    requires Q.ValidConfig(cfg) && Inv(cfg, s) && Enabled(cfg, s, step) && Unflushed(s.front)
    requires NoFlushBegins(step)
    ensures Unflushed(Apply(cfg, s, step).front)
  {
    if step.Both? {
      Served(cfg, s, step.step, step.section);
    }
    if !step.Within? {
      UnflushedStep(DisciplineOf(cfg), s.front, step.step);
    }
  }

  ghost predicate AllReady(q: Q.State) {
    forall i :: 0 <= i < |q.taken| ==> q.taken[i].ready
  }

  lemma ReadyStep(cfg: Q.Config, s: Sink, step: Step)
    requires Q.ValidConfig(cfg) && Inv(cfg, s) && Enabled(cfg, s, step) && Unflushed(s.front) && AllReady(s.back)
    ensures AllReady(Apply(cfg, s, step).back)
  {
    match step
    case Alone(_, _) =>
    case Within(section) => WithinEffect(cfg, s, section);
    case Both(f, section) =>
      if f.FeederStep? {
        FeederReady(cfg, s, f, section);
      } else {
        NotDequeued(cfg, s, f, section);
      }
  }

  lemma SeesNoFlush(cfg: Q.Config, s: Sink, t: ThreadId)
    requires Inv(cfg, s) && Unflushed(s.front) && F.PcOf(s.front, t).Feeding?
    ensures !F.PcOf(s.front, t).f.sawFlush
  {
    assert FI.FeederOf(s.front) == Some(F.PcOf(s.front, t).f);
  }

  lemma OneMoreReady(q: Q.State, r: Q.State, e: Q.Entry, now: nat)
    requires AllReady(q) && (r.taken == q.taken || r.taken == q.taken + [Q.Taken(e, now, true)])
    ensures AllReady(r)
  {
  }

  lemma FeederReady(cfg: Q.Config, s: Sink, step: F.Step, section: Q.Step)
    requires Q.ValidConfig(cfg) && Inv(cfg, s) && Enabled(cfg, s, Both(step, section)) && step.FeederStep?
    requires Unflushed(s.front) && AllReady(s.back)
    ensures AllReady(Q.Apply(cfg, s.back, section))
  {
    var q := Q.Apply(cfg, s.back, section);
    SeesNoFlush(cfg, s, step.t);
    if Took(s.back, q) {
      FedAfterWindow(cfg, s, step.t, step.k, section);
      OneMoreReady(s.back, q, s.back.accepted[s.front.queue[step.k]], section.now);
    } else {
      DequeueEffect(cfg, s.back, F.PcOf(s.front, step.t).f, section);
    }
  }

  lemma NotDequeued(cfg: Q.Config, s: Sink, f: F.Step, section: Q.Step)
    requires Q.ValidConfig(cfg) && Inv(cfg, s) && Enabled(cfg, s, Both(f, section)) && !f.FeederStep?
    ensures Q.Apply(cfg, s.back, section).taken == s.back.taken
  {
  }

  ghost predicate Patient(s: Sink) {
    Unflushed(s.front) && AllReady(s.back)
  }

  lemma PatientStep(cfg: Q.Config, s: Sink, step: Step)
    requires Q.ValidConfig(cfg) && Inv(cfg, s) && Enabled(cfg, s, step) && Patient(s)
    requires NoFlushBegins(step)
    ensures Patient(Apply(cfg, s, step))
  {
    ReadyStep(cfg, s, step);
    UnflushedSinkStep(cfg, s, step);
  }

  predicate NoFlush(steps: seq<Step>) {
    forall k :: 0 <= k < |steps| ==> NoFlushBegins(steps[k])
  }

  lemma {:induction false} PatientRun(cfg: Q.Config, s: Sink, steps: seq<Step>)
    requires Q.ValidConfig(cfg) && Inv(cfg, s) && CanRun(cfg, s, steps) && NoFlush(steps)
    requires Patient(s)
    ensures Patient(Run(cfg, s, steps))
    decreases |steps|
  {
    if steps == [] {
    } else {
      StepKeeps(cfg, s, steps[0]);
      var s' := Apply(cfg, s, steps[0]);
      PatientStep(cfg, s, steps[0]);
      PatientRun(cfg, s', steps[1..]);
    }
  }

  // The time stamp an accepted record got.
  function Stamp(s: Sink, x: F.Serial): nat
    requires x < |s.back.accepted|
  {
    s.back.accepted[x].stamp
  }

  lemma Reached(cfg: Q.Config, dedicated: Option<ThreadId>, steps: seq<Step>, s: Sink)
    requires Q.ValidConfig(cfg) && RunsTo(cfg, dedicated, steps, s)
    ensures Inv(cfg, s) && QT.RunsTo(cfg, BackSteps(steps), s.back)
    ensures |s.front.offered| <= |s.back.taken| && |s.back.accepted| == |s.front.accepted|
    ensures forall i :: 0 <= i < |s.front.offered| ==>
              s.front.offered[i] < |s.back.accepted| && s.back.taken[i].entry == s.back.accepted[s.front.offered[i]]
  {
    InitInv(cfg, dedicated);
    RunKeeps(cfg, Init(dedicated), steps);
    BackRuns(cfg, Init(dedicated), steps);
    var gone := s.front.offered + FI.Hand(s.front);
    forall i | 0 <= i < |s.front.offered|
      ensures s.front.offered[i] < |s.back.accepted| && s.back.taken[i].entry == s.back.accepted[s.front.offered[i]]
    {
      assert gone[i] == s.front.offered[i] && QI.Entries(s.back.taken)[i] == s.back.taken[i].entry;
    }
  }

  // `x` strictly precedes `y` and was accepted less than a window after it.
  predicate InTime(cfg: Q.Config, s: Sink, x: F.Serial, y: F.Serial)
    requires |s.back.accepted| == |s.front.accepted| && x < |s.front.accepted| && y < |s.front.accepted|
  {
    cfg.less(s.front.accepted[x], s.front.accepted[y]) && Stamp(s, x) < Stamp(s, y) + Q.Window(cfg)
  }

  // The backend is given a record that is to be waited for only after every record that strictly precedes it
  // and was accepted less than a window later.
  lemma SinkBoundedDisorder(cfg: Q.Config, dedicated: Option<ThreadId>, steps: seq<Step>, s: Sink, i: nat, x: F.Serial)
    requires Q.ValidConfig(cfg) && cfg.discipline.Ordering? && RunsTo(cfg, dedicated, steps, s)
    requires i < |s.front.offered| && x < |s.front.accepted|
    ensures |s.front.offered| <= |s.back.taken| && |s.back.accepted| == |s.front.accepted|
    ensures s.front.offered[i] < |s.back.accepted|
    ensures s.back.taken[i].ready && InTime(cfg, s, x, s.front.offered[i]) ==> x in s.front.offered[..i]
  {
    Reached(cfg, dedicated, steps, s);
    var y := s.front.offered[i];
    if s.back.taken[i].ready && InTime(cfg, s, x, y) {
      QT.BoundedDisorder(cfg, BackSteps(steps), s.back, s.back.accepted[x], i);
      var j :| 0 <= j < i && s.back.taken[j].entry == s.back.accepted[x];
      assert s.back.accepted[s.front.offered[j]].call == s.back.accepted[x].call;
      assert s.front.offered[..i][j] == x;
    }
  }

  // Nothing is offered twice.
  lemma OfferedOnce(d: Discipline, s: F.State, i: nat, j: nat)
    requires FI.ConserveInv(d, s) && i < j < |s.offered|
    ensures s.offered[j] !in s.offered[..i] && s.offered[j] != s.offered[i]
  {
    var x := s.offered[j];
    assert s.offered == s.offered[..j] + [x] + s.offered[j + 1..];
    AtMostOnce(|s.accepted|, x);
    assert multiset(s.offered)[x] <= 1;
    assert multiset(s.offered[..j])[x] == 0;
    assert s.offered[..j][i] == s.offered[i];
    assert s.offered[..j][..i] == s.offered[..i];
  }

  lemma AtMostOnce(n: nat, x: F.Serial)
    ensures multiset(FI.Upto(n))[x] <= 1
  {
    if x < n {
      FT.UptoOnce(n, x);
    } else {
      assert x !in FI.Upto(n);
    }
  }

  // No record is accepted a window or more after one it strictly precedes.
  ghost predicate Timely(cfg: Q.Config, s: Sink)
    requires |s.back.accepted| == |s.front.accepted|
  {
    var recs := s.front.accepted;
    forall x, y :: 0 <= x < |recs| && 0 <= y < |recs| && cfg.less(recs[x], recs[y]) ==> InTime(cfg, s, x, y)
  }

  lemma SinkSorted(cfg: Q.Config, dedicated: Option<ThreadId>, steps: seq<Step>, s: Sink, i: nat, j: nat)
    requires Q.ValidConfig(cfg) && cfg.discipline.Ordering? && RunsTo(cfg, dedicated, steps, s) && AllReady(s.back)
    requires i < j < |s.front.offered| && |s.back.accepted| == |s.front.accepted| && Timely(cfg, s)
    ensures s.front.offered[i] < |s.front.accepted| && s.front.offered[j] < |s.front.accepted|
    ensures !cfg.less(s.front.accepted[s.front.offered[j]], s.front.accepted[s.front.offered[i]])
  {
    Reached(cfg, dedicated, steps, s);
    var x, y := s.front.offered[j], s.front.offered[i];
    if cfg.less(s.front.accepted[x], s.front.accepted[y]) {
      SinkBoundedDisorder(cfg, dedicated, steps, s, i, x);
      OfferedOnce(DisciplineOf(cfg), s.front, i, j);
    }
  }

  lemma SinkWaits(cfg: Q.Config, dedicated: Option<ThreadId>, steps: seq<Step>, s: Sink, i: nat)
    requires Q.ValidConfig(cfg) && RunsTo(cfg, dedicated, steps, s) && AllReady(s.back) && i < |s.front.offered|
    ensures i < |s.back.taken| && s.front.offered[i] < |s.front.accepted| && |s.back.accepted| == |s.front.accepted|
    ensures Stamp(s, s.front.offered[i]) + Q.Window(cfg) <= s.back.taken[i].at
  {
    Reached(cfg, dedicated, steps, s);
    assert s.back.taken[i].ready;
  }

  // As long as nobody calls `flush`: no record is offered before it has been queued for the window ...
  lemma SinkKeepsWindow(cfg: Q.Config, dedicated: Option<ThreadId>, steps: seq<Step>, s: Sink, i: nat)
    requires Q.ValidConfig(cfg) && RunsTo(cfg, dedicated, steps, s) && NoFlush(steps) && i < |s.front.offered|
    ensures i < |s.back.taken| && s.front.offered[i] < |s.front.accepted| && |s.back.accepted| == |s.front.accepted|
    ensures Stamp(s, s.front.offered[i]) + Q.Window(cfg) <= s.back.taken[i].at
  {
    InitInv(cfg, dedicated);
    PatientRun(cfg, Init(dedicated), steps);
    SinkWaits(cfg, dedicated, steps, s, i);
  }

  // ... and all of them are offered in order if none was accepted a window or more after one it precedes.
  lemma SinkKeepsOrder(cfg: Q.Config, dedicated: Option<ThreadId>, steps: seq<Step>, s: Sink, i: nat, j: nat)
    requires Q.ValidConfig(cfg) && cfg.discipline.Ordering? && RunsTo(cfg, dedicated, steps, s) && NoFlush(steps)
    requires |s.back.accepted| == |s.front.accepted| && Timely(cfg, s) && i < j < |s.front.offered|
    ensures s.front.offered[i] < |s.front.accepted| && s.front.offered[j] < |s.front.accepted|
    ensures !cfg.less(s.front.accepted[s.front.offered[j]], s.front.accepted[s.front.offered[i]])
  {
    InitInv(cfg, dedicated);
    PatientRun(cfg, Init(dedicated), steps);
    SinkSorted(cfg, dedicated, steps, s, i, j);
  }
}
