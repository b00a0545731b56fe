/** Blocked and dropped producers: what the overflow strategies do over whole runs. */
module OverflowTheorems {
  import opened Records
  import opened QueueProtocol
  import opened QueueInvariants
  import opened QueueTheorems

  // `t` is the state after the first `k` steps of a run from `s`.
  ghost predicate At(cfg: Config, s: State, steps: seq<Step>, k: nat, t: State)
    requires ListInv(s)
  {
    && k <= |steps|
    && CanRun(cfg, s, steps[..k]) && Run(cfg, s, steps[..k]) == t
  }

  lemma AtStart(cfg: Config, s: State, steps: seq<Step>)
    requires ListInv(s)
    ensures At(cfg, s, steps, 0, s)
  {
    assert steps[..0] == [];
  }

  lemma AtCons(cfg: Config, s: State, steps: seq<Step>, k: nat, t: State)
    requires ListInv(s) && steps != [] && Enabled(cfg, s, steps[0])
    requires ListInv(Apply(cfg, s, steps[0])) && At(cfg, Apply(cfg, s, steps[0]), steps[1..], k, t)
    ensures At(cfg, s, steps, k + 1, t)
  {
    assert steps[..k + 1][1..] == steps[1..][..k];
    assert steps[..k + 1][0] == steps[0];
  }

  // ----- Ends of a call -----

  predicate Ended(c: Call) {
    c.Accepted? || c.Dropped? || c.Refused?
  }

  // A call ends at most once: what it ended with never changes.
  lemma {:induction false} EndsOnce(cfg: Config, s: State, steps: seq<Step>, id: CallId)
    requires ListInv(s) && CanRun(cfg, s, steps) && id in s.calls && Ended(s.calls[id])
    ensures id in Run(cfg, s, steps).calls && Run(cfg, s, steps).calls[id] == s.calls[id]
    decreases |steps|
  {
    if steps == [] {
    } else {
      ListInvStep(cfg, s, steps[0]);
      EndedStays(cfg, s, steps[0], id);
      EndsOnce(cfg, Apply(cfg, s, steps[0]), steps[1..], id);
    }
  }

  lemma EndedStays(cfg: Config, s: State, step: Step, id: CallId)
    requires ListInv(s) && Enabled(cfg, s, step) && id in s.calls && Ended(s.calls[id])
    ensures id in Apply(cfg, s, step).calls && Apply(cfg, s, step).calls[id] == s.calls[id]
  {
  }

  // With `block_on_overflow` a record is lost only when an interruption found its call linked.
  lemma {:induction false} LossNeedsInterrupt(cfg: Config, s: State, steps: seq<Step>, id: CallId)
      returns (k: nat, at: State)
    requires ValidConfig(cfg) && cfg.blocking && Inv(cfg, s) && CanRun(cfg, s, steps) && id !in s.cut
    requires id in Run(cfg, s, steps).calls && Run(cfg, s, steps).calls[id].Dropped?
    ensures k < |steps| && At(cfg, s, steps, k, at)
    ensures steps[k].InterruptDequeue? && id in at.sh.contexts
    decreases |steps|
  {
    k, at := 0, s;
    if steps == [] {
    } else {
      StepKeeps(cfg, s, steps[0]);
      var s' := Apply(cfg, s, steps[0]);
      CutGrowsByInterrupt(cfg, s, steps[0]);
      if id in s'.cut {
        AtStart(cfg, s, steps);
      } else {
        k, at := LossNeedsInterrupt(cfg, s', steps[1..], id);
        AtCons(cfg, s, steps, k, at);
        k := k + 1;
      }
    }
  }

  lemma CutGrowsByInterrupt(cfg: Config, s: State, step: Step)
    requires ListInv(s) && Enabled(cfg, s, step)
    ensures Apply(cfg, s, step).cut ==
              if step.InterruptDequeue? then s.cut + set id | id in s.sh.contexts else s.cut
  {
  }

  // The size limit holds with any number of producers racing after they were woken, every accepted
  // entry belongs to its own call, and the entries pushed are those popped plus those queued.
  lemma CapacityAndConservation(cfg: Config, steps: seq<Step>, s: State)
    requires ValidConfig(cfg) && RunsTo(cfg, steps, s)
    ensures cfg.capacity.Some? ==> |s.sh.items| <= cfg.capacity.value
    ensures multiset(s.accepted) == multiset(Entries(s.taken)) + multiset(s.sh.items)
    ensures cfg.discipline.Fifo? ==> s.accepted == Entries(s.taken) + s.sh.items
    ensures forall i, j :: 0 <= i < j < |s.accepted| ==> s.accepted[i].call != s.accepted[j].call
    ensures forall id :: id in s.calls && s.calls[id].Accepted? <==>
              exists k :: 0 <= k < |s.accepted| && s.accepted[k].call == id
    ensures forall k :: 0 <= k < |s.taken| && s.taken[k].ready ==>
              s.taken[k].entry.stamp + Window(cfg) <= s.taken[k].at
  {
    ReachableInv(cfg, steps, s);
  }

  // ----- Order of the grants -----

  // A dequeue that takes the queue from full to not full.
  ghost predicate FreesSpace(cfg: Config, s: State, step: Step)
    requires ListInv(s) && Enabled(cfg, s, step)
  {
    && ExactlyFull(cfg, s.sh)
    && (match step
        case TryDequeue(now, next) => TryDequeueOutcome(s.sh).Got?
        case TryDequeueReady(now, next) => TryDequeueReadyOutcome(cfg, s.sh, now).Got?
        case DequeueReadySection(now, next) => DequeueReadyOutcome(cfg, s.sh, now).Got?
        case _ => false)
  }

  ghost function SpaceSteps(cfg: Config, s: State, steps: seq<Step>): nat
    requires ListInv(s) && CanRun(cfg, s, steps)
    decreases |steps|
  {
    if steps == [] then 0
    else
      ListInvStep(cfg, s, steps[0]);
      (if FreesSpace(cfg, s, steps[0]) then 1 else 0) + SpaceSteps(cfg, Apply(cfg, s, steps[0]), steps[1..])
  }

  // Apart from interruptions, steps change the list only at its ends.
  lemma ContextsStep(cfg: Config, s: State, step: Step)
    requires ListInv(s) && Enabled(cfg, s, step) && !step.InterruptDequeue?
    ensures var s' := Apply(cfg, s, step);
      if FreesSpace(cfg, s, step) then
        if s.sh.contexts == [] then s'.sh.contexts == []
        else
          var id := s.sh.contexts[0];
          s'.sh.contexts == s.sh.contexts[1..] && id in s'.calls && s'.calls[id] == Released(s.calls[id].rec, true)
      else
        s.sh.contexts <= s'.sh.contexts
  {
  }

  ghost predicate NoInterrupt(steps: seq<Step>) {
    forall k :: 0 <= k < |steps| ==> !steps[k].InterruptDequeue?
  }

  // Step `k` of a run is its (i+1)-th full-to-non-full dequeue, and wakes `id` with leave to retry.
  ghost predicate WokenAt(cfg: Config, s: State, steps: seq<Step>, id: CallId, i: nat, k: nat)
    requires ListInv(s)
  {
    && k < |steps| && CanRun(cfg, s, steps[..k]) && CanRun(cfg, s, steps[..k + 1])
    && SpaceSteps(cfg, s, steps[..k]) == i && SpaceSteps(cfg, s, steps[..k + 1]) == i + 1
    && Wakes(Run(cfg, s, steps[..k]), Run(cfg, s, steps[..k + 1]), id)
  }

  predicate Wakes(before: State, after: State, id: CallId) {
    && id in before.calls && before.calls[id].Waiting?
    && id in after.calls && after.calls[id] == Released(before.calls[id].rec, true)
  }

  lemma WokenNow(cfg: Config, s: State, steps: seq<Step>)
    requires ListInv(s) && steps != [] && Enabled(cfg, s, steps[0]) && !steps[0].InterruptDequeue?
    requires s.sh.contexts != [] && FreesSpace(cfg, s, steps[0])
    ensures WokenAt(cfg, s, steps, s.sh.contexts[0], 0, 0)
  {
    ListInvStep(cfg, s, steps[0]);
    ContextsStep(cfg, s, steps[0]);
    var s' := Apply(cfg, s, steps[0]);
    assert steps[..0] == [] && steps[..1][0] == steps[0] && steps[..1][1..] == [];
    assert Run(cfg, s', []) == s' && SpaceSteps(cfg, s', []) == 0;
  }

  lemma WokenLater(cfg: Config, s: State, steps: seq<Step>, id: CallId, i: nat, k: nat)
    requires ListInv(s) && steps != [] && Enabled(cfg, s, steps[0]) && ListInv(Apply(cfg, s, steps[0]))
    requires WokenAt(cfg, Apply(cfg, s, steps[0]), steps[1..], id, i, k)
    ensures WokenAt(cfg, s, steps, id, if FreesSpace(cfg, s, steps[0]) then i + 1 else i, k + 1)
  {
    PrefixCons(cfg, s, steps, k);
    PrefixCons(cfg, s, steps, k + 1);
  }

  lemma PrefixCons(cfg: Config, s: State, steps: seq<Step>, k: nat)
    requires ListInv(s) && steps != [] && Enabled(cfg, s, steps[0]) && k < |steps|
    requires ListInv(Apply(cfg, s, steps[0])) && CanRun(cfg, Apply(cfg, s, steps[0]), steps[1..][..k])
    ensures CanRun(cfg, s, steps[..k + 1])
    ensures Run(cfg, s, steps[..k + 1]) == Run(cfg, Apply(cfg, s, steps[0]), steps[1..][..k])
    ensures SpaceSteps(cfg, s, steps[..k + 1]) ==
      (if FreesSpace(cfg, s, steps[0]) then 1 else 0) +
      SpaceSteps(cfg, Apply(cfg, s, steps[0]), steps[1..][..k])
  {
    assert steps[..k + 1][1..] == steps[1..][..k];
    assert steps[..k + 1][0] == steps[0];
  }

  // The producer linked at position `i` is woken, with leave to try again, by exactly the
  // (i+1)-th full-to-non-full dequeue, as long as no interruption comes.
  lemma {:induction false} GrantedInLinkOrder(cfg: Config, s: State, steps: seq<Step>, i: nat) returns (k: nat)
    requires ListInv(s) && CanRun(cfg, s, steps) && NoInterrupt(steps) && i < |s.sh.contexts|
    ensures var n, t := SpaceSteps(cfg, s, steps), Run(cfg, s, steps);
      if n <= i then i - n < |t.sh.contexts| && t.sh.contexts[i - n] == s.sh.contexts[i]
      else WokenAt(cfg, s, steps, s.sh.contexts[i], i, k)
    decreases |steps|
  {
    k := 0;
    if steps == [] {
    } else {
      if FreesSpace(cfg, s, steps[0]) && i == 0 {
        WokenNow(cfg, s, steps);
        SpaceAtOnce(cfg, s, steps);
      } else {
        var s', i' := MovesUp(cfg, s, steps, i);
        k := GrantedInLinkOrder(cfg, s', steps[1..], i');
        k := k + 1;
      }
    }
  }

  lemma SpaceAtOnce(cfg: Config, s: State, steps: seq<Step>)
    requires ListInv(s) && steps != [] && CanRun(cfg, s, steps) && FreesSpace(cfg, s, steps[0])
    ensures SpaceSteps(cfg, s, steps) > 0
  {
  }

  // The first step of a run either wakes somebody ahead of the producer at `i` or leaves it where it is.
  lemma MovesUp(cfg: Config, s: State, steps: seq<Step>, i: nat) returns (s': State, i': nat)
    requires ListInv(s) && steps != [] && CanRun(cfg, s, steps) && !steps[0].InterruptDequeue?
    requires i < |s.sh.contexts| && (FreesSpace(cfg, s, steps[0]) ==> i > 0)
    ensures ListInv(s') && CanRun(cfg, s', steps[1..]) && Run(cfg, s, steps) == Run(cfg, s', steps[1..])
    ensures i' <= i && i' < |s'.sh.contexts| && s'.sh.contexts[i'] == s.sh.contexts[i]
    ensures SpaceSteps(cfg, s, steps) == i - i' + SpaceSteps(cfg, s', steps[1..])
    ensures forall k: nat :: WokenAt(cfg, s', steps[1..], s.sh.contexts[i], i', k) ==>
              WokenAt(cfg, s, steps, s.sh.contexts[i], i, k + 1)
  {
    s' := Apply(cfg, s, steps[0]);
    ListInvStep(cfg, s, steps[0]);
    ContextsStep(cfg, s, steps[0]);
    i' := if FreesSpace(cfg, s, steps[0]) then i - 1 else i;
    var id := s.sh.contexts[i];
    forall k: nat | WokenAt(cfg, s', steps[1..], id, i', k) ensures WokenAt(cfg, s, steps, id, i, k + 1) {
      WokenLater(cfg, s, steps, id, i', k);
    }
  }

  // ----- Stranded producers -----

  predicate OnItsWay(c: Call) {
    c.Released? && c.retry
  }

  // Someone is blocked only while the queue is full or a woken producer is about to try again.
  ghost predicate NoneStranded(cfg: Config, s: State) {
    s.sh.contexts != [] ==> Full(cfg, s.sh) || exists id :: id in s.calls && OnItsWay(s.calls[id])
  }

  lemma NoneStrandedStep(cfg: Config, s: State, step: Step)
    requires cfg.blocking && cfg.capacity.Some? && cfg.capacity.value <= 1
    requires ListInv(s) && CapacityInv(cfg, s) && Enabled(cfg, s, step) && NoneStranded(cfg, s)
    ensures NoneStranded(cfg, Apply(cfg, s, step))
  {
    var t := Apply(cfg, s, step);
    if t.sh.contexts != [] && !Full(cfg, t.sh) {
      if Full(cfg, s.sh) {
        FrontIsWoken(cfg, s, step);
      } else {
        var id :| id in s.calls && OnItsWay(s.calls[id]);
        assert id in t.calls && OnItsWay(t.calls[id]);
      }
    }
  }

  // A step that makes room while somebody stays blocked wakes the first of the blocked.
  lemma FrontIsWoken(cfg: Config, s: State, step: Step)
    requires cfg.capacity.Some? && ListInv(s) && CapacityInv(cfg, s) && Enabled(cfg, s, step)
    requires Full(cfg, s.sh) && !Full(cfg, Apply(cfg, s, step).sh) && Apply(cfg, s, step).sh.contexts != []
    ensures s.sh.contexts != [] && s.sh.contexts[0] in Apply(cfg, s, step).calls
    ensures OnItsWay(Apply(cfg, s, step).calls[s.sh.contexts[0]])
  {
  }

  lemma {:induction false} NoneStrandedRun(cfg: Config, s: State, steps: seq<Step>)
    requires ValidConfig(cfg) && cfg.blocking && cfg.capacity.Some? && cfg.capacity.value <= 1
    requires Inv(cfg, s) && CanRun(cfg, s, steps) && NoneStranded(cfg, s)
    ensures NoneStranded(cfg, Run(cfg, s, steps))
    decreases |steps|
  {
    if steps == [] {
    } else {
      StepKeeps(cfg, s, steps[0]);
      NoneStrandedStep(cfg, s, steps[0]);
      NoneStrandedRun(cfg, Apply(cfg, s, steps[0]), steps[1..]);
    }
  }

  // `on_queue_space_available` runs only when the queue stops being full. So the promise holds in
  // every run exactly for capacities 0 and 1: with two or more, two dequeues in a row wake one of
  // two blocked producers and leave the other blocked beside free space.
  lemma NoneStrandedIff(cfg: Config)
    requires ValidConfig(cfg) && cfg.blocking && cfg.capacity.Some?
    ensures (forall steps, s :: RunsTo(cfg, steps, s) ==> NoneStranded(cfg, s)) <==> cfg.capacity.value <= 1
  {
    if cfg.capacity.value <= 1 {
      forall steps, s | RunsTo(cfg, steps, s) ensures NoneStranded(cfg, s) {
        InitInv(cfg);
        NoneStrandedRun(cfg, Init(), steps);
      }
    } else {
      var steps, s := StrandedRun(cfg);
    }
  }

  function AllAccepted(n: nat): (m: map<CallId, Call>)
    ensures forall k: CallId :: k in m <==> k < n
    ensures forall k: CallId :: k in m ==> m[k] == Accepted
  {
    if n == 0 then map[] else AllAccepted(n - 1)[n - 1 := Accepted]
  }

  function Filled(n: nat): State {
    var items := seq(n, k requires 0 <= k < n => Entry(k, 0, 0));
    State(Shared(items, 0, false, []), AllAccepted(n), Away, 0, items, [], [], {})
  }

  lemma {:induction false} FillRun(cfg: Config, n: nat) returns (steps: seq<Step>)
    requires ValidConfig(cfg) && cfg.capacity.Some? && n <= cfg.capacity.value
    ensures RunsTo(cfg, steps, Filled(n)) && ListInv(Filled(n))
  {
    if n == 0 {
      steps := [];
      assert Filled(0) == Init();
    } else {
      steps := FillRun(cfg, n - 1);
      steps := FillOne(cfg, steps, n - 1);
    }
  }

  lemma FillOne(cfg: Config, steps: seq<Step>, m: nat) returns (longer: seq<Step>)
    requires ValidConfig(cfg) && cfg.capacity.Some? && m < cfg.capacity.value
    requires RunsTo(cfg, steps, Filled(m)) && ListInv(Filled(m))
    ensures RunsTo(cfg, longer, Filled(m + 1)) && ListInv(Filled(m + 1))
  {
    var s := Filled(m);
    var s1 := s.(calls := s.calls[m := Started(0)]);
    longer := Extend(cfg, steps, s, StartCall(m, 0), s1);
    FilledOnce(m, s1);
    longer := Extend(cfg, longer, s1, EnqueueSection(m, 0, m == 0), Filled(m + 1));
  }

  lemma FilledOnce(m: nat, s: State)
    requires s == Filled(m).(calls := Filled(m).calls[m := Started(0)])
    ensures AfterPush(s, Entry(m, 0, 0), m == 0) == Filled(m + 1)
  {
    var t := AfterPush(s, Entry(m, 0, 0), m == 0);
    assert t.sh.items == Filled(m + 1).sh.items;
    assert t.calls == AllAccepted(m + 1);
  }

  lemma BlockOne(cfg: Config, steps: seq<Step>, s: State, id: CallId) returns (longer: seq<Step>, t: State)
    requires cfg.blocking && ListInv(s) && RunsTo(cfg, steps, s) && Full(cfg, s.sh) && id !in s.calls
    ensures RunsTo(cfg, longer, t) && ListInv(t)
    ensures t == s.(calls := s.calls[id := Waiting(0)], sh := s.sh.(contexts := s.sh.contexts + [id]), clock := s.clock)
  {
    var s1 := s.(calls := s.calls[id := Started(0)]);
    longer := Extend(cfg, steps, s, StartCall(id, 0), s1);
    t := AfterEnqueue(cfg, s1, id, s.clock, false);
    longer := Extend(cfg, longer, s1, EnqueueSection(id, s.clock, false), t);
  }

  lemma AlikeFront(cfg: Config, sh: Shared)
    requires ValidConfig(cfg) && sh.items != [] && sh.front == 0 && forall e :: e in sh.items ==> e.rec == 0
    ensures PopOk(cfg, sh, 0)
  {
    var rest := Without(sh.items, 0);
    forall k | 0 <= k < |rest| ensures rest[k].rec == 0 {
      assert rest[k] in sh.items;
    }
  }

  lemma PopOne(cfg: Config, steps: seq<Step>, s: State) returns (longer: seq<Step>, t: State)
    requires ValidConfig(cfg) && ListInv(s) && RunsTo(cfg, steps, s) && s.consumer.Away?
    requires s.sh.items != [] && s.sh.front == 0 && forall e :: e in s.sh.items ==> e.rec == 0
    ensures RunsTo(cfg, longer, t) && ListInv(t)
    ensures t == AfterDequeue(cfg, s, Got(s.sh.items[0]), s.clock, 0, false)
  {
    AlikeFront(cfg, s.sh);
    t := AfterDequeue(cfg, s, Got(s.sh.items[0]), s.clock, 0, false);
    longer := Extend(cfg, steps, s, TryDequeue(s.clock, 0), t);
  }

  // A full queue of `n` entries, two blocked producers, one pop: the first producer is woken.
  lemma OneWokenRun(cfg: Config) returns (steps: seq<Step>, s: State)
    requires ValidConfig(cfg) && cfg.blocking && cfg.capacity.Some? && cfg.capacity.value >= 2
    ensures RunsTo(cfg, steps, s) && ListInv(s) && s.consumer.Away? && s.clock == 0
    ensures var n := cfg.capacity.value;
      && s.sh.contexts == [n + 1] && s.sh.front == 0 && |s.sh.items| == n - 1
      && (forall e :: e in s.sh.items ==> e == Entry(e.call, 0, 0))
      && n in s.calls && s.calls[n] == Released(0, true)
      && forall id :: id in s.calls && id != n ==> !OnItsWay(s.calls[id])
  {
    var n := cfg.capacity.value;
    steps := FillRun(cfg, n);
    var s1, s2;
    steps, s1 := BlockOne(cfg, steps, Filled(n), n);
    steps, s2 := BlockOne(cfg, steps, s1, n + 1);
    assert s2.sh.contexts == [n, n + 1];
    steps, s := PopOne(cfg, steps, s2);
    assert s.sh.items == Without(Filled(n).sh.items, 0);
  }

  lemma StrandedRun(cfg: Config) returns (steps: seq<Step>, s: State)
    requires ValidConfig(cfg) && cfg.blocking && cfg.capacity.Some? && cfg.capacity.value >= 2
    ensures RunsTo(cfg, steps, s) && !NoneStranded(cfg, s)
  {
    var n := cfg.capacity.value;
    var s1, s2;
    steps, s1 := OneWokenRun(cfg);
    steps, s2 := PopOne(cfg, steps, s1);
    assert s2.calls == s1.calls && s2.sh.contexts == s1.sh.contexts && s2.sh.items == Without(s1.sh.items, 0);
    forall k | 0 <= k < |s2.sh.items| ensures s2.sh.items[k].rec == 0 {
      assert s1.sh.items[k + 1] in s1.sh.items;
    }
    steps, s := RetryOne(cfg, steps, s2, n);
    assert forall id :: id in s.calls ==> !OnItsWay(s.calls[id]);
  }

  lemma RetryOne(cfg: Config, steps: seq<Step>, s: State, id: CallId) returns (longer: seq<Step>, t: State)
    requires ValidConfig(cfg) && ListInv(s) && RunsTo(cfg, steps, s) && !Full(cfg, s.sh)
    requires id in s.calls && s.calls[id] == Released(0, true)
    requires s.sh.front == 0 && forall e :: e in s.sh.items ==> e.rec == 0
    ensures RunsTo(cfg, longer, t) && ListInv(t)
    ensures t.sh.contexts == s.sh.contexts && t.calls == s.calls[id := Accepted]
    ensures |t.sh.items| == |s.sh.items| + 1
  {
    var bf := s.sh.items == [];
    t := AfterPush(s, Entry(id, s.clock, 0), bf);
    longer := Extend(cfg, steps, s, EnqueueSection(id, s.clock, bf), t);
  }
}
