/**
 Loggers that swap and assign concurrently: `multiple_unique_lock2` acquires two mutexes in the
 order of their addresses, the other operations one at a time. Mutexes are named by address.
 */
module LockOrder {
  type Mutex = nat

  datatype Mode = Shared | Exclusive

  // Locking one mutex for a while, or the two of a swap.
  datatype Op = Single(m: Mutex, mode: Mode) | Swap(p1: Mutex, p2: Mutex)

  function First(op: Op): Mutex {
    match op
    case Single(m, _) => m
    case Swap(p1, p2) => if p1 < p2 then p1 else p2
  }

  function Second(op: Op): Mutex
    requires op.Swap?
  {
    if op.p1 < op.p2 then op.p2 else op.p1
  }

  // How far the thread is in its current operation. The destructor unlocks p2, then p1.
  datatype Phase = Outside | FirstHeld | BothHeld | P1Held

  // What the thread still has to do, the current operation first.
  datatype Thread = Thread(phase: Phase, todo: seq<Op>)

  predicate WellFormed(t: Thread) {
    && (forall k :: 0 <= k < |t.todo| && t.todo[k].Swap? ==> t.todo[k].p1 != t.todo[k].p2)
    && (t.phase != Outside ==> t.todo != [])
    && (t.phase == BothHeld || t.phase == P1Held ==> t.todo[0].Swap?)
  }

  function ModeOf(op: Op): Mode {
    if op.Single? then op.mode else Exclusive
  }

  predicate Holds(t: Thread, m: Mutex)
    requires WellFormed(t)
  {
    match t.phase
    case Outside => false
    case FirstHeld => m == First(t.todo[0])
    case BothHeld => m == t.todo[0].p1 || m == t.todo[0].p2
    case P1Held => m == t.todo[0].p1
  }

  predicate HoldsExclusively(t: Thread, m: Mutex)
    requires WellFormed(t)
  {
    Holds(t, m) && ModeOf(t.todo[0]) == Exclusive
  }

  type State = seq<Thread>

  predicate AllWellFormed(s: State) {
    forall i :: 0 <= i < |s| ==> WellFormed(s[i])
  }

  // Whether the mutex can be taken in the mode, whoever asks.
  predicate Available(s: State, m: Mutex, mode: Mode)
    requires AllWellFormed(s)
  {
    forall j :: 0 <= j < |s| ==> !(if mode == Exclusive then Holds(s[j], m) else HoldsExclusively(s[j], m))
  }

  predicate Unfinished(t: Thread) {
    t.todo != []
  }

  // The mutex the thread has to lock next, if its next action is a lock.
  predicate WantsLock(t: Thread)
    requires WellFormed(t)
  {
    t.todo != [] && (t.phase == Outside || (t.phase == FirstHeld && t.todo[0].Swap?))
  }

  function Wanted(t: Thread): Mutex
    requires WellFormed(t) && WantsLock(t)
  {
    if t.phase == Outside then First(t.todo[0]) else Second(t.todo[0])
  }

  predicate CanStep(s: State, i: nat)
    requires AllWellFormed(s) && i < |s|
  {
    && Unfinished(s[i])
    && (WantsLock(s[i]) ==> Available(s, Wanted(s[i]), ModeOf(s[i].todo[0])))
  }

  function Advance(t: Thread): Thread
    requires WellFormed(t) && Unfinished(t)
  {
    match t.phase
    case Outside => t.(phase := FirstHeld)
    case FirstHeld => if t.todo[0].Swap? then t.(phase := BothHeld) else Thread(Outside, t.todo[1..])
    case BothHeld => t.(phase := P1Held)
    case P1Held => Thread(Outside, t.todo[1..])
  }

  function Apply(s: State, i: nat): State
    requires AllWellFormed(s) && i < |s| && CanStep(s, i)
  {
    s[i := Advance(s[i])]
  }

  // Every step takes the mutex that was wanted or gives one back, and no other; a swap gives p2 back first.
  lemma OneMutexAStep(t: Thread, m: Mutex)
    requires WellFormed(t) && Unfinished(t)
    ensures WellFormed(Advance(t))
    ensures WantsLock(t) ==> !Holds(t, Wanted(t)) && (Holds(Advance(t), m) <==> Holds(t, m) || m == Wanted(t))
    ensures !WantsLock(t) ==>
              var op := t.todo[0];
              var back := if op.Single? then op.m else if t.phase == BothHeld then op.p2 else op.p1;
              Holds(t, back) && (Holds(Advance(t), m) <==> Holds(t, m) && m != back)
  {
  }

  // ----- Mutual exclusion -----

  // A mutex held exclusively is held by nobody else.
  ghost predicate Exclusion(s: State)
    requires AllWellFormed(s)
  {
    forall i, j, m: Mutex :: 0 <= i < |s| && 0 <= j < |s| && i != j && HoldsExclusively(s[i], m) ==> !Holds(s[j], m)
  }

  lemma StepKeeps(s: State, i: nat)
    requires AllWellFormed(s) && Exclusion(s) && i < |s| && CanStep(s, i)
    ensures AllWellFormed(Apply(s, i)) && Exclusion(Apply(s, i))
  {
    var t, u := s[i], Advance(s[i]);
    var s' := Apply(s, i);
    assert AllWellFormed(s');
    forall m: Mutex | Holds(u, m) ensures Holds(t, m) || (WantsLock(t) && m == Wanted(t)) {
    }
    forall m: Mutex | HoldsExclusively(u, m)
      ensures HoldsExclusively(t, m) || (WantsLock(t) && m == Wanted(t) && ModeOf(t.todo[0]) == Exclusive)
    {
    }
  }

  ghost predicate CanRun(s: State, steps: seq<nat>)
    requires AllWellFormed(s) && Exclusion(s)
    decreases |steps|
  {
    steps == [] ||
    (steps[0] < |s| && CanStep(s, steps[0]) &&
     (StepKeeps(s, steps[0]); CanRun(Apply(s, steps[0]), steps[1..])))
  }

  ghost function Run(s: State, steps: seq<nat>): State
    requires AllWellFormed(s) && Exclusion(s) && CanRun(s, steps)
    decreases |steps|
  {
    if steps == [] then s else StepKeeps(s, steps[0]); Run(Apply(s, steps[0]), steps[1..])
  }

  predicate AllOutside(s: State) {
    forall i :: 0 <= i < |s| ==> s[i].phase == Outside
  }

  lemma {:induction false} RunKeeps(s: State, steps: seq<nat>)
    requires AllWellFormed(s) && Exclusion(s) && CanRun(s, steps)
    ensures var t := Run(s, steps); |t| == |s| && AllWellFormed(t) && Exclusion(t)
    decreases |steps|
  {
    if steps == [] {
    } else {
      StepKeeps(s, steps[0]);
      RunKeeps(Apply(s, steps[0]), steps[1..]);
    }
  }

  // ----- No deadlock -----

  ghost predicate Bounded(s: State, max: nat) {
    forall i, k :: 0 <= i < |s| && 0 <= k < |s[i].todo| ==>
      First(s[i].todo[k]) < max && (s[i].todo[k].Swap? ==> Second(s[i].todo[k]) < max)
  }

  // Whoever holds a mutex can step, or waits for one of a higher address whose holder can step, ...
  lemma {:induction false} HolderLeadsToStep(s: State, j: nat, m: Mutex, max: nat) returns (k: nat)
    requires AllWellFormed(s) && Bounded(s, max) && j < |s| && Holds(s[j], m)
    ensures k < |s| && CanStep(s, k)
    decreases max - m
  {
    if CanStep(s, j) {
      k := j;
    } else {
      assert s[j].phase == FirstHeld && m == First(s[j].todo[0]) < Wanted(s[j]);
      var i :| 0 <= i < |s| && Holds(s[i], Wanted(s[j]));
      k := HolderLeadsToStep(s, i, Wanted(s[j]), max);
    }
  }

  lemma UnfinishedLeadsToStep(s: State, i: nat, max: nat) returns (k: nat)
    requires AllWellFormed(s) && Bounded(s, max) && i < |s| && Unfinished(s[i])
    ensures k < |s| && CanStep(s, k)
  {
    if CanStep(s, i) {
      k := i;
    } else {
      var j :| 0 <= j < |s| && Holds(s[j], Wanted(s[i]));
      k := HolderLeadsToStep(s, j, Wanted(s[i]), max);
    }
  }

  function Highest(ops: seq<Op>): (max: nat)
    ensures forall k :: 0 <= k < |ops| ==> First(ops[k]) < max && (ops[k].Swap? ==> Second(ops[k]) < max)
  {
    if ops == [] then 0
    else
      var rest, here := Highest(ops[1..]), if ops[0].Swap? then Second(ops[0]) else First(ops[0]);
      if here < rest then rest else here + 1
  }

  lemma {:induction false} BoundExists(s: State) returns (max: nat)
    ensures Bounded(s, max)
  {
    max := 0;
    if s == [] {
    } else {
      max := BoundExists(s[1..]);
      var here := Highest(s[0].todo);
      if max < here {
        max := here;
      }
      forall i, k | 0 <= i < |s| && 0 <= k < |s[i].todo|
        ensures First(s[i].todo[k]) < max && (s[i].todo[k].Swap? ==> Second(s[i].todo[k]) < max)
      {
        if i > 0 {
          assert s[i] == s[1..][i - 1];
        }
      }
    }
  }

  // Any number of threads, each with any operations on any loggers (only never the swap of a logger
  // with itself): wherever they get to, as long as one has not finished, one can go on; and nobody
  // shares a logger with the thread that changes it.
  lemma NoDeadlock(s: State, steps: seq<nat>)
    requires AllOutside(s) && AllWellFormed(s) && Exclusion(s) && CanRun(s, steps)
    ensures var t := Run(s, steps);
      && AllWellFormed(t) && Exclusion(t)
      && ((exists i :: 0 <= i < |t| && Unfinished(t[i])) ==> exists k :: 0 <= k < |t| && CanStep(t, k))
  {
    RunKeeps(s, steps);
    var t := Run(s, steps);
    if i :| 0 <= i < |t| && Unfinished(t[i]) {
      var max := BoundExists(t);
      var k := UnfinishedLeadsToStep(t, i, max);
    }
  }

  // ----- Every run ends -----

  function Work(t: Thread): nat
    requires WellFormed(t)
  {
    4 * |t.todo| - (match t.phase case Outside => 0 case FirstHeld => 1 case BothHeld => 2 case P1Held => 3)
  }

  function TotalWork(s: State): nat
    requires AllWellFormed(s)
  {
    if s == [] then 0 else Work(s[0]) + TotalWork(s[1..])
  }

  lemma {:induction false} WorkFalls(s: State, i: nat)
    requires AllWellFormed(s) && i < |s| && CanStep(s, i) && AllWellFormed(Apply(s, i))
    ensures TotalWork(Apply(s, i)) < TotalWork(s)
  {
    UpdateWork(s, i, Advance(s[i]));
  }

  lemma {:induction false} UpdateWork(s: State, i: nat, t: Thread)
    requires AllWellFormed(s) && i < |s| && WellFormed(t)
    ensures AllWellFormed(s[i := t])
    ensures TotalWork(s[i := t]) == TotalWork(s) - Work(s[i]) + Work(t)
  {
    if i == 0 {
      assert s[0 := t][1..] == s[1..];
    } else {
      UpdateWork(s[1..], i - 1, t);
      assert s[i := t][1..] == s[1..][i - 1 := t];
    }
  }

  // So no schedule is longer than the work there is, and together with `NoDeadlock` every maximal
  // schedule ends with all threads finished.
  lemma {:induction false} RunsEnd(s: State, steps: seq<nat>)
    requires AllWellFormed(s) && Exclusion(s) && CanRun(s, steps)
    ensures AllWellFormed(Run(s, steps)) && |steps| + TotalWork(Run(s, steps)) <= TotalWork(s)
    decreases |steps|
  {
    if steps == [] {
    } else {
      StepKeeps(s, steps[0]);
      WorkFalls(s, steps[0]);
      RunsEnd(Apply(s, steps[0]), steps[1..]);
    }
  }
}
