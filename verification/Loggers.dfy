/**
 Assigning and swapping loggers: the locks these operations take, and what they keep out meanwhile.
 */
module Loggers {
  import opened LockOrder

  datatype LoggerOp = AssignTo(target: Mutex, source: Mutex) | SwapBoth(p1: Mutex, p2: Mutex)

  // `assign` copies the source under a shared lock, released before the exclusive lock on the target; a
  // logger assigned to itself is left alone.
  function Locks(op: LoggerOp): seq<Op> {
    match op
    case AssignTo(target, source) =>
      if target == source then [] else [Single(source, Shared), Single(target, Exclusive)]
    case SwapBoth(p1, p2) => [Swap(p1, p2)]
  }

  function AllLocks(ops: seq<LoggerOp>): seq<Op> {
    if ops == [] then [] else Locks(ops[0]) + AllLocks(ops[1..])
  }

  predicate NoSelfSwap(ops: seq<LoggerOp>) {
    forall k :: 0 <= k < |ops| && ops[k].SwapBoth? ==> ops[k].p1 != ops[k].p2
  }

  lemma {:induction false} LocksWellFormed(ops: seq<LoggerOp>)
    requires NoSelfSwap(ops)
    ensures WellFormed(Thread(Outside, AllLocks(ops)))
  {
    if ops == [] {
    } else {
      LocksWellFormed(ops[1..]);
    }
  }

  // The threads before they begin.
  function Start(work: seq<seq<LoggerOp>>): State {
    seq(|work|, i requires 0 <= i < |work| => Thread(Outside, AllLocks(work[i])))
  }

  lemma StartIsSound(work: seq<seq<LoggerOp>>)
    requires forall i :: 0 <= i < |work| ==> NoSelfSwap(work[i])
    ensures AllWellFormed(Start(work)) && Exclusion(Start(work))
  {
    forall i | 0 <= i < |work| ensures WellFormed(Start(work)[i]) {
      LocksWellFormed(work[i]);
    }
  }

  // Threads that assign and swap any loggers, but never a logger with itself: no schedule is longer than
  // the locks there are to take and give back, nobody shares a logger with the thread that changes it,
  // and a schedule that cannot go on has finished all threads.
  lemma LoggersFinish(work: seq<seq<LoggerOp>>, steps: seq<nat>)
    requires forall i :: 0 <= i < |work| ==> NoSelfSwap(work[i])
    requires (StartIsSound(work); CanRun(Start(work), steps))
    ensures AllWellFormed(Start(work)) && Exclusion(Start(work))
    ensures var t := Run(Start(work), steps);
      && AllWellFormed(t) && Exclusion(t)
      && |steps| <= TotalWork(Start(work))
      && ((forall k :: 0 <= k < |t| ==> !CanStep(t, k)) ==> forall k :: 0 <= k < |t| ==> t[k].todo == [])
  {
    StartIsSound(work);
    NoDeadlock(Start(work), steps);
    RunsEnd(Start(work), steps);
    var t := Run(Start(work), steps);
    assert forall k :: 0 <= k < |t| && !Unfinished(t[k]) ==> t[k].todo == [];
  }

  // ----- Where a thread is in its work -----

  // The locks one operation takes.
  function LocksOf(op: LoggerOp): nat {
    if op.SwapBoth? then 1 else if op.target == op.source then 0 else 2
  }

  function LocksLeft(ops: seq<LoggerOp>): nat {
    if ops == [] then 0 else LocksOf(ops[0]) + LocksLeft(ops[1..])
  }

  // Inside one of the locks of the k-th operation, with `more` of its locks to come.
  predicate Inside(ops: seq<LoggerOp>, t: Thread, k: nat, more: nat) {
    k < |ops| && t.phase != Outside && |t.todo| == LocksLeft(ops[k + 1..]) + more + 1
  }

  // Copying the source, before the lock on the target.
  predicate Copying(ops: seq<LoggerOp>, t: Thread, k: nat) {
    Inside(ops, t, k, 1) && ops[k].AssignTo? && ops[k].target != ops[k].source
  }

  predicate Replacing(ops: seq<LoggerOp>, t: Thread, k: nat) {
    Inside(ops, t, k, 0) && ops[k].AssignTo? && ops[k].target != ops[k].source
  }

  predicate Swapping(ops: seq<LoggerOp>, t: Thread, k: nat) {
    Inside(ops, t, k, 0) && ops[k].SwapBoth?
  }

  predicate Done(ops: seq<LoggerOp>, t: Thread, k: nat) {
    k < |ops| && |t.todo| <= LocksLeft(ops[k + 1..])
  }

  lemma {:induction false} LocksCounted(ops: seq<LoggerOp>)
    ensures |AllLocks(ops)| == LocksLeft(ops)
  {
    if ops == [] {
    } else {
      LocksCounted(ops[1..]);
    }
  }

  // What is left of the work when it has come to an operation.
  lemma {:induction false} LocksFrom(ops: seq<LoggerOp>, k: nat)
    requires k < |ops|
    ensures LocksOf(ops[k]) + LocksLeft(ops[k + 1..]) <= |AllLocks(ops)|
    ensures AllLocks(ops)[|AllLocks(ops)| - LocksOf(ops[k]) - LocksLeft(ops[k + 1..])..] ==
              Locks(ops[k]) + AllLocks(ops[k + 1..])
  {
    LocksCounted(ops[k + 1..]);
    if k == 0 {
    } else {
      LocksFrom(ops[1..], k - 1);
      assert ops[1..][k - 1] == ops[k] && ops[1..][k..] == ops[k + 1..];
      var all, rest := AllLocks(ops), AllLocks(ops[1..]);
      var n := LocksOf(ops[k]) + LocksLeft(ops[k + 1..]);
      assert all[|all| - n..] == rest[|rest| - n..];
    }
  }

  // What a thread has still to do is the end of its work.
  ghost predicate Remaining(work: seq<seq<LoggerOp>>, s: State) {
    |s| == |work| && forall i :: 0 <= i < |s| ==> RemainingOf(work[i], s[i])
  }

  ghost predicate RemainingOf(ops: seq<LoggerOp>, t: Thread) {
    |t.todo| <= |AllLocks(ops)| && t.todo == AllLocks(ops)[|AllLocks(ops)| - |t.todo|..]
  }

  lemma AdvanceRemains(ops: seq<LoggerOp>, t: Thread)
    requires WellFormed(t) && Unfinished(t) && RemainingOf(ops, t)
    ensures RemainingOf(ops, Advance(t))
  {
    var all := AllLocks(ops);
    assert all[|all| - |t.todo|..][1..] == all[|all| - |t.todo| + 1..];
  }

  lemma RemainingStep(work: seq<seq<LoggerOp>>, s: State, i: nat)
    requires AllWellFormed(s) && i < |s| && CanStep(s, i) && Remaining(work, s)
    ensures Remaining(work, Apply(s, i))
  {
    AdvanceRemains(work[i], s[i]);
  }

  lemma {:induction false} RemainingRun(work: seq<seq<LoggerOp>>, s: State, steps: seq<nat>)
    requires AllWellFormed(s) && Exclusion(s) && CanRun(s, steps) && Remaining(work, s)
    ensures Remaining(work, Run(s, steps))
    decreases |steps|
  {
    if steps == [] {
    } else {
      StepKeeps(s, steps[0]);
      RemainingStep(work, s, steps[0]);
      RemainingRun(work, Apply(s, steps[0]), steps[1..]);
    }
  }

  lemma LockOf(ops: seq<LoggerOp>, t: Thread, k: nat, more: nat)
    requires RemainingOf(ops, t) && Inside(ops, t, k, more) && more < LocksOf(ops[k])
    ensures t.todo[0] == Locks(ops[k])[LocksOf(ops[k]) - 1 - more]
  {
    LocksFrom(ops, k);
  }

  // ----- Nobody else holds a logger that is being changed -----

  predicate HeldAlone(s: State, i: nat, m: Mutex)
    requires AllWellFormed(s) && i < |s|
  {
    Holds(s[i], m) && forall j :: 0 <= j < |s| && j != i ==> !Holds(s[j], m)
  }

  lemma ExclusiveIsAlone(s: State, i: nat, m: Mutex)
    requires AllWellFormed(s) && Exclusion(s) && i < |s| && HoldsExclusively(s[i], m)
    ensures HeldAlone(s, i, m)
  {
  }

  lemma ChangesAlone(ops: seq<LoggerOp>, s: State, i: nat, k: nat)
    requires AllWellFormed(s) && Exclusion(s) && i < |s| && k < |ops| && RemainingOf(ops, s[i])
    ensures Copying(ops, s[i], k) ==> Holds(s[i], ops[k].source)
    ensures Replacing(ops, s[i], k) ==> HeldAlone(s, i, ops[k].target)
    ensures Swapping(ops, s[i], k) ==>
              forall m: Mutex :: Holds(s[i], m) ==> (m == ops[k].p1 || m == ops[k].p2) && HeldAlone(s, i, m)
  {
    if Copying(ops, s[i], k) {
      LockOf(ops, s[i], k, 1);
    }
    if Replacing(ops, s[i], k) {
      LockOf(ops, s[i], k, 0);
      ExclusiveIsAlone(s, i, ops[k].target);
    }
    if Swapping(ops, s[i], k) {
      LockOf(ops, s[i], k, 0);
      forall m: Mutex | Holds(s[i], m) ensures (m == ops[k].p1 || m == ops[k].p2) && HeldAlone(s, i, m) {
        ExclusiveIsAlone(s, i, m);
      }
    }
  }

  // Wherever any threads get to with their assignments and swaps: one that replaces the content of its
  // target holds it alone, one that swaps holds alone whatever it holds, and one that copies holds the source.
  lemma LoggersExclude(work: seq<seq<LoggerOp>>, steps: seq<nat>, i: nat, k: nat)
    requires forall j :: 0 <= j < |work| ==> NoSelfSwap(work[j])
    requires (StartIsSound(work); CanRun(Start(work), steps)) && i < |work| && k < |work[i]|
    ensures AllWellFormed(Start(work)) && Exclusion(Start(work))
    ensures var s, op := Run(Start(work), steps), work[i][k];
      && |s| == |work| && AllWellFormed(s)
      && (Copying(work[i], s[i], k) ==> Holds(s[i], op.source))
      && (Replacing(work[i], s[i], k) ==> HeldAlone(s, i, op.target))
      && (Swapping(work[i], s[i], k) ==>
            forall m: Mutex :: Holds(s[i], m) ==> (m == op.p1 || m == op.p2) && HeldAlone(s, i, m))
  {
    StartIsSound(work);
    RunKeeps(Start(work), steps);
    RemainingRun(work, Start(work), steps);
    ChangesAlone(work[i], Run(Start(work), steps), i, k);
  }

  // ----- Who has to wait -----

  // Before the lock of the k-th operation that leaves `more` of its locks to come.
  predicate Before(ops: seq<LoggerOp>, t: Thread, k: nat, more: nat) {
    k < |ops| && t.phase == Outside && |t.todo| == LocksLeft(ops[k + 1..]) + more + 1
  }

  lemma LockBefore(ops: seq<LoggerOp>, t: Thread, k: nat, more: nat)
    requires RemainingOf(ops, t) && Before(ops, t, k, more) && more < LocksOf(ops[k])
    ensures t.todo[0] == Locks(ops[k])[LocksOf(ops[k]) - 1 - more]
  {
    LocksFrom(ops, k);
  }

  // A thread with a lock to take or give back is at one of its operations.
  lemma {:induction false} Located(ops: seq<LoggerOp>, n: nat) returns (k: nat, more: nat)
    requires 0 < n <= LocksLeft(ops)
    ensures k < |ops| && more < LocksOf(ops[k]) && n == LocksLeft(ops[k + 1..]) + more + 1
  {
    if n > LocksLeft(ops[1..]) {
      k, more := 0, n - LocksLeft(ops[1..]) - 1;
    } else {
      k, more := Located(ops[1..], n);
      assert ops[1..][k + 1..] == ops[k + 2..] && ops[1..][k] == ops[k + 1];
      k := k + 1;
    }
  }

  // The thread is changing the logger.
  predicate Changing(ops: seq<LoggerOp>, t: Thread, k: nat, m: Mutex)
    requires WellFormed(t)
  {
    (Replacing(ops, t, k) && ops[k].target == m) || (Swapping(ops, t, k) && Holds(t, m))
  }

  lemma ChangingIff(ops: seq<LoggerOp>, t: Thread, m: Mutex)
    requires WellFormed(t) && RemainingOf(ops, t)
    ensures HoldsExclusively(t, m) <==> exists k :: Changing(ops, t, k, m)
  {
    LocksCounted(ops);
    if HoldsExclusively(t, m) {
      var k, more := Located(ops, |t.todo|);
      LockOf(ops, t, k, more);
      assert Changing(ops, t, k, m);
    }
    if k :| Changing(ops, t, k, m) {
      LockOf(ops, t, k, 0);
    }
  }

  // Wherever they get to: a logger can be copied unless somebody is changing it, and its content can be
  // replaced unless somebody holds it at all.
  lemma WaitsIff(work: seq<seq<LoggerOp>>, steps: seq<nat>, i: nat, k: nat)
    requires forall j :: 0 <= j < |work| ==> NoSelfSwap(work[j])
    requires (StartIsSound(work); CanRun(Start(work), steps)) && i < |work| && k < |work[i]|
    requires work[i][k].AssignTo? && work[i][k].target != work[i][k].source
    ensures AllWellFormed(Start(work)) && Exclusion(Start(work))
    ensures var s, op := Run(Start(work), steps), work[i][k];
      && |s| == |work| && AllWellFormed(s)
      && (Before(work[i], s[i], k, 1) ==>
            (CanStep(s, i) <==> !exists j, l :: 0 <= j < |s| && Changing(work[j], s[j], l, op.source)))
      && (Before(work[i], s[i], k, 0) ==> (CanStep(s, i) <==> forall j :: 0 <= j < |s| ==> !Holds(s[j], op.target)))
  {
    StartIsSound(work);
    RunKeeps(Start(work), steps);
    RemainingRun(work, Start(work), steps);
    WaitsHere(work, Run(Start(work), steps), i, k);
  }

  lemma WaitsHere(work: seq<seq<LoggerOp>>, s: State, i: nat, k: nat)
    requires AllWellFormed(s) && Remaining(work, s) && i < |s| && k < |work[i]|
    requires work[i][k].AssignTo? && work[i][k].target != work[i][k].source
    ensures Before(work[i], s[i], k, 1) ==>
              (CanStep(s, i) <==> !exists j, l :: 0 <= j < |s| && Changing(work[j], s[j], l, work[i][k].source))
    ensures Before(work[i], s[i], k, 0) ==>
              (CanStep(s, i) <==> forall j :: 0 <= j < |s| ==> !Holds(s[j], work[i][k].target))
  {
    forall j | 0 <= j < |s|
      ensures HoldsExclusively(s[j], work[i][k].source) <==> exists l :: Changing(work[j], s[j], l, work[i][k].source)
    {
      ChangingIff(work[j], s[j], work[i][k].source);
    }
    if Before(work[i], s[i], k, 1) {
      LockBefore(work[i], s[i], k, 1);
    }
    if Before(work[i], s[i], k, 0) {
      LockBefore(work[i], s[i], k, 0);
    }
  }

  // ----- No lock is left out -----

  // `t` is the state after the first `n` steps.
  ghost predicate After(s: State, steps: seq<nat>, n: nat, t: State)
    requires AllWellFormed(s) && Exclusion(s)
  {
    n <= |steps| && CanRun(s, steps[..n]) && Run(s, steps[..n]) == t
  }

  lemma AfterCons(s: State, steps: seq<nat>, n: nat, t: State)
    requires AllWellFormed(s) && Exclusion(s) && steps != [] && steps[0] < |s| && CanStep(s, steps[0])
    requires AllWellFormed(Apply(s, steps[0])) && Exclusion(Apply(s, steps[0]))
    requires After(Apply(s, steps[0]), steps[1..], n, t)
    ensures After(s, steps, n + 1, t)
  {
    assert steps[..n + 1][1..] == steps[1..][..n];
    assert steps[..n + 1][0] == steps[0];
  }

  // In the lock that leaves `left` to come; of a swap, in both at once.
  predicate InLock(t: Thread, left: nat) {
    |t.todo| == left + 1 && t.phase == if t.todo[0].Swap? then BothHeld else FirstHeld
  }

  // A thread that has got past one of its locks has been in it.
  lemma {:induction false} PassesLock(s: State, steps: seq<nat>, i: nat, left: nat) returns (n: nat, t: State)
    requires AllWellFormed(s) && Exclusion(s) && CanRun(s, steps) && i < |s|
    requires |Run(s, steps)| == |s| && |Run(s, steps)[i].todo| <= left < |s[i].todo|
    requires |s[i].todo| == left + 1 ==> s[i].phase != P1Held
    ensures After(s, steps, n, t) && |t| == |s| && InLock(t[i], left)
    decreases |steps|
  {
    if InLock(s[i], left) {
      n, t := 0, s;
      assert steps[..0] == [];
    } else {
      StepKeeps(s, steps[0]);
      n, t := PassesLock(Apply(s, steps[0]), steps[1..], i, left);
      AfterCons(s, steps, n, t);
      n := n + 1;
    }
  }

  // At some time the thread was inside this lock of its k-th operation and held all of these.
  ghost predicate HasHeld(work: seq<seq<LoggerOp>>, steps: seq<nat>, i: nat, k: nat, more: nat, ms: set<Mutex>)
    requires AllWellFormed(Start(work)) && Exclusion(Start(work)) && i < |work|
  {
    exists n, t: State :: After(Start(work), steps, n, t) && |t| == |work| && AllWellFormed(t) &&
      Inside(work[i], t[i], k, more) && forall m :: m in ms ==> Holds(t[i], m)
  }

  lemma LockWasHeld(work: seq<seq<LoggerOp>>, steps: seq<nat>, i: nat, k: nat, more: nat, ms: set<Mutex>)
    requires AllWellFormed(Start(work)) && Exclusion(Start(work)) && CanRun(Start(work), steps)
    requires i < |work| && k < |work[i]| && more < LocksOf(work[i][k])
    requires |Run(Start(work), steps)| == |work| && Done(work[i], Run(Start(work), steps)[i], k)
    requires var op := work[i][k];
      ms == if op.SwapBoth? then {op.p1, op.p2} else if more == 1 then {op.source} else {op.target}
    ensures HasHeld(work, steps, i, k, more, ms)
  {
    var s, left := Start(work), LocksLeft(work[i][k + 1..]) + more;
    LocksFrom(work[i], k);
    var n, t := PassesLock(s, steps, i, left);
    RunKeeps(s, steps[..n]);
    RemainingRun(work, s, steps[..n]);
    InLockHolds(work[i], t[i], k, more, ms);
  }

  lemma InLockHolds(ops: seq<LoggerOp>, t: Thread, k: nat, more: nat, ms: set<Mutex>)
    requires WellFormed(t) && RemainingOf(ops, t) && k < |ops| && more < LocksOf(ops[k])
    requires InLock(t, LocksLeft(ops[k + 1..]) + more)
    requires var op := ops[k];
      ms == if op.SwapBoth? then {op.p1, op.p2} else if more == 1 then {op.source} else {op.target}
    ensures Inside(ops, t, k, more) && forall m :: m in ms ==> Holds(t, m)
  {
    LockOf(ops, t, k, more);
  }

  // Every assignment that is done, but of a logger to itself, has held its source while it copied and its
  // target while it replaced the content; every swap that is done has held both loggers at once.
  lemma LoggersAreLocked(work: seq<seq<LoggerOp>>, steps: seq<nat>, i: nat, k: nat)
    requires forall j :: 0 <= j < |work| ==> NoSelfSwap(work[j])
    requires (StartIsSound(work); CanRun(Start(work), steps)) && i < |work| && k < |work[i]|
    ensures AllWellFormed(Start(work)) && Exclusion(Start(work)) && |Run(Start(work), steps)| == |work|
    ensures Done(work[i], Run(Start(work), steps)[i], k) ==>
              var op := work[i][k];
              && (op.AssignTo? && op.target != op.source ==>
                    HasHeld(work, steps, i, k, 1, {op.source}) && HasHeld(work, steps, i, k, 0, {op.target}))
              && (op.SwapBoth? ==> HasHeld(work, steps, i, k, 0, {op.p1, op.p2}))
  {
    StartIsSound(work);
    RunKeeps(Start(work), steps);
    var op := work[i][k];
    if Done(work[i], Run(Start(work), steps)[i], k) {
      if op.SwapBoth? {
        LockWasHeld(work, steps, i, k, 0, {op.p1, op.p2});
      } else if op.target != op.source {
        LockWasHeld(work, steps, i, k, 1, {op.source});
        LockWasHeld(work, steps, i, k, 0, {op.target});
      }
    }
  }
}
