/**
 `basic_ostringstreambuf`: a stream buffer of sixteen slots in front of an external string that can
 be exchanged, and the plain appending it stands for. Appending past the string's `max_size`
 throws and leaves the string alone.
 */
module StreamBuffer {
  import opened Records

  const SLOTS: nat := 16

  // The attached string and the characters still buffered for it.
  datatype Content = Content(text: string, pending: string)
  {
    // What the string will hold once the buffer is flushed.
    function Whole(): string {
      text + pending
    }
  }

  // `sync`: false when the append throws.
  function Sync(max: nat, b: Content): (bool, Content) {
    if |b.text| + |b.pending| <= max then (true, Content(b.text + b.pending, [])) else (false, b)
  }

  // `sputc`, which calls `overflow` on a full buffer.
  function Put(max: nat, b: Content, c: char): (bool, Content) {
    if |b.pending| < SLOTS then (true, b.(pending := b.pending + [c]))
    else
      var (ok, s) := Sync(max, b);
      if ok && |s.text| < max then (true, s.(text := s.text + [c])) else (false, s)
  }

  // `xsputn`: the number of characters appended.
  function Write(max: nat, b: Content, chars: string): (bool, nat, Content) {
    var (ok, s) := Sync(max, b);
    if !ok then (false, 0, s)
    else
      var n := if |s.text| + |chars| <= max then |chars| else if |s.text| <= max then max - |s.text| else 0;
      (true, n, s.(text := s.text + chars[..n]))
  }

  class StringBox {
    var text: string

    constructor (text: string)
      ensures this.text == text
    {
      this.text := text;
    }

    // string::append or push_back
    method Append(chars: string, max: nat) returns (ok: bool)
      modifies this
      ensures ok <==> |old(text)| + |chars| <= max
      ensures text == if ok then old(text) + chars else old(text)
    {
      ok := |text| + |chars| <= max;
      if ok {
        text := text + chars;
      }
    }
  }

  class OStringStreamBuf {
    const max: nat
    const buffer: array<char>
    var storage: StringBox?
    var next: nat

    ghost predicate Valid()
      reads this, storage
    {
      buffer.Length == SLOTS && next <= SLOTS && (storage != null ==> |storage.text| <= max)
    }

    function Pending(): string
      reads this, buffer
      requires next <= buffer.Length
    {
      buffer[..next]
    }

    function Snapshot(): Content
      reads this, buffer, storage
      requires storage != null && next <= buffer.Length
    {
      Content(storage.text, Pending())
    }

    constructor (max: nat)
      ensures Valid() && fresh(buffer) && this.max == max && storage == null && Pending() == []
    {
      this.max := max;
      buffer := new char[SLOTS];
      storage, next := null, 0;
    }

    // Drops whatever is buffered.
    method Clear()
      requires Valid()
      modifies this`next
      ensures Valid() && Pending() == []
    {
      next := 0;
    }

    method Synchronize() returns (ok: bool)
      requires Valid() && storage != null
      modifies this`next, storage
      ensures Valid() && (ok, Snapshot()) == Sync(max, old(Snapshot()))
      ensures ok <==> |old(storage.text)| + |old(Pending())| <= max
      ensures if ok then storage.text == old(storage.text) + old(Pending()) && Pending() == []
              else storage.text == old(storage.text) && Pending() == old(Pending())
    {
      ok := true;
      assert next == 0 ==> storage.text + buffer[..next] == storage.text;
      if next != 0 {
        ok := storage.Append(buffer[..next], max);
        if ok {
          next := 0;
        }
      }
    }

    method Overflow(c: Option<char>) returns (ok: bool)
      requires Valid() && storage != null
      modifies this`next, storage
      ensures Valid()
      ensures var (synced, s) := Sync(max, old(Snapshot()));
        var fits := c.None? || |s.text| < max;
        && (ok <==> synced && fits)
        && Snapshot() == if ok && c.Some? then s.(text := s.text + [c.value]) else s
    {
      ok := Synchronize();
      if ok && c.Some? {
        ok := storage.Append([c.value], max);
      }
    }

    method PutChar(c: char) returns (ok: bool)
      requires Valid() && (storage != null || next < SLOTS)
      modifies this`next, storage, buffer
      ensures Valid()
      ensures storage != null ==> (ok, Snapshot()) == Put(max, old(Snapshot()), c)
      ensures |old(Pending())| < 16 ==>
                && ok && Pending() == old(Pending()) + [c]
                && (storage != null ==> storage.text == old(if storage == null then [] else storage.text))
      ensures storage == null ==> ok && Pending() == old(Pending()) + [c]
    {
      if next < SLOTS {
        buffer[next] := c;
        next := next + 1;
        assert buffer[..next] == old(buffer[..next]) + [c];
        ok := true;
      } else {
        ok := Overflow(Some(c));
      }
    }

    method PutString(chars: string) returns (ok: bool, n: nat)
      requires Valid() && storage != null
      modifies this`next, storage
      ensures Valid() && (ok, n, Snapshot()) == Write(max, old(Snapshot()), chars)
      ensures ok <==> |old(storage.text)| + |old(Pending())| <= max
      ensures ok ==>
                var before := old(storage.text) + old(Pending());
                && n == (if |before| + |chars| <= max then |chars| else max - |before|)
                && storage.text == before + chars[..n] && Pending() == []
      ensures !ok ==> n == 0 && storage.text == old(storage.text) && Pending() == old(Pending())
    {
      n := 0;
      ok := Synchronize();
      if ok {
        var maxStorageLeft := max - |storage.text|;
        if |chars| < maxStorageLeft {
          n := |chars|;
        } else {
          n := maxStorageLeft;
        }
        var appended := storage.Append(chars[..n], max);
      }
    }

    // Flushes into the attached string, if any, and lets go of it.
    method Detach() returns (ok: bool)
      requires Valid()
      modifies this, storage
      ensures Valid()
      ensures old(storage) == null ==> ok && storage == null && Pending() == old(Pending())
      ensures old(storage) != null ==>
                var (synced, s) := Sync(max, old(Snapshot()));
                && ok == synced && old(storage).text == s.text && Pending() == s.pending
                && storage == if ok then null else old(storage)
    {
      ok := true;
      if storage != null {
        ok := Synchronize();
        if ok {
          storage := null;
        }
      }
    }

    method Attach(other: StringBox) returns (ok: bool)
      requires Valid() && |other.text| <= max
      modifies this, storage
      ensures Valid() && (other != old(storage) ==> other.text == old(other.text))
      ensures storage == if ok then other else old(storage)
      ensures old(storage) == null ==> ok && Pending() == old(Pending())
      ensures old(storage) != null ==>
                var (synced, s) := Sync(max, old(Snapshot()));
                ok == synced && old(storage).text == s.text && Pending() == s.pending
    {
      ok := Detach();
      if ok {
        storage := other;
      }
    }
  }

  // ----- The buffer appends -----

  // Every put appends to the whole content exactly what it reports as done, and the string itself
  // never grows past its limit.
  lemma PutsAppend(max: nat, b: Content, c: char, chars: string)
    requires |b.text| <= max && |b.pending| <= SLOTS
    ensures var (ok, s) := Put(max, b, c);
      && s.Whole() == b.Whole() + (if ok then [c] else [])
      && |s.text| <= max && |s.pending| <= SLOTS
      && (!ok ==> |b.Whole()| >= max)
    ensures var (ok, n, s) := Write(max, b, chars);
      && n <= |chars| && s.Whole() == b.Whole() + chars[..n]
      && |s.text| <= max && |s.pending| <= SLOTS
      && (ok ==> s.pending == [] && (n == |chars| || |s.text| == max))
      && (!ok ==> n == 0 && |b.Whole()| > max)
  {
    assert b.text + (b.pending + [c]) == (b.text + b.pending) + [c];
    var (ok, s) := Sync(max, b);
    assert s.Whole() == b.Whole();
  }

  // ----- Several strings, one buffer -----

  datatype Op = PutOp(c: char) | WriteOp(chars: string) | FlushOp | ClearOp | AttachOp(k: nat) | DetachOp

  // The strings by number, the attached one, and the buffered characters.
  datatype State = State(strings: seq<string>, target: Option<nat>, pending: string)

  predicate Known(s: State, k: nat) {
    k < |s.strings|
  }

  function Hold(s: State, b: Content): State
    requires s.target.Some? && Known(s, s.target.value)
  {
    s.(strings := s.strings[s.target.value := b.text], pending := b.pending)
  }

  function Held(s: State): Content
    requires s.target.Some? && Known(s, s.target.value)
  {
    Content(s.strings[s.target.value], s.pending)
  }

  // What the calls assert: output goes to an attached string, but for characters that fit the buffer.
  predicate Ready(s: State, op: Op) {
    && (s.target.Some? ==> Known(s, s.target.value))
    && (op.PutOp? ==> s.target.Some? || |s.pending| < SLOTS)
    && (op.WriteOp? || op.FlushOp? ==> s.target.Some?)
    && (op.AttachOp? ==> Known(s, op.k))
  }

  // One call on the stream.
  function Apply(max: nat, s: State, op: Op): State
    requires Ready(s, op)
  {
    match op
    case PutOp(c) => if s.target.Some? then Hold(s, Put(max, Held(s), c).1) else s.(pending := s.pending + [c])
    case WriteOp(chars) => Hold(s, Write(max, Held(s), chars).2)
    case FlushOp => Hold(s, Sync(max, Held(s)).1)
    case ClearOp => s.(pending := [])
    case AttachOp(k) => Retarget(max, s, Some(k))
    case DetachOp => Retarget(max, s, None)
  }

  // Detaching synchronizes first; if that throws, the buffer stays attached.
  function Retarget(max: nat, s: State, target: Option<nat>): State
    requires s.target.Some? ==> Known(s, s.target.value)
  {
    if s.target.None? then s.(target := target)
    else
      var (ok, b) := Sync(max, Held(s));
      if ok then Hold(s, b).(target := target) else s
  }

  // What a call reports as written to the attached string: the character that was put unless the put
  // throws, as many characters as `xsputn` returns.
  function Reported(max: nat, s: State, op: Op): string
    requires Ready(s, op)
  {
    if s.target.None? then []
    else
      match op
      case PutOp(c) => if Put(max, Held(s), c).0 then [c] else []
      case WriteOp(chars) => chars[..Write(max, Held(s), chars).1]
      case _ => []
  }

  // The string, with what is buffered for it.
  function Account(s: State, k: nat): string
    requires Known(s, k)
  {
    s.strings[k] + if s.target == Some(k) then s.pending else []
  }

  // No string grows past `max_size`.
  ghost predicate Sound(max: nat, s: State) {
    && (s.target.Some? ==> Known(s, s.target.value))
    && |s.pending| <= SLOTS
    && (forall k :: 0 <= k < |s.strings| ==> |s.strings[k]| <= max)
  }

  function Shortened(text: string, n: nat): string {
    if n <= |text| then text[..|text| - n] else []
  }

  // What a string that held `own` is due after a call: what the call reports as written to it. Clearing
  // takes back what is still buffered for it.
  function Due(max: nat, s: State, op: Op, k: nat, own: string): string
    requires Ready(s, op)
  {
    if s.target != Some(k) then own
    else if op.ClearOp? then Shortened(own, |s.pending|)
    else own + Reported(max, s, op)
  }

  // What it receives: the string being attached also gets the characters put while there was none.
  function Received(max: nat, s: State, op: Op, k: nat, own: string): string
    requires Ready(s, op)
  {
    if s.target.None? && op == AttachOp(k) then own + s.pending else Due(max, s, op, k, own)
  }

  lemma HoldAccounts(max: nat, s: State, b: Content, chars: string, k: nat)
    requires Sound(max, s) && s.target.Some? && Known(s, k)
    requires b.Whole() == Held(s).Whole() + chars && |b.text| <= max && |b.pending| <= SLOTS
    ensures Sound(max, Hold(s, b))
    ensures Account(Hold(s, b), k) == if s.target == Some(k) then Account(s, k) + chars else Account(s, k)
  {
  }

  lemma RetargetAccounts(max: nat, s: State, target: Option<nat>, k: nat)
    requires Sound(max, s) && Known(s, k) && (target.Some? ==> Known(s, target.value))
    ensures Sound(max, Retarget(max, s, target))
    ensures Account(Retarget(max, s, target), k) ==
      if s.target.None? && target == Some(k) then Account(s, k) + s.pending else Account(s, k)
  {
    if s.target.None? {
      assert s.strings[k] + [] == s.strings[k];
    } else {
      assert Held(s).Whole() + [] == Held(s).Whole();
      HoldAccounts(max, s, Sync(max, Held(s)).1, [], k);
      assert s.strings[k] + [] == s.strings[k];
    }
  }

  // One call: every string, with what is buffered for it, is what it was plus what it receives, and no
  // string grows past its limit, whether the call succeeds or throws.
  lemma StepAccounts(max: nat, s: State, op: Op, k: nat)
    requires Sound(max, s) && Ready(s, op) && Known(s, k)
    ensures var t := Apply(max, s, op);
      Sound(max, t) && |t.strings| == |s.strings| && Account(t, k) == Received(max, s, op, k, Account(s, k))
  {
    match op
    case PutOp(c) =>
      if s.target.Some? {
        PutsAppend(max, Held(s), c, []);
        HoldAccounts(max, s, Put(max, Held(s), c).1, Reported(max, s, op), k);
      }
    case WriteOp(chars) =>
      PutsAppend(max, Held(s), 'x', chars);
      HoldAccounts(max, s, Write(max, Held(s), chars).2, Reported(max, s, op), k);
    case FlushOp =>
      assert Held(s).Whole() + [] == Held(s).Whole();
      HoldAccounts(max, s, Sync(max, Held(s)).1, [], k);
    case ClearOp =>
      ClearAccounts(s, k);
    case AttachOp(j) =>
      RetargetAccounts(max, s, Some(j), k);
      assert Account(s, k) + [] == Account(s, k);
    case DetachOp =>
      RetargetAccounts(max, s, None, k);
      assert Account(s, k) + [] == Account(s, k);
  }

  lemma ClearAccounts(s: State, k: nat)
    requires Known(s, k)
    ensures Account(s.(pending := []), k) ==
      if s.target == Some(k) then Shortened(Account(s, k), |s.pending|) else Account(s, k)
  {
    var text := s.strings[k];
    assert text + [] == text && (text + s.pending)[..|text|] == text;
  }

  // A call reports everything it was asked to write exactly when it fits: a character into a free slot
  // or a string below its limit, a sequence into what the buffered characters leave of it.
  lemma AllReportedIff(max: nat, s: State, op: Op)
    requires Sound(max, s) && Ready(s, op) && s.target.Some?
    ensures var size := |Account(s, s.target.value)|;
      && (op.PutOp? ==> (Reported(max, s, op) == [op.c] <==> |s.pending| < SLOTS || size < max))
      && (op.WriteOp? ==> (Reported(max, s, op) == op.chars <==> op.chars == [] || size + |op.chars| <= max))
  {
  }

  // What is buffered for the attached string fits into it.
  predicate Fits(max: nat, s: State)
    requires s.target.Some? ==> Known(s, s.target.value)
  {
    s.target.Some? ==> |s.strings[s.target.value]| + |s.pending| <= max
  }

  // A flush, a detach or an attach leaves everything in the string attached so far, or, if that is full, has
  // no effect at all; a detach leaves none attached, an attach the new one; clearing drops what is buffered.
  // Characters that still have a slot go no further.
  lemma CallsTakeEffect(max: nat, s: State, op: Op)
    requires Sound(max, s) && Ready(s, op)
    ensures var t := Apply(max, s, op);
      && (op.FlushOp? || op.DetachOp? || op.AttachOp? ==>
            && (!Fits(max, s) ==> t == s)
            && (Fits(max, s) && s.target.Some? ==>
                  t.pending == [] && t.strings == s.strings[s.target.value := Account(s, s.target.value)])
            && (s.target.None? ==> t.pending == s.pending && t.strings == s.strings))
      && t.target == (if !Fits(max, s) then s.target else if op.DetachOp? then None
                      else if op.AttachOp? then Some(op.k) else s.target)
      && (op.ClearOp? ==> t.pending == [] && t.strings == s.strings)
      && (op.PutOp? && |s.pending| < 16 ==> t.pending == s.pending + [op.c] && t.strings == s.strings)
      && (op.WriteOp? && Fits(max, s) ==> t.pending == [])
  {
  }

  // ----- Sessions -----

  // Any calls, each of them made where its assertion holds.
  ghost predicate Session(max: nat, s: State, ops: seq<Op>)
    decreases |ops|
  {
    ops == [] || (Ready(s, ops[0]) && Session(max, Apply(max, s, ops[0]), ops[1..]))
  }

  ghost function Run(max: nat, s: State, ops: seq<Op>): State
    requires Session(max, s, ops)
    decreases |ops|
  {
    if ops == [] then s else Run(max, Apply(max, s, ops[0]), ops[1..])
  }

  // What all calls together make of a string that held `own`.
  ghost function Total(max: nat, s: State, ops: seq<Op>, k: nat, own: string): string
    requires Session(max, s, ops)
    decreases |ops|
  {
    if ops == [] then own
    else Total(max, Apply(max, s, ops[0]), ops[1..], k, Received(max, s, ops[0], k, own))
  }

  lemma {:induction false} SessionAccounts(max: nat, s: State, ops: seq<Op>, k: nat)
    requires Sound(max, s) && Session(max, s, ops) && Known(s, k)
    ensures var t := Run(max, s, ops);
      Sound(max, t) && |t.strings| == |s.strings| && Account(t, k) == Total(max, s, ops, k, Account(s, k))
    decreases |ops|
  {
    if ops == [] {
    } else {
      StepAccounts(max, s, ops[0], k);
      SessionAccounts(max, Apply(max, s, ops[0]), ops[1..], k);
    }
  }

  // After every call each string has received exactly what it was due.
  ghost predicate OwnSegments(max: nat, s: State, ops: seq<Op>)
    requires Session(max, s, ops)
    decreases |ops|
  {
    ops == [] ||
    var t := Apply(max, s, ops[0]);
    && |t.strings| == |s.strings|
    && (forall k :: 0 <= k < |s.strings| ==> Account(t, k) == Due(max, s, ops[0], k, Account(s, k)))
    && OwnSegments(max, t, ops[1..])
  }

  // Nothing is buffered whenever a string is attached to a stream that has none.
  ghost predicate CleanAttaches(max: nat, s: State, ops: seq<Op>)
    requires Session(max, s, ops)
    decreases |ops|
  {
    ops == [] ||
    ((ops[0].AttachOp? && s.target.None? ==> s.pending == []) && CleanAttaches(max, Apply(max, s, ops[0]), ops[1..]))
  }

  // Every string receives exactly its own segments exactly when nothing is pending at the attaches.
  lemma {:induction false} OwnSegmentsIff(max: nat, s: State, ops: seq<Op>)
    requires Sound(max, s) && Session(max, s, ops)
    ensures OwnSegments(max, s, ops) <==> CleanAttaches(max, s, ops)
    decreases |ops|
  {
    if ops == [] {
    } else {
      OwnStepIff(max, s, ops[0]);
      OwnSegmentsIff(max, Apply(max, s, ops[0]), ops[1..]);
    }
  }

  lemma OwnStepIff(max: nat, s: State, op: Op)
    requires Sound(max, s) && Ready(s, op)
    ensures var t := Apply(max, s, op);
      && Sound(max, t) && |t.strings| == |s.strings|
      && ((forall k :: 0 <= k < |s.strings| ==> Account(t, k) == Due(max, s, op, k, Account(s, k)))
          <==> (op.AttachOp? && s.target.None? ==> s.pending == []))
  {
    var t := Apply(max, s, op);
    forall k | 0 <= k < |s.strings|
      ensures Account(t, k) == Received(max, s, op, k, Account(s, k))
    {
      StepAccounts(max, s, op, k);
    }
    if op.AttachOp? && s.target.None? {
      var own := Account(s, op.k);
      assert |own + s.pending| == |own| + |s.pending|;
      assert own + [] == own;
    }
    StepSound(max, s, op);
  }

  lemma StepSound(max: nat, s: State, op: Op)
    requires Sound(max, s) && Ready(s, op)
    ensures Sound(max, Apply(max, s, op)) && |Apply(max, s, op).strings| == |s.strings|
  {
    if s.strings != [] {
      StepAccounts(max, s, op, 0);
    }
  }

  // Everything reported as written while string `k` was attached.
  ghost function Written(max: nat, s: State, ops: seq<Op>, k: nat): string
    requires Session(max, s, ops)
    decreases |ops|
  {
    if ops == [] then []
    else
      (if s.target == Some(k) then Reported(max, s, ops[0]) else []) +
      Written(max, Apply(max, s, ops[0]), ops[1..], k)
  }

  // Whatever characters, strings, flushes, attaches and detaches make up a session, fail or succeed:
  // each string, with what is buffered for it, is its initial content and then everything reported as
  // written while it was attached; and none ever grows past `max_size`.
  lemma {:induction false} SessionAppends(max: nat, s: State, ops: seq<Op>, k: nat)
    requires Sound(max, s) && Session(max, s, ops) && Known(s, k)
    requires CleanAttaches(max, s, ops) && forall i :: 0 <= i < |ops| ==> !ops[i].ClearOp?
    ensures var t := Run(max, s, ops);
      Sound(max, t) && Known(t, k) && Account(t, k) == Account(s, k) + Written(max, s, ops, k)
    decreases |ops|
  {
    if ops == [] {
      assert Account(s, k) + [] == Account(s, k);
    } else {
      StepAccounts(max, s, ops[0], k);
      SessionAppends(max, Apply(max, s, ops[0]), ops[1..], k);
      var here := if s.target == Some(k) then Reported(max, s, ops[0]) else [];
      var later := Written(max, Apply(max, s, ops[0]), ops[1..], k);
      assert Account(s, k) + [] == Account(s, k);
      assert Account(s, k) + here + later == Account(s, k) + (here + later);
    }
  }

  lemma {:induction false} RunSnoc(max: nat, s: State, ops: seq<Op>, op: Op, k: nat)
    requires Session(max, s, ops) && Ready(Run(max, s, ops), op)
    ensures Session(max, s, ops + [op]) && Run(max, s, ops + [op]) == Apply(max, Run(max, s, ops), op)
    ensures op.FlushOp? ==> Written(max, s, ops + [op], k) == Written(max, s, ops, k)
    decreases |ops|
  {
    if ops == [] {
      assert (ops + [op])[1..] == [];
    } else {
      RunSnoc(max, Apply(max, s, ops[0]), ops[1..], op, k);
      assert (ops + [op])[1..] == ops[1..] + [op];
    }
  }

  // A session that ends with a flush: if what is buffered fits, the string itself, with nothing buffered any
  // more, is its initial content and then everything reported as written while it was attached.
  lemma FlushDelivers(max: nat, s: State, ops: seq<Op>, k: nat)
    requires Sound(max, s) && Session(max, s, ops) && Known(s, k) && CleanAttaches(max, s, ops)
    requires forall i :: 0 <= i < |ops| ==> !ops[i].ClearOp?
    requires Run(max, s, ops).target == Some(k) && (s.target != Some(k) || s.pending == [])
    ensures Session(max, s, ops + [FlushOp])
    ensures var t := Run(max, s, ops + [FlushOp]);
      if |s.strings[k]| + |Written(max, s, ops + [FlushOp], k)| <= max then
        t.pending == [] && Known(t, k) && t.strings[k] == s.strings[k] + Written(max, s, ops + [FlushOp], k)
      else
        t == Run(max, s, ops)
  {
    SessionAppends(max, s, ops, k);
    var u := Run(max, s, ops);
    RunSnoc(max, s, ops, FlushOp, k);
    CallsTakeEffect(max, u, FlushOp);
    assert Account(s, k) == s.strings[k];
  }

  // Characters put while detached stay in the buffer and end up in whichever string comes next.
  method PutWhileDetached(b: OStringStreamBuf, c: char, other: StringBox) returns (ok: bool)
    requires b.Valid() && b.storage == null && b.Pending() == [] && |other.text| <= b.max
    modifies b, b.buffer
    ensures ok && b.Valid() && b.storage == other && b.Snapshot() == Content(other.text, [c])
  {
    ok := b.PutChar(c);
    ok := b.Attach(other);
  }
}
