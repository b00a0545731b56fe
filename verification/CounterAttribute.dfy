/**
 The `counter` attribute. Integers of the source are represented modulo the size of their type: the
 value type has `size` values, `long` and the atomic counter have `longs`, and the type in which
 `initial - 1` and `initial + 1` are computed has `promoted`; all are multiples of `size`, because value
 types wider than `long` do not compile (counter.hpp:50-52).
 */
module CounterAttribute {

  // ----- Residues -----

  lemma ModUnique(x: int, m: int, q: int, r: int)
    requires 0 <= r < m && x == q * m + r
    ensures x % m == r
  {
    var d := q - x / m;
    assert x == x / m * m + x % m;
    assert d * m == x % m - r;
  }

  lemma ModShift(x: int, m: int, k: int)
    requires m > 0
    ensures (x + k * m) % m == x % m
  {
    assert x == x / m * m + x % m;
    assert (x / m + k) * m == x / m * m + k * m;
    ModUnique(x + k * m, m, x / m + k, x % m);
  }

  // Two numbers with the same residue.
  ghost predicate Same(x: int, y: int, m: int) {
    exists k: int :: Differ(x, y, m, k)
  }

  predicate Differ(x: int, y: int, m: int, k: int) {
    x == y + k * m
  }

  lemma SameMod(x: int, y: int, m: int)
    requires m > 0 && Same(x, y, m)
    ensures x % m == y % m
  {
    var k: int :| Differ(x, y, m, k);
    ModShift(y, m, k);
  }

  // Truncating to a type whose size is a multiple of `m` does not change the residue.
  lemma Truncate(x: int, m: int, wider: int)
    requires m > 0 && wider > 0 && wider % m == 0
    ensures Same(x % wider, x, m)
  {
    var q, f := x / wider, wider / m;
    assert x == q * wider + x % wider && wider == f * m;
    assert q * (f * m) == (q * f) * m;
    assert (-(q * f)) * m == -((q * f) * m);
    assert Differ(x % wider, x, m, -(q * f));
  }

  lemma SameTrans(x: int, y: int, z: int, m: int)
    requires Same(x, y, m) && Same(y, z, m)
    ensures Same(x, z, m)
  {
    var k: int :| Differ(x, y, m, k);
    var l: int :| Differ(y, z, m, l);
    assert (k + l) * m == k * m + l * m;
    assert Differ(x, z, m, k + l);
  }

  lemma SamePlus(x: int, y: int, c: int, m: int)
    requires Same(x, y, m)
    ensures Same(x + c, y + c, m)
  {
    var k: int :| Differ(x, y, m, k);
    assert Differ(x + c, y + c, m, k);
  }

  lemma SameTimes(x: int, y: int, c: int, m: int)
    requires Same(x, y, m)
    ensures Same(x * c, y * c, m)
  {
    var k: int :| Differ(x, y, m, k);
    assert (y + k * m) * c == y * c + k * m * c;
    assert k * m * c == (k * c) * m;
    assert Differ(x * c, y * c, m, k * c);
  }

  // ----- The attribute -----

  datatype Kind = Increment | Decrement | Generic | SingleThreaded

  class Counter {
    const kind: Kind
    const initial: int
    const step: int
    const size: nat
    const longs: nat
    var counter: int
    ghost var calls: nat

    ghost predicate Valid()
      reads this
    {
      && 0 < size && 0 < longs && longs % size == 0
      && match kind
         case Increment => step == 1 && Same(counter, initial - 1 + calls, size)
         case Decrement => step == -1 && Same(counter, initial + 1 - calls, size)
         case Generic => Same(counter, calls - 1, size)
         case SingleThreaded => Same(counter, initial - step + calls * step, size)
    }

    // `threads`: whether the library is built with multithreading support.
    constructor (initial: int, step: int, size: nat, longs: nat, promoted: nat, threads: bool)
      requires 0 < size && 0 < longs && longs % size == 0 && 0 < promoted && promoted % size == 0
      ensures Valid() && calls == 0
      ensures this.initial == initial && this.step == step && this.size == size
      ensures threads ==> kind == if step == 1 then Increment else if step == -1 then Decrement else Generic
    {
      this.initial, this.step, this.size, this.longs := initial, step, size, longs;
      kind := if !threads then SingleThreaded else if step == 1 then Increment
              else if step == -1 then Decrement else Generic;
      counter := if !threads then (initial - step) % longs % size
                 else if step == 1 then (initial - 1) % promoted % longs
                 else if step == -1 then (initial + 1) % promoted % longs
                 else -1 % longs;
      calls := 0;
      new;
      Start(initial - step, size, longs, size);
      Start(initial - 1, size, promoted, longs);
      Start(initial + 1, size, promoted, longs);
      Truncate(-1, size, longs);
    }

    static lemma Start(x: int, size: nat, first: nat, second: nat)
      requires 0 < size && 0 < first && first % size == 0 && 0 < second && second % size == 0
      ensures Same(x % first % second, x, size)
    {
      Truncate(x, size, first);
      Truncate(x % first, size, second);
      SameTrans(x % first % second, x % first, x, size);
    }

    // static_cast< value_type >(++m_Counter)
    method NextIncrement() returns (value: int)
      requires Valid() && kind == Increment
      modifies this
      ensures Valid() && calls == old(calls) + 1 && value == (initial + old(calls) * step) % size
    {
      Stepped(counter, 1, initial - 1 + calls, size, longs);
      counter := (counter + 1) % longs;
      value := counter % size;
      calls := calls + 1;
    }

    method NextDecrement() returns (value: int)
      requires Valid() && kind == Decrement
      modifies this
      ensures Valid() && calls == old(calls) + 1 && value == (initial + old(calls) * step) % size
    {
      Stepped(counter, -1, initial + 1 - calls, size, longs);
      counter := (counter - 1) % longs;
      value := counter % size;
      calls := calls + 1;
    }

    // m_Initial + next_counter * m_Step, in unsigned long
    method NextGeneric() returns (value: int)
      requires Valid() && kind == Generic
      modifies this
      ensures Valid() && calls == old(calls) + 1 && value == (initial + old(calls) * step) % size
    {
      Stepped(counter, 1, calls - 1, size, longs);
      counter := (counter + 1) % longs;
      Multiplied(counter, calls, initial, step, size, longs);
      value := (initial + counter * step % longs) % longs % size;
      calls := calls + 1;
    }

    // m_Counter += m_Step, truncated to the value type each time
    method NextSingleThreaded() returns (value: int)
      requires Valid() && kind == SingleThreaded
      modifies this
      ensures Valid() && calls == old(calls) + 1 && value == (initial + old(calls) * step) % size
    {
      ghost var expected := initial - step + calls * step;
      Stepped(counter, step, expected, size, longs);
      Start(counter + step, size, longs, size);
      SamePlus(counter, expected, step, size);
      SameTrans((counter + step) % longs % size, counter + step, expected + step, size);
      assert (calls + 1) * step == calls * step + step;
      counter := (counter + step) % longs % size;
      value := counter;
      calls := calls + 1;
    }

    // Whichever implementation was chosen, the n-th call yields the initial value plus n steps.
    method GetValue() returns (value: int)
      requires Valid()
      modifies this
      ensures Valid() && calls == old(calls) + 1 && value == (initial + old(calls) * step) % size
    {
      match kind {
        case Increment => value := NextIncrement();
        case Decrement => value := NextDecrement();
        case Generic => value := NextGeneric();
        case SingleThreaded => value := NextSingleThreaded();
      }
    }

    static lemma Stepped(counter: int, delta: int, expected: int, size: nat, longs: nat)
      requires 0 < size && 0 < longs && longs % size == 0 && Same(counter, expected, size)
      ensures Same((counter + delta) % longs, expected + delta, size)
      ensures (counter + delta) % longs % size == (expected + delta) % size
    {
      Truncate(counter + delta, size, longs);
      SamePlus(counter, expected, delta, size);
      SameTrans((counter + delta) % longs, counter + delta, expected + delta, size);
      SameMod((counter + delta) % longs, expected + delta, size);
    }

    static lemma Multiplied(counter: int, n: nat, initial: int, step: int, size: nat, longs: nat)
      requires 0 < size && 0 < longs && longs % size == 0 && Same(counter, n, size)
      ensures (initial + counter * step % longs) % longs % size == (initial + n * step) % size
    {
      var product := counter * step % longs;
      Truncate(counter * step, size, longs);
      SameTimes(counter, n, step, size);
      SameTrans(product, counter * step, n * step, size);
      SamePlus(product, n * step, initial, size);
      Truncate(initial + product, size, longs);
      SameTrans((initial + product) % longs, initial + product, initial + n * step, size);
      SameMod((initial + product) % longs, initial + n * step, size);
    }
  }
}
