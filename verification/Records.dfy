/** Vocabulary shared by the models of the record queues and of the sink frontend. */
module Records {

  datatype Option<+T> = None | Some(value: T)

  // A record is a shared handle; only its identity and the user's ordering predicate matter here.
  type Record = nat

  type Order = (Record, Record) -> bool

  ghost predicate StrictWeakOrder(less: Order) {
    && (forall x :: !less(x, x))
    && (forall x, y, z :: less(x, y) && less(y, z) ==> less(x, z))
    && (forall x, y, z :: less(x, z) ==> less(x, y) || less(y, z))
  }

  function Without<T>(s: seq<T>, k: nat): (r: seq<T>)
    requires k < |s|
    ensures |r| == |s| - 1
    ensures forall j :: 0 <= j < |r| ==> r[j] == s[if j < k then j else j + 1]
    ensures multiset(r) == multiset(s) - multiset{s[k]}
    ensures k == 0 ==> r == s[1..]
  {
    assert s == s[..k] + [s[k]] + s[k + 1..];
    s[..k] + s[k + 1..]
  }

  // Putting one element into a set or taking it out.
  lemma ToggleSize<T>(a: set<T>, x: T, on: bool)
    ensures |if on then a + {x} else a - {x}| == |a| + (if on then 1 else 0) - (if x in a then 1 else 0)
  {
    assert (a + {x}) - {x} == a - {x};
  }

  // No element is strictly preceded by a later one.
  ghost predicate SortedBy(less: Order, s: seq<Record>) {
    forall i, j :: 0 <= i < j < |s| ==> !less(s[j], s[i])
  }
}
