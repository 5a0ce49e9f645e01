/**
 * A value that only grows: `Update(v)` raises it to `v` when `v` is larger
 * (lab6/atomicMax/AtomicMax.h). The compare-and-swap retry loop is modelled
 * as one atomic step; the value type is modelled as `int`.
 */
module AtomicMaximum {

  function Max(a: int, b: int): int {
    if a >= b then a else b
  }

  /** The value after updating `initial` with each of `updates` in turn. */
  function Fold(initial: int, updates: seq<int>): (m: int)
    ensures m >= initial
    ensures forall i :: 0 <= i < |updates| ==> m >= updates[i]
    ensures m == initial || exists i :: 0 <= i < |updates| && m == updates[i]
    decreases |updates|
  {
    if updates == [] then initial
    else
      var n := |updates| - 1;
      var before := Fold(initial, updates[..n]);
      assert forall i :: 0 <= i < n ==> updates[..n][i] == updates[i];
      Max(before, updates[n])
  }

  /** The order of the updates does not matter: swapping two neighbours gives the same value. */
  lemma FoldSwap(initial: int, updates: seq<int>, a: int, b: int)
    ensures Fold(initial, updates + [a, b]) == Fold(initial, updates + [b, a])
  {
    assert (updates + [a, b])[..|updates| + 1] == updates + [a];
    assert (updates + [b, a])[..|updates| + 1] == updates + [b];
    assert (updates + [a])[..|updates|] == updates;
    assert (updates + [b])[..|updates|] == updates;
  }

  class AtomicMax {
    var value: int
    /** The value it was built with, and every value it was updated with. */
    ghost const initial: int
    ghost var updates: seq<int>

    ghost predicate Valid()
      reads this
    {
      value == Fold(initial, updates)
    }

    constructor(value: int)
      ensures Valid() && this.value == value && initial == value && updates == []
    {
      this.value := value;
      initial := value;
      updates := [];
    }

    /** Raises the value to `newValue` when that is larger; never lowers it. */
    method Update(newValue: int)
      requires Valid()
      modifies this
      ensures Valid() && updates == old(updates) + [newValue]
      ensures value == Max(old(value), newValue)
    {
      var currentValue := value;
      if newValue > currentValue {
        value := newValue;
      }
      updates := updates + [newValue];
      assert updates[..|updates| - 1] == old(updates);
    }

    /** The largest of the initial value and every update so far. */
    function GetValue(): (v: int)
      requires Valid()
      reads this
      ensures v >= initial && forall i :: 0 <= i < |updates| ==> v >= updates[i]
      ensures v == initial || exists i :: 0 <= i < |updates| && v == updates[i]
    {
      value
    }
  }
}
