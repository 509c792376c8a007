/** Shared value types: machine integers, optional values and results. */
module Prelude {

  const U16_MAX: nat := 0xFFFF
  const U32_MAX: nat := 0xFFFF_FFFF
  const U64_MAX: nat := 0xFFFF_FFFF_FFFF_FFFF

  type U16 = x: nat | x <= U16_MAX
  type U32 = x: nat | x <= U32_MAX
  type U64 = x: nat | x <= U64_MAX

  datatype Option<+T> = None | Some(value: T)

  /** The source's `Result`; usable with `:-`. */
  datatype Result<+T, +E> = Ok(value: T) | Err(error: E) {
    predicate IsFailure() {
      Err?
    }

    function PropagateFailure<U>(): Result<U, E>
      requires Err?
    {
      Err(error)
    }

    function Extract(): T
      requires Ok?
    {
      value
    }
  }

  /** Largest member of a set of identifiers, zero for the empty set. */
  function MaxId(ids: set<nat>): (m: nat)
    ensures forall i <- ids :: i <= m
    ensures if ids == {} then m == 0 else m in ids
  {
    if ids == {} then 0
    else
      MaxExists(ids);
      var m :| m in ids && forall i <- ids :: i <= m;
      m
  }

  lemma MaxExists(ids: set<nat>)
    requires ids != {}
    ensures exists m :: m in ids && forall i <- ids :: i <= m
  {
    var x :| x in ids;
    var rest := ids - {x};
    var greatest := x;
    if rest != {} {
      MaxExists(rest);
      var m :| m in rest && forall i <- rest :: i <= m;
      greatest := if x <= m then m else x;
    }
    forall i <- ids
      ensures i <= greatest
    {
      assert i == x || i in rest;
    }
    assert greatest in ids && forall i <- ids :: i <= greatest;
  }

  /** Identifiers that were handed out in order without gaps: exactly 1..n. */
  ghost predicate Contiguous(ids: set<nat>, n: nat) {
    forall i: nat :: i in ids <==> 1 <= i <= n
  }

  lemma ContiguousMax(ids: set<nat>, n: nat)
    requires Contiguous(ids, n)
    ensures MaxId(ids) == n
  {
    if n > 0 {
      assert n in ids;
    } else {
      assert ids == {};
    }
  }

  lemma LeastExists(ids: set<nat>)
    requires ids != {}
    ensures exists m :: m in ids && forall i <- ids :: m <= i
  {
    var x :| x in ids;
    var rest := ids - {x};
    var least := x;
    if rest != {} {
      LeastExists(rest);
      var m :| m in rest && forall i <- rest :: m <= i;
      least := if x <= m then x else m;
    }
    forall i <- ids
      ensures least <= i
    {
      assert i == x || i in rest;
    }
    assert least in ids && forall i <- ids :: least <= i;
  }

  lemma SubsetSize<T>(small: set<T>, large: set<T>)
    requires small <= large
    ensures |small| <= |large|
  {
    assert large == small + (large - small);
  }

  lemma Inhabited(keys: set<int>)
    requires keys != {}
    ensures exists k :: k in keys
  {
    assert (forall k :: k !in keys) ==> keys == {};
  }

  method SmallestKey(keys: set<int>) returns (least: int)
    requires keys != {}
    ensures least in keys && forall k :: k in keys ==> least <= k
  {
    Inhabited(keys);
    least :| least in keys;
    var rest := keys - {least};
    while rest != {}
      invariant least in keys && rest <= keys
      invariant forall k :: k in keys && k !in rest ==> least <= k
      decreases |rest|
    {
      Inhabited(rest);
      var k :| k in rest;
      if k < least {
        least := k;
      }
      rest := rest - {k};
    }
  }
}
