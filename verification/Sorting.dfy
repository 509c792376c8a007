/** Sorting by a numeric key, keeping the order of equal keys. */
module Sorting {
  function Insert<T>(key: T -> int, x: T, sorted: seq<T>): seq<T> {
    if |sorted| == 0 || key(x) <= key(sorted[0]) then [x] + sorted else [sorted[0]] + Insert(key, x, sorted[1..])
  }

  function Sort<T>(key: T -> int, items: seq<T>): seq<T> {
    if |items| == 0 then [] else Insert(key, items[0], Sort(key, items[1..]))
  }

  predicate Ordered<T>(key: T -> int, items: seq<T>) {
    forall i, j :: 0 <= i < j < |items| ==> key(items[i]) <= key(items[j])
  }

  lemma {:induction false} InsertPermutes<T>(key: T -> int, x: T, sorted: seq<T>)
    ensures multiset(Insert(key, x, sorted)) == multiset{x} + multiset(sorted)
    decreases |sorted|
  {
    if |sorted| > 0 && key(x) > key(sorted[0]) {
      InsertPermutes(key, x, sorted[1..]);
      assert sorted == [sorted[0]] + sorted[1..];
    }
  }

  lemma OrderedCons<T>(key: T -> int, first: T, rest: seq<T>)
    requires Ordered(key, rest) && forall i :: 0 <= i < |rest| ==> key(first) <= key(rest[i])
    ensures Ordered(key, [first] + rest)
  {
  }

  lemma {:induction false} InsertKeeps<T>(key: T -> int, x: T, sorted: seq<T>)
    requires Ordered(key, sorted)
    ensures Ordered(key, Insert(key, x, sorted))
    decreases |sorted|
  {
    if |sorted| > 0 && key(x) > key(sorted[0]) {
      var rest := Insert(key, x, sorted[1..]);
      InsertPermutes(key, x, sorted[1..]);
      InsertKeeps(key, x, sorted[1..]);
      forall i | 0 <= i < |rest|
        ensures key(sorted[0]) <= key(rest[i])
      {
        assert rest[i] in multiset(rest);
        assert rest[i] == x || rest[i] in sorted[1..];
      }
      OrderedCons(key, sorted[0], rest);
    } else {
      OrderedCons(key, x, sorted);
    }
  }

  /** What comes out is in order and holds exactly what went in. */
  lemma {:induction false} SortSorts<T>(key: T -> int, items: seq<T>)
    ensures Ordered(key, Sort(key, items)) && multiset(Sort(key, items)) == multiset(items) && |Sort(key, items)| == |items|
    decreases |items|
  {
    hide Insert;
    if |items| > 0 {
      SortSorts(key, items[1..]);
      InsertKeeps(key, items[0], Sort(key, items[1..]));
      InsertPermutes(key, items[0], Sort(key, items[1..]));
      assert items == [items[0]] + items[1..];
    }
    assert |multiset(Sort(key, items))| == |Sort(key, items)| && |multiset(items)| == |items|;
  }
}
