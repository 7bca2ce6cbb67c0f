/** `sorted(xs, key=...)` for keys that are triples of integers. */
module Sorting {

  datatype Key = Key(first: int, second: int, third: int)
  {
    predicate Le(that: Key)
    {
      || first < that.first
      || (first == that.first && (second < that.second || (second == that.second && third <= that.third)))
    }

    predicate Lt(that: Key)
    {
      Le(that) && this != that
    }
  }

  ghost predicate Sorted<T(!new)>(key: T -> Key, xs: seq<T>)
  {
    forall i, j :: 0 <= i < j < |xs| ==> key(xs[i]).Le(key(xs[j]))
  }

  /** Stable: an element goes before the first one that is not smaller. */
  function Insert<T(!new)>(key: T -> Key, x: T, xs: seq<T>): (ys: seq<T>)
    ensures |ys| == |xs| + 1
  {
    if xs == [] || key(x).Le(key(xs[0])) then [x] + xs
    else [xs[0]] + Insert(key, x, xs[1..])
  }

  /** The stable sort of `xs`. */
  function SortBy<T(!new)>(key: T -> Key, xs: seq<T>): (ys: seq<T>)
    ensures |ys| == |xs|
  {
    if xs == [] then []
    else Insert(key, xs[0], SortBy(key, xs[1..]))
  }

  lemma {:induction false} InsertPermutes<T(!new)>(key: T -> Key, x: T, xs: seq<T>)
    ensures multiset(Insert(key, x, xs)) == multiset([x]) + multiset(xs)
  {
    if xs == [] || key(x).Le(key(xs[0])) {
    } else {
      InsertPermutes(key, x, xs[1..]);
      assert xs == [xs[0]] + xs[1..];
    }
  }

  lemma {:induction false} SortByPermutes<T(!new)>(key: T -> Key, xs: seq<T>)
    ensures multiset(SortBy(key, xs)) == multiset(xs)
  {
    if xs != [] {
      SortByPermutes(key, xs[1..]);
      InsertPermutes(key, xs[0], SortBy(key, xs[1..]));
      assert xs == [xs[0]] + xs[1..];
    }
  }

  lemma {:induction false} InsertSorted<T(!new)>(key: T -> Key, x: T, xs: seq<T>)
    requires Sorted(key, xs)
    ensures Sorted(key, Insert(key, x, xs))
  {
    var ys := Insert(key, x, xs);
    if xs == [] || key(x).Le(key(xs[0])) {
    } else {
      InsertSorted(key, x, xs[1..]);
      InsertPermutes(key, x, xs[1..]);
      forall j | 0 < j < |ys| ensures key(ys[0]).Le(key(ys[j])) {
        assert ys[j] in multiset(Insert(key, x, xs[1..]));
        assert ys[j] == x || ys[j] in xs[1..];
      }
    }
  }

  lemma {:induction false} SortBySorts<T(!new)>(key: T -> Key, xs: seq<T>)
    ensures Sorted(key, SortBy(key, xs))
  {
    if xs != [] {
      SortBySorts(key, xs[1..]);
      InsertSorted(key, xs[0], SortBy(key, xs[1..]));
    }
  }

  /** Sorting moves nothing in a list that is already in order. */
  lemma {:induction false} SortBySorted<T(!new)>(key: T -> Key, xs: seq<T>)
    requires Sorted(key, xs)
    ensures SortBy(key, xs) == xs
  {
    if xs != [] {
      SortBySorted(key, xs[1..]);
    }
  }
}
