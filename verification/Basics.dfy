/** Datatypes and facts shared by every part of the model: options and results, filtering a list, counting, the
    pigeonhole principle, permutations of lists whose members are distinct, and numbers written in decimal. Nothing
    here knows of registries, events or calendars. */
module Basics {

  datatype Option<+T> = None | Some(value: T)

  datatype Result<+T, +E> = Ok(value: T) | Err(error: E)

  /** The value a finite map gives to `a`, or `a` itself: Python's `moves.get(a, a)`. */
  function Follow<T(==)>(m: map<T, T>, a: T): (b: T)
  {
    if a in m then m[a] else a
  }

  /** The elements of `xs` that `f` keeps, changed as `f` says. */
  function FilterMap<S, T>(f: S -> Option<T>, xs: seq<S>): (ys: seq<T>)
    ensures |ys| <= |xs|
  {
    if xs == [] then []
    else
      var rest := FilterMap(f, xs[1..]);
      match f(xs[0])
      case Some(y) => [y] + rest
      case None => rest
  }

  lemma {:induction false} FilterMembers<S, T>(f: S -> Option<T>, xs: seq<S>)
    ensures forall y :: y in FilterMap(f, xs) ==> exists x :: x in xs && f(x) == Some(y)
    ensures forall x :: x in xs && f(x).Some? ==> f(x).value in FilterMap(f, xs)
  {
    if xs != [] {
      FilterMembers(f, xs[1..]);
      assert xs == [xs[0]] + xs[1..];
    }
  }

  lemma {:induction false} FilterTwice<T>(f: T -> Option<T>, g: T -> Option<T>, h: T -> Option<T>, xs: seq<T>)
    requires forall x :: x in xs ==> h(x) == match f(x) case None => None case Some(y) => g(y)
    ensures FilterMap(g, FilterMap(f, xs)) == FilterMap(h, xs)
  {
    if xs != [] {
      FilterTwice(f, g, h, xs[1..]);
      match f(xs[0]) {
        case None =>
        case Some(y) =>
          assert FilterMap(f, xs)[1..] == FilterMap(f, xs[1..]);
      }
    }
  }

  lemma {:induction false} FilterSame<S, T>(f: S -> Option<T>, g: S -> Option<T>, xs: seq<S>)
    requires forall x :: x in xs ==> f(x) == g(x)
    ensures FilterMap(f, xs) == FilterMap(g, xs)
  {
    if xs != [] {
      FilterSame(f, g, xs[1..]);
    }
  }

  lemma {:induction false} FilterNothing<T>(f: T -> Option<T>, xs: seq<T>)
    requires forall x :: x in xs ==> f(x) == Some(x)
    ensures FilterMap(f, xs) == xs
  {
    if xs != [] {
      FilterNothing(f, xs[1..]);
    }
  }

  lemma {:induction false} FilterAppend<S, T>(f: S -> Option<T>, xs: seq<S>, ys: seq<S>)
    ensures FilterMap(f, xs + ys) == FilterMap(f, xs) + FilterMap(f, ys)
  {
    if xs == [] {
      assert xs + ys == ys;
    } else {
      assert (xs + ys)[1..] == xs[1..] + ys;
      FilterAppend(f, xs[1..], ys);
    }
  }

  /** No two entries of `s` agree. */
  ghost predicate Distinct<T>(s: seq<T>)
  {
    forall i, j :: 0 <= i < j < |s| ==> s[i] != s[j]
  }

  function Elements<T>(s: seq<T>): (e: set<T>)
  {
    set x | x in s
  }

  /** A list without repeats is as long as its set of elements is large. */
  lemma {:induction false} DistinctSize<T>(s: seq<T>)
    requires Distinct(s)
    ensures |Elements(s)| == |s|
  {
    if s != [] {
      DistinctSize(s[1..]);
      assert Elements(s) == {s[0]} + Elements(s[1..]);
      assert s[0] !in Elements(s[1..]);
    }
  }

  lemma SubsetSize<T>(a: set<T>, b: set<T>)
    requires a <= b
    ensures |a| <= |b|
  {
    assert b == a + (b - a);
  }

  /** Pigeonhole: a list longer than a set that holds all its elements repeats one. */
  lemma {:induction false} Pigeonhole<T>(s: seq<T>, holes: set<T>)
    requires Elements(s) <= holes
    requires |s| > |holes|
    ensures exists i, j :: 0 <= i < j < |s| && s[i] == s[j]
  {
    if Distinct(s) {
      DistinctSize(s);
      SubsetSize(Elements(s), holes);
    }
  }

  lemma {:induction false} DistinctIffCounts<T>(s: seq<T>)
    ensures Distinct(s) <==> forall x :: multiset(s)[x] <= 1
  {
    if s != [] {
      DistinctIffCounts(s[1..]);
      assert s == [s[0]] + s[1..];
      assert multiset(s) == multiset{s[0]} + multiset(s[1..]);
      if Distinct(s) {
        assert Distinct(s[1..]);
        assert s[0] !in s[1..];
      } else {
        var i, j :| 0 <= i < j < |s| && s[i] == s[j];
        if i == 0 {
          assert s[0] == s[1..][j - 1];
          assert s[0] in s[1..];
          assert multiset(s)[s[0]] >= 2;
        } else {
          assert s[1..][i - 1] == s[1..][j - 1];
          var x :| multiset(s[1..])[x] > 1;
          assert multiset(s)[x] > 1;
        }
      }
    }
  }

  lemma PermutationDistinct<T>(s: seq<T>, t: seq<T>)
    requires multiset(s) == multiset(t) && Distinct(s)
    ensures Distinct(t)
  {
    DistinctIffCounts(s);
    DistinctIffCounts(t);
  }

  lemma PermutationMembers<T>(s: seq<T>, t: seq<T>)
    requires multiset(s) == multiset(t)
    ensures forall x :: x in s <==> x in t
  {
    assert forall x :: x in s <==> x in multiset(s);
    assert forall x :: x in t <==> x in multiset(t);
  }

  /** The decimal digits of a number, as Python prints an integer. */
  function Decimal(n: nat): (s: string)
    ensures |s| >= 1
    ensures forall c :: c in s ==> '0' <= c <= '9'
  {
    var digit := ['0' + (n % 10) as char];
    if n < 10 then digit else Decimal(n / 10) + digit
  }

  lemma {:induction false} DecimalInjective(m: nat, n: nat)
    requires Decimal(m) == Decimal(n)
    ensures m == n
  {
    var s, t := Decimal(m), Decimal(n);
    assert s[|s| - 1] == '0' + (m % 10) as char;
    assert t[|t| - 1] == '0' + (n % 10) as char;
    assert ('0' + (m % 10) as char) as int == ('0' as int) + m % 10;
    assert ('0' + (n % 10) as char) as int == ('0' as int) + n % 10;
    assert m % 10 == n % 10;
    if m >= 10 && n >= 10 {
      assert Decimal(m / 10) == s[..|s| - 1];
      assert Decimal(n / 10) == t[..|t| - 1];
      DecimalInjective(m / 10, n / 10);
    }
  }
}
