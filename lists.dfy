/** Generic list operations used by the store and the spatial engine:
    JavaScript's `filter`, `map` with a conditional update, a counting `filter(..).length`,
    and the minimum/maximum of a non-empty list (`Math.min(...xs)`, `Math.max(...xs)`). */
module Lists {

  /** `r` can be obtained from `s` by deleting elements, keeping the order of the rest. */
  ghost predicate IsSubsequence<T>(r: seq<T>, s: seq<T>) {
    if r == [] then true
    else if s == [] then false
    else if r[0] == s[0] then IsSubsequence(r[1..], s[1..])
    else IsSubsequence(r, s[1..])
  }

  /** The number of elements of `s` that satisfy `p` (`s.filter(p).length`). */
  function Count<T>(s: seq<T>, p: T -> bool): (c: nat)
    ensures c <= |s|
  {
    if s == [] then 0 else (if p(s[0]) then 1 else 0) + Count(s[1..], p)
  }

  /** No element satisfies `p` exactly when the count is 0, and all do exactly when the
      count is the length. */
  lemma {:induction false} CountExtremes<T>(s: seq<T>, p: T -> bool)
    ensures Count(s, p) == 0 <==> forall x :: x in s ==> !p(x)
    ensures Count(s, p) == |s| <==> forall x :: x in s ==> p(x)
  {
    if s != [] {
      assert forall x :: x in s ==> x == s[0] || x in s[1..];
      CountExtremes(s[1..], p);
    }
  }

  lemma {:induction false} CountAppend<T>(a: seq<T>, b: seq<T>, p: T -> bool)
    ensures Count(a + b, p) == Count(a, p) + Count(b, p)
  {
    if a != [] {
      assert (a + b)[1..] == a[1..] + b;
      CountAppend(a[1..], b, p);
    } else {
      assert a + b == b;
    }
  }

  /** Counting a predicate that is the disjoint union of two others adds their counts. */
  lemma {:induction false} CountSplit<T>(s: seq<T>, p: T -> bool, q: T -> bool, r: T -> bool)
    requires forall x :: x in s ==> (p(x) <==> q(x) || r(x))
    requires forall x :: x in s ==> !(q(x) && r(x))
    ensures Count(s, p) == Count(s, q) + Count(s, r)
  {
    if s != [] {
      assert forall x :: x in s[1..] ==> x in s;
      CountSplit(s[1..], p, q, r);
    }
  }

  /** Predicates that agree on the elements of `s` count the same. */
  lemma {:induction false} CountSame<T>(s: seq<T>, p: T -> bool, q: T -> bool)
    requires forall x :: x in s ==> (p(x) <==> q(x))
    ensures Count(s, p) == Count(s, q)
  {
    if s != [] {
      assert forall x :: x in s[1..] ==> x in s;
      CountSame(s[1..], p, q);
    }
  }

  /** `s.filter(keep)`: exactly the elements that satisfy `keep`, each as often as in `s`,
      in their original order. */
  function Filter<T>(s: seq<T>, keep: T -> bool): (r: seq<T>)
    ensures |r| == Count(s, keep)
    ensures forall x :: x in r ==> x in s && keep(x)
    ensures forall x :: x in s && keep(x) ==> x in r && multiset(r)[x] == multiset(s)[x]
    ensures IsSubsequence(r, s)
  {
    if s == [] then []
    else
      var rest := Filter(s[1..], keep);
      assert s == [s[0]] + s[1..];
      if keep(s[0]) then
        assert ([s[0]] + rest)[1..] == rest;
        [s[0]] + rest
      else
        assert rest != [] ==> rest[0] in rest && rest[0] != s[0];
        rest
  }

  /** `s.map(x => hit(x) ? f(x) : x)`: the elements that satisfy `hit` are replaced by
      their image under `f`; every other element, and the length, stay as they were. */
  function MapWhere<T>(s: seq<T>, hit: T -> bool, f: T -> T): (r: seq<T>)
    ensures |r| == |s|
    ensures forall i :: 0 <= i < |s| && hit(s[i]) ==> r[i] == f(s[i])
    ensures forall i :: 0 <= i < |s| && !hit(s[i]) ==> r[i] == s[i]
  {
    if s == [] then []
    else [if hit(s[0]) then f(s[0]) else s[0]] + MapWhere(s[1..], hit, f)
  }

  /** No two elements of `s` share a key. */
  ghost predicate UniqueBy<T>(s: seq<T>, key: T -> int) {
    forall i, j :: 0 <= i < j < |s| ==> key(s[i]) != key(s[j])
  }

  lemma UniqueTail<T>(s: seq<T>, key: T -> int)
    requires s != [] && UniqueBy(s, key)
    ensures UniqueBy(s[1..], key)
    ensures forall x :: x in s[1..] ==> key(x) != key(s[0])
  {
    forall x | x in s[1..] ensures key(x) != key(s[0]) {
      var k :| 0 <= k < |s[1..]| && s[1..][k] == x;
      assert s[k + 1] == x;
    }
    forall i, j | 0 <= i < j < |s[1..]| ensures key(s[1..][i]) != key(s[1..][j]) {
      assert s[1..][i] == s[i + 1] && s[1..][j] == s[j + 1];
    }
  }

  lemma UniqueCons<T>(x: T, r: seq<T>, key: T -> int)
    requires UniqueBy(r, key)
    requires forall y :: y in r ==> key(y) != key(x)
    ensures UniqueBy([x] + r, key)
  {
    var c := [x] + r;
    forall i, j | 0 <= i < j < |c| ensures key(c[i]) != key(c[j]) {
      assert c[j] == r[j - 1] && c[j] in r;
      if i > 0 { assert c[i] == r[i - 1]; }
    }
  }

  lemma {:induction false} FilterKeepsUnique<T>(s: seq<T>, keep: T -> bool, key: T -> int)
    requires UniqueBy(s, key)
    ensures UniqueBy(Filter(s, keep), key)
  {
    if s != [] {
      UniqueTail(s, key);
      FilterKeepsUnique(s[1..], keep, key);
      var rest := Filter(s[1..], keep);
      if keep(s[0]) {
        UniqueCons(s[0], rest, key);
      }
    }
  }

  lemma {:induction false} MapWhereKeepsUnique<T>(s: seq<T>, hit: T -> bool, f: T -> T, key: T -> int)
    requires UniqueBy(s, key)
    requires forall x :: hit(x) ==> key(f(x)) == key(x)
    ensures UniqueBy(MapWhere(s, hit, f), key)
  {
    var r := MapWhere(s, hit, f);
    forall i | 0 <= i < |s| ensures key(r[i]) == key(s[i]) {
      if hit(s[i]) { assert r[i] == f(s[i]); }
    }
  }

  /** The least element of a non-empty list (`Math.min(...xs)`). */
  function MinOf(xs: seq<real>): (m: real)
    requires |xs| > 0
    ensures forall i :: 0 <= i < |xs| ==> m <= xs[i]
    ensures exists i :: 0 <= i < |xs| && m == xs[i]
  {
    if |xs| == 1 then xs[0]
    else
      var rest := MinOf(xs[1..]);
      assert forall i :: 1 <= i < |xs| ==> xs[i] == xs[1..][i - 1];
      if xs[0] <= rest then xs[0] else rest
  }

  /** The greatest element of a non-empty list (`Math.max(...xs)`). */
  function MaxOf(xs: seq<real>): (m: real)
    requires |xs| > 0
    ensures forall i :: 0 <= i < |xs| ==> xs[i] <= m
    ensures exists i :: 0 <= i < |xs| && m == xs[i]
  {
    if |xs| == 1 then xs[0]
    else
      var rest := MaxOf(xs[1..]);
      assert forall i :: 1 <= i < |xs| ==> xs[i] == xs[1..][i - 1];
      if xs[0] >= rest then xs[0] else rest
  }
}
