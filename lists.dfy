/**
  Sequence operations shared by the widgets: the array `filter` every handler
  uses, the index-based removal and `splice` insertion of the drag handlers,
  and sums of a numeric field over a list (`reduce` with `+`).
 */
module Lists {

  datatype Option<T> = None | Some(value: T)

  /** `sub` keeps some of the elements of `s`, in their original order. */
  predicate IsSubsequence<T(==)>(sub: seq<T>, s: seq<T>)
    decreases |s|
  {
    if sub == [] then true
    else if s == [] then false
    else if sub[0] == s[0] then IsSubsequence(sub[1..], s[1..])
    else IsSubsequence(sub, s[1..])
  }

  lemma {:induction false} SubsequenceLength<T>(sub: seq<T>, s: seq<T>)
    requires IsSubsequence(sub, s)
    ensures |sub| <= |s|
    ensures forall x :: x in sub ==> x in s
    decreases |s|
  {
    if sub != [] {
      assert sub == [sub[0]] + sub[1..];
      assert s == [s[0]] + s[1..];
      if sub[0] == s[0] {
        SubsequenceLength(sub[1..], s[1..]);
      } else {
        SubsequenceLength(sub, s[1..]);
      }
    }
  }

  lemma {:induction false} SubsequenceReflexive<T>(s: seq<T>)
    ensures IsSubsequence(s, s)
    decreases |s|
  {
    if s != [] {
      SubsequenceReflexive(s[1..]);
    }
  }

  /** Dropping the first element of `sub` keeps it a subsequence of `s`. */
  lemma {:induction false} SubsequenceDropFirst<T>(sub: seq<T>, s: seq<T>)
    requires sub != [] && IsSubsequence(sub, s)
    ensures IsSubsequence(sub[1..], s)
    decreases |s|, 0
  {
    if sub[0] == s[0] {
      SubsequenceSkip(sub[1..], s[1..], s[0]);
    } else {
      SubsequenceDropFirst(sub, s[1..]);
      SubsequenceSkip(sub[1..], s[1..], s[0]);
    }
    assert [s[0]] + s[1..] == s;
  }

  /** Putting an element in front of `s` keeps `sub` a subsequence. */
  lemma {:induction false} SubsequenceSkip<T>(sub: seq<T>, s: seq<T>, x: T)
    requires IsSubsequence(sub, s)
    ensures IsSubsequence(sub, [x] + s)
    decreases |s|, 1
  {
    assert ([x] + s)[1..] == s;
    if sub != [] && sub[0] == x {
      SubsequenceDropFirst(sub, s);
    }
  }

  lemma {:induction false} SubsequenceTransitive<T>(a: seq<T>, b: seq<T>, c: seq<T>)
    requires IsSubsequence(a, b) && IsSubsequence(b, c)
    ensures IsSubsequence(a, c)
    decreases |c|
  {
    if a != [] {
      SubsequenceLength(a, b);
      if b[0] == c[0] {
        if a[0] == b[0] {
          SubsequenceTransitive(a[1..], b[1..], c[1..]);
        } else {
          SubsequenceTransitive(a, b[1..], c[1..]);
        }
      } else {
        SubsequenceTransitive(a, b, c[1..]);
        if a[0] == c[0] {
          SubsequenceDropFirst(a, c[1..]);
        }
      }
    }
  }

  /**
    The elements of `s` that satisfy `p`, in order: JavaScript's `Array.prototype.filter`.
    The result is an order-preserving subsequence that keeps every element satisfying
    `p` as often as it occurs and drops every other element.
   */
  function Filter<T>(p: T -> bool, s: seq<T>): (r: seq<T>)
    ensures IsSubsequence(r, s)
    ensures forall x :: x in r ==> p(x)
    ensures forall x :: x in s ==> multiset(r)[x] == if p(x) then multiset(s)[x] else 0
    decreases |s|
  {
    if s == [] then []
    else
      var rest := Filter(p, s[1..]);
      SubsequenceLength(rest, s[1..]);
      assert s == [s[0]] + s[1..];
      if p(s[0]) then
        assert ([s[0]] + rest)[1..] == rest;
        [s[0]] + rest
      else
        SubsequenceSkip(rest, s[1..], s[0]);
        rest
  }

  lemma {:induction false} FilterKeepsAll<T>(p: T -> bool, s: seq<T>)
    requires forall x :: x in s ==> p(x)
    ensures Filter(p, s) == s
    decreases |s|
  {
    if s != [] {
      FilterKeepsAll(p, s[1..]);
    }
  }

  /** `Filter` keeps the whole list exactly when every element satisfies `p`. */
  lemma {:induction false} FilterLengthAll<T>(p: T -> bool, s: seq<T>)
    ensures |Filter(p, s)| == |s| <==> forall x :: x in s ==> p(x)
    decreases |s|
  {
    if s != [] {
      FilterLengthAll(p, s[1..]);
      SubsequenceLength(Filter(p, s[1..]), s[1..]);
      assert s == [s[0]] + s[1..];
    }
  }

  /** An element is kept by `Filter` exactly when it is in the input and satisfies `p`. */
  lemma FilterMembership<T>(p: T -> bool, s: seq<T>, x: T)
    ensures x in Filter(p, s) <==> x in s && p(x)
  {
    var r := Filter(p, s);
    SubsequenceLength(r, s);
    assert x in r <==> multiset(r)[x] > 0;
    assert x in s <==> multiset(s)[x] > 0;
  }

  /** `s` without the element at index `i`; an index past the end removes nothing. */
  function RemoveAt<T>(s: seq<T>, i: nat): (r: seq<T>)
    ensures i < |s| ==> |r| == |s| - 1 && multiset(r) + multiset{s[i]} == multiset(s)
    ensures i >= |s| ==> r == s
    ensures forall k :: 0 <= k < |r| ==> r[k] == if k < i then s[k] else s[k + 1]
  {
    if i < |s| then
      assert s == s[..i] + [s[i]] + s[i + 1..];
      s[..i] + s[i + 1..]
    else s
  }

  /**
    `s` with `x` inserted before index `i`, as `splice(i, 0, x)` does; an index past
    the end appends.
   */
  function InsertAt<T>(s: seq<T>, i: nat, x: T): (r: seq<T>)
    ensures |r| == |s| + 1
    ensures multiset(r) == multiset(s) + multiset{x}
    ensures r[if i < |s| then i else |s|] == x
    ensures forall k :: 0 <= k < |s| ==> s[k] == if k < i then r[k] else r[k + 1]
  {
    if i < |s| then
      assert s == s[..i] + s[i..];
      s[..i] + [x] + s[i..]
    else s + [x]
  }

  /** Taking out the element at `i` and putting it back at `i` gives back the list. */
  lemma RemoveThenInsertSame<T>(s: seq<T>, i: nat)
    requires i < |s|
    ensures InsertAt(RemoveAt(s, i), i, s[i]) == s
  {
    var r := RemoveAt(s, i);
    assert r == s[..i] + s[i + 1..];
    if i < |r| {
      assert r[..i] == s[..i] && r[i..] == s[i + 1..];
    } else {
      assert r == s[..i] && s[i + 1..] == [];
    }
    assert s == s[..i] + [s[i]] + s[i + 1..];
  }

  /** The sum of `f` over the list: `reduce((acc, x) => acc + f(x), 0)`. */
  function Sum<T>(f: T -> int, s: seq<T>): int
    decreases |s|
  {
    if s == [] then 0 else f(s[0]) + Sum(f, s[1..])
  }

  lemma {:induction false} SumAppend<T>(f: T -> int, a: seq<T>, b: seq<T>)
    ensures Sum(f, a + b) == Sum(f, a) + Sum(f, b)
    decreases |a|
  {
    if a != [] {
      assert (a + b)[0] == a[0];
      assert (a + b)[1..] == a[1..] + b;
      SumAppend(f, a[1..], b);
    } else {
      assert a + b == b;
    }
  }

  lemma SumRemoveAt<T>(f: T -> int, s: seq<T>, i: nat)
    requires i < |s|
    ensures Sum(f, s) == Sum(f, RemoveAt(s, i)) + f(s[i])
  {
    var before, after := s[..i], s[i + 1..];
    assert s == (before + [s[i]]) + after;
    assert RemoveAt(s, i) == before + after;
    SumAppend(f, before + [s[i]], after);
    SumAppend(f, before, [s[i]]);
    SumAppend(f, before, after);
    assert Sum(f, [s[i]]) == f(s[i]) + Sum(f, []);
  }

  /** Splitting a list by a predicate and its negation splits its sum. */
  lemma {:induction false} SumFilterSplit<T>(f: T -> int, p: T -> bool, q: T -> bool, s: seq<T>)
    requires forall x :: q(x) == !p(x)
    ensures Sum(f, Filter(p, s)) + Sum(f, Filter(q, s)) == Sum(f, s)
    decreases |s|
  {
    if s != [] {
      SumFilterSplit(f, p, q, s[1..]);
      var rest := Filter(if p(s[0]) then q else p, s[1..]);
      assert ([s[0]] + rest)[1..] == rest;
    }
  }

  lemma {:induction false} SumNonNegative<T>(f: T -> int, s: seq<T>)
    requires forall x :: x in s ==> f(x) >= 0
    ensures Sum(f, s) >= 0
    decreases |s|
  {
    if s != [] {
      SumNonNegative(f, s[1..]);
    }
  }

  /** Everything the lists `f(x)` hold, for all `x` in `s`, counted with multiplicity. */
  ghost function Pooled<T, U>(f: T -> seq<U>, s: seq<T>): multiset<U>
    decreases |s|
  {
    if s == [] then multiset{} else multiset(f(s[0])) + Pooled(f, s[1..])
  }

  /** Replacing element `k` by one whose list holds `m` more adds `m` to the pool. */
  lemma {:induction false} PooledAdd<T, U>(f: T -> seq<U>, s: seq<T>, k: nat, x: T, m: multiset<U>)
    requires k < |s|
    requires multiset(f(x)) == multiset(f(s[k])) + m
    ensures Pooled(f, s[k := x]) == Pooled(f, s) + m
    decreases |s|
  {
    var u := s[k := x];
    if k == 0 {
      assert u[1..] == s[1..];
    } else {
      var tail := s[1..];
      assert u[0] == s[0] && u[1..] == tail[k - 1 := x] && tail[k - 1] == s[k];
      PooledAdd(f, tail, k - 1, x, m);
    }
  }

  /** Replacing element `k` by one whose list holds `m` less takes `m` out of the pool. */
  lemma {:induction false} PooledRemove<T, U>(f: T -> seq<U>, s: seq<T>, k: nat, x: T, m: multiset<U>)
    requires k < |s|
    requires multiset(f(x)) + m == multiset(f(s[k]))
    ensures Pooled(f, s[k := x]) + m == Pooled(f, s)
    decreases |s|
  {
    var u := s[k := x];
    if k == 0 {
      assert u[1..] == s[1..];
    } else {
      var tail := s[1..];
      assert u[0] == s[0] && u[1..] == tail[k - 1 := x] && tail[k - 1] == s[k];
      PooledRemove(f, tail, k - 1, x, m);
    }
  }

  /** The index of the first element satisfying `p`, or -1: `Array.prototype.findIndex`. */
  function FindIndex<T>(p: T -> bool, s: seq<T>): (r: int)
    ensures -1 <= r < |s|
    ensures r == -1 <==> forall k :: 0 <= k < |s| ==> !p(s[k])
    ensures r >= 0 ==> p(s[r]) && forall k :: 0 <= k < r ==> !p(s[k])
    decreases |s|
  {
    if s == [] then -1
    else if p(s[0]) then 0
    else
      var r := FindIndex(p, s[1..]);
      if r == -1 then -1 else r + 1
  }
  /** The position of the first occurrence of `x`. */
  function IndexOf<T(==)>(s: seq<T>, x: T): (k: nat)
    requires x in s
    ensures k < |s| && s[k] == x && x !in s[..k]
  {
    if s[0] == x then 0 else 1 + IndexOf(s[1..], x)
  }

  lemma {:induction false} IndexOfAppend<T>(s: seq<T>, y: T, x: T)
    requires x in s + [y]
    ensures x in s ==> IndexOf(s + [y], x) == IndexOf(s, x)
    ensures x !in s ==> IndexOf(s + [y], x) == |s|
  {
    if s != [] && s[0] != x {
      assert (s + [y])[1..] == s[1..] + [y];
      IndexOfAppend(s[1..], y, x);
    }
  }

  lemma IndexOfExtend<T>(s: seq<T>, y: T)
    ensures forall k :: 0 <= k < |s| ==> IndexOf(s + [y], s[k]) == IndexOf(s, s[k])
    ensures y !in s ==> IndexOf(s + [y], y) == |s|
  {
    forall k | 0 <= k < |s|
      ensures IndexOf(s + [y], s[k]) == IndexOf(s, s[k])
    {
      IndexOfAppend(s, y, s[k]);
    }
    IndexOfAppend(s, y, y);
  }

  /**
    The distinct elements of `s` in the order of their first occurrence, as spreading
    a JavaScript `Set` built from `s` yields them.
   */
  function Deduplicated<T(==)>(s: seq<T>): (r: seq<T>)
    ensures forall i, j :: 0 <= i < j < |r| ==> r[i] != r[j]
    ensures forall i :: 0 <= i < |r| ==> r[i] in s
    ensures forall k :: 0 <= k < |s| ==> s[k] in r
    ensures forall i, j :: 0 <= i < j < |r| ==> IndexOf(s, r[i]) < IndexOf(s, r[j])
    decreases |s|
  {
    if s == [] then []
    else
      var init := s[..|s| - 1];
      var last := s[|s| - 1];
      assert s == init + [last];
      var d := Deduplicated(init);
      IndexOfExtend(init, last);
      if last in d then d else d + [last]
  }
}
