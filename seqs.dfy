/** Sequence operations the store and the carts are built from: the `findIndex`,
    `filter` and `reduce` of the source, and the id discipline of the store's tables. */
module Seqs {
  import opened Wrappers

  /** `Array.prototype.findIndex`: the first index whose element satisfies `p`, or -1. */
  function FindIndex<T>(s: seq<T>, p: T -> bool): (k: int)
    ensures -1 <= k < |s|
    ensures 0 <= k ==> p(s[k]) && forall j :: 0 <= j < k ==> !p(s[j])
    ensures k == -1 ==> forall j :: 0 <= j < |s| ==> !p(s[j])
  {
    if |s| == 0 then -1
    else if p(s[0]) then 0
    else
      var k := FindIndex(s[1..], p);
      if k < 0 then -1 else k + 1
  }

  /** `Array.prototype.filter`: the elements satisfying `p`, in their original order. */
  function Filter<T>(s: seq<T>, p: T -> bool): (r: seq<T>)
    ensures |r| <= |s|
    ensures forall i :: 0 <= i < |r| ==> r[i] in s && p(r[i])
    ensures forall i :: 0 <= i < |s| && p(s[i]) ==> s[i] in r
  {
    if |s| == 0 then []
    else if p(s[0]) then [s[0]] + Filter(s[1..], p)
    else Filter(s[1..], p)
  }

  /** The position of the first record whose key is `id`, or -1: a store's `findIndex`
      on the record id. */
  function IndexOf<T>(s: seq<T>, key: T -> int, id: int): (k: int)
    ensures -1 <= k < |s|
    ensures 0 <= k ==> key(s[k]) == id
    ensures k < 0 <==> forall j :: 0 <= j < |s| ==> key(s[j]) != id
  {
    FindIndex(s, (x: T) => key(x) == id)
  }

  /** Keeping everything keeps the sequence as it is. */
  lemma {:induction false} FilterAll<T>(s: seq<T>, p: T -> bool)
    requires forall i :: 0 <= i < |s| ==> p(s[i])
    ensures Filter(s, p) == s
  {
    if |s| > 0 {
      FilterAll(s[1..], p);
    }
  }

  /** Keeping nothing leaves nothing. */
  lemma {:induction false} FilterNone<T>(s: seq<T>, p: T -> bool)
    requires forall i :: 0 <= i < |s| ==> !p(s[i])
    ensures Filter(s, p) == []
  {
    if |s| > 0 {
      FilterNone(s[1..], p);
    }
  }

  /** Concatenation is associative. */
  lemma ConcatAssoc<T>(x: seq<T>, y: seq<T>, z: seq<T>)
    ensures x + (y + z) == x + y + z
  {
  }

  /** A non-empty sequence is its head followed by its tail. */
  lemma HeadTail<T>(s: seq<T>)
    requires |s| > 0
    ensures s == [s[0]] + s[1..]
  {
  }

  /** A non-empty sequence in front of another is its head, then its tail and the other. */
  lemma HeadThen<T>(w: seq<T>, b: seq<T>)
    requires |w| > 0
    ensures w + b == [w[0]] + (w[1..] + b)
  {
    assert w == [w[0]] + w[1..];
  }

  /** Filtering works piece by piece: the kept elements of `a + b` are those of `a`,
      in order, then those of `b`. */
  lemma {:induction false} FilterAppend<T>(a: seq<T>, b: seq<T>, p: T -> bool)
    ensures Filter(a + b, p) == Filter(a, p) + Filter(b, p)
    decreases |a|
  {
    if |a| == 0 {
      assert a + b == b;
    } else {
      HeadThen(a, b);
      assert (a + b)[1..] == a[1..] + b;
      FilterAppend(a[1..], b, p);
      if p(a[0]) {
        ConcatAssoc([a[0]], Filter(a[1..], p), Filter(b, p));
      }
    }
  }

  /** A table whose keys are the ids handed out by a counter: every id lies in
      [1, next) and the ids strictly increase along the sequence, so they are unique. */
  ghost predicate Numbered<T>(s: seq<T>, key: T -> int, next: int) {
    && 1 <= next
    && (forall i :: 0 <= i < |s| ==> 1 <= key(s[i]) < next)
    && (forall i, j :: 0 <= i < j < |s| ==> key(s[i]) < key(s[j]))
  }

  /** Strictly increasing ids are unique ids. */
  lemma NumberedUnique<T>(s: seq<T>, key: T -> int, next: int, i: int, j: int)
    requires Numbered(s, key, next)
    requires 0 <= i < |s| && 0 <= j < |s| && key(s[i]) == key(s[j])
    ensures i == j
  {
  }

  /** Appending a record that takes the counter's value and bumping the counter keeps the table numbered. */
  lemma NumberedAppend<T>(s: seq<T>, key: T -> int, next: int, x: T)
    requires Numbered(s, key, next) && key(x) == next
    ensures Numbered(s + [x], key, next + 1)
  {
  }

  /** Replacing a record by one with the same id keeps the table numbered. */
  lemma NumberedUpdate<T>(s: seq<T>, key: T -> int, next: int, k: int, x: T)
    requires Numbered(s, key, next) && 0 <= k < |s| && key(x) == key(s[k])
    ensures Numbered(s[k := x], key, next)
  {
  }

  /** Removing records keeps the table numbered, and so keeps the survivors in id order. */
  lemma {:induction false} NumberedFilter<T>(s: seq<T>, key: T -> int, next: int, p: T -> bool)
    requires Numbered(s, key, next)
    ensures Numbered(Filter(s, p), key, next)
  {
    if |s| > 0 {
      assert Numbered(s[1..], key, next);
      NumberedFilter(s[1..], key, next, p);
      var rest := Filter(s[1..], p);
      if p(s[0]) {
        var r := [s[0]] + rest;
        forall i, j | 0 <= i < j < |r| ensures key(r[i]) < key(r[j]) {
          if i == 0 {
            assert r[j] in s[1..];
          }
        }
      }
    }
  }

  /** `reduce((total, x) => total + f(x), 0)`: the sum of `f` over the sequence. */
  function Sum<T>(s: seq<T>, f: T -> int): int {
    if |s| == 0 then 0 else f(s[0]) + Sum(s[1..], f)
  }

  lemma {:induction false} SumAppend<T>(a: seq<T>, b: seq<T>, f: T -> int)
    ensures Sum(a + b, f) == Sum(a, f) + Sum(b, f)
  {
    if |a| == 0 {
      assert a + b == b;
    } else {
      assert (a + b)[1..] == a[1..] + b;
      SumAppend(a[1..], b, f);
    }
  }

  /** Replacing one element changes the sum by the difference of the two. */
  lemma {:induction false} SumUpdate<T>(s: seq<T>, k: int, x: T, f: T -> int)
    requires 0 <= k < |s|
    ensures Sum(s[k := x], f) == Sum(s, f) - f(s[k]) + f(x)
  {
    if k > 0 {
      assert s[k := x][1..] == s[1..][k - 1 := x];
      SumUpdate(s[1..], k - 1, x, f);
    }
  }

  /** `Array.prototype.map`. */
  function Map<T, U>(s: seq<T>, f: T -> U): (r: seq<U>)
    ensures |r| == |s|
    ensures forall i :: 0 <= i < |s| ==> r[i] == f(s[i])
  {
    if |s| == 0 then [] else [f(s[0])] + Map(s[1..], f)
  }

  /** Two tests that agree on every element keep the same elements. */
  lemma {:induction false} FilterEquiv<T>(s: seq<T>, p: T -> bool, q: T -> bool)
    requires forall i :: 0 <= i < |s| ==> p(s[i]) == q(s[i])
    ensures Filter(s, p) == Filter(s, q)
  {
    if |s| > 0 {
      FilterEquiv(s[1..], p, q);
    }
  }

  // ----- Mapping with failure --------------------------------------------------------------

  /** `f` applied to each element in order; the first failure is the result. */
  function MapResult<A, B, E>(xs: seq<A>, f: A -> Result<B, E>): Result<seq<B>, E>
    decreases |xs|
  {
    if |xs| == 0 then Ok([])
    else
      match MapResult(xs[..|xs| - 1], f)
      case Err(e) => Err(e)
      case Ok(ys) =>
        match f(xs[|xs| - 1])
        case Err(e) => Err(e)
        case Ok(y) => Ok(ys + [y])
  }

  /** The mapping succeeds iff `f` succeeds on every element. */
  lemma {:induction false} MapResultOk<A, B, E>(xs: seq<A>, f: A -> Result<B, E>)
    ensures MapResult(xs, f).Ok? <==> forall i :: 0 <= i < |xs| ==> f(xs[i]).Ok?
  {
    if |xs| > 0 {
      var init := xs[..|xs| - 1];
      MapResultOk(init, f);
      assert forall i :: 0 <= i < |init| ==> init[i] == xs[i];
    }
  }

  /** A successful mapping has one result per element, element `i` giving result `i`. */
  lemma {:induction false} MapResultAt<A, B, E>(xs: seq<A>, f: A -> Result<B, E>, i: int)
    requires 0 <= i < |xs| && MapResult(xs, f).Ok?
    ensures |MapResult(xs, f).value| == |xs|
    ensures f(xs[i]).Ok? && MapResult(xs, f).value[i] == f(xs[i]).value
    decreases |xs|
  {
    var init, last := xs[..|xs| - 1], xs[|xs| - 1];
    var ys := MapResult(init, f).value;
    assert MapResult(xs, f).value == ys + [f(last).value];
    if i < |init| {
      MapResultAt(init, f, i);
      assert init[i] == xs[i];
    } else if |init| > 0 {
      MapResultAt(init, f, 0);
    }
  }

  /** A failure on a prefix is the failure of the whole mapping. */
  lemma {:induction false} MapResultPrefixErr<A, B, E>(xs: seq<A>, f: A -> Result<B, E>, j: int)
    requires 0 <= j <= |xs| && MapResult(xs[..j], f).Err?
    ensures MapResult(xs, f) == MapResult(xs[..j], f)
    decreases |xs|
  {
    if j < |xs| {
      var init := xs[..|xs| - 1];
      assert init[..j] == xs[..j];
      MapResultPrefixErr(init, f, j);
    } else {
      assert xs[..j] == xs;
    }
  }
}
