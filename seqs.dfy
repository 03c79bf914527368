/** Python list idioms over Dafny sequences: comprehensions with a
    condition, comprehensions that drop the elements a cast rejects,
    `list.extend` across a loop, and slicing `xs[lo:hi]`. */
module Seqs {
  import opened Wrappers

  /** `[x for x in xs if p(x)]`. */
  function Filter<T>(xs: seq<T>, p: T -> bool): (r: seq<T>)
    ensures |r| <= |xs|
    ensures forall x :: x in r ==> x in xs && p(x)
    ensures forall x :: x in xs && p(x) ==> x in r
    decreases |xs|
  {
    if xs == [] then []
    else (if p(xs[0]) then [xs[0]] else []) + Filter(xs[1..], p)
  }

  /** `xs` appears in `ys` in the same order, possibly with gaps. */
  predicate IsSubsequence<T(==)>(xs: seq<T>, ys: seq<T>)
    decreases |ys|
  {
    if xs == [] then true
    else if ys == [] then false
    else if xs[0] == ys[0] then IsSubsequence(xs[1..], ys[1..])
    else IsSubsequence(xs, ys[1..])
  }

  lemma {:induction false} FilterIsSubsequence<T>(xs: seq<T>, p: T -> bool)
    ensures IsSubsequence(Filter(xs, p), xs)
    decreases |xs|
  {
    if xs != [] {
      FilterIsSubsequence(xs[1..], p);
      var r := Filter(xs, p);
      if p(xs[0]) {
        assert r == [xs[0]] + Filter(xs[1..], p);
        assert r[0] == xs[0] && r[1..] == Filter(xs[1..], p);
      } else {
        assert r == Filter(xs[1..], p);
        SubsequenceSkip(r, xs);
      }
    }
  }

  /** Dropping the head of the longer sequence keeps a subsequence one. */
  lemma {:induction false} SubsequenceSkip<T>(xs: seq<T>, ys: seq<T>)
    requires ys != [] && IsSubsequence(xs, ys[1..])
    ensures IsSubsequence(xs, ys)
    decreases |ys|, 0
  {
    if xs != [] && xs[0] == ys[0] {
      // `xs[1..]` is a subsequence of `ys[1..]` because `xs` is
      SubsequenceTail(xs, ys[1..]);
    }
  }

  lemma {:induction false} SubsequenceTail<T>(xs: seq<T>, ys: seq<T>)
    requires xs != [] && IsSubsequence(xs, ys)
    ensures IsSubsequence(xs[1..], ys)
    decreases |ys|, 1
  {
    assert ys != [];
    if xs[0] == ys[0] {
      if xs[1..] != [] {
        SubsequenceTail(xs[1..], ys[1..]);
        SubsequenceSkip(xs[1..], ys);
      }
    } else {
      SubsequenceTail(xs, ys[1..]);
      if xs[1..] != [] {
        SubsequenceSkip(xs[1..], ys);
      }
    }
  }

  /** Filtering by `p` and by its complement `q` splits the elements
      between the two results. */
  lemma {:induction false} FilterMultiset<T>(xs: seq<T>, p: T -> bool, q: T -> bool)
    requires forall i :: 0 <= i < |xs| ==> q(xs[i]) == !p(xs[i])
    ensures multiset(Filter(xs, p)) + multiset(Filter(xs, q)) == multiset(xs)
    decreases |xs|
  {
    if xs != [] {
      var x, rest := xs[0], xs[1..];
      assert forall i :: 0 <= i < |rest| ==> rest[i] == xs[i + 1];
      FilterMultiset(rest, p, q);
      FilterFirst(xs, p);
      FilterFirst(xs, q);
      assert xs == [x] + rest;
      MultisetSplit(x, rest, Filter(rest, p), Filter(rest, q), p(x));
    }
  }

  /** `Filter` on a non-empty sequence: its first element, if kept, then
      the rest filtered. */
  lemma FilterFirst<T>(xs: seq<T>, p: T -> bool)
    requires xs != []
    ensures Filter(xs, p) == (if p(xs[0]) then [xs[0]] else []) + Filter(xs[1..], p)
  {
  }

  /** One element goes to exactly one side of a split. */
  lemma MultisetSplit<T>(x: T, rest: seq<T>, ps: seq<T>, qs: seq<T>, left: bool)
    requires multiset(ps) + multiset(qs) == multiset(rest)
    ensures multiset((if left then [x] else []) + ps) + multiset((if left then [] else [x]) + qs) == multiset([x] + rest)
  {
    assert multiset([x] + rest) == multiset{x} + multiset(rest);
    if left {
      assert multiset([x] + ps) == multiset{x} + multiset(ps);
      assert [] + qs == qs;
    } else {
      assert multiset([x] + qs) == multiset{x} + multiset(qs);
      assert [] + ps == ps;
    }
  }

  lemma {:induction false} FilterAll<T>(xs: seq<T>, p: T -> bool)
    requires forall x :: x in xs ==> p(x)
    ensures Filter(xs, p) == xs
    decreases |xs|
  {
    if xs != [] {
      FilterAll(xs[1..], p);
      assert xs == [xs[0]] + xs[1..];
    }
  }

  /** Filtering with two predicates that agree on the elements gives the
      same list. */
  lemma {:induction false} FilterExt<T>(xs: seq<T>, p: T -> bool, q: T -> bool)
    requires forall x :: x in xs ==> p(x) == q(x)
    ensures Filter(xs, p) == Filter(xs, q)
    decreases |xs|
  {
    if xs != [] {
      assert forall x :: x in xs[1..] ==> x in xs;
      FilterExt(xs[1..], p, q);
    }
  }

  /** The results of `f` on the elements where it succeeds, in order: the
      `try: result.append(cast(v)) except: pass` loop. */
  function FilterMap<T, U>(xs: seq<T>, f: T -> Option<U>): (r: seq<U>)
    ensures |r| <= |xs|
    decreases |xs|
  {
    if xs == [] then []
    else
      var init := FilterMap(xs[..|xs| - 1], f);
      match f(xs[|xs| - 1])
      case Some(y) => init + [y]
      case None => init
  }

  /** A prefix one element longer keeps that element's image, if any. */
  lemma FilterMapSnoc<T, U>(xs: seq<T>, i: int, f: T -> Option<U>)
    requires 0 <= i < |xs|
    ensures FilterMap(xs[..i + 1], f) == FilterMap(xs[..i], f) + (if f(xs[i]).Some? then [f(xs[i]).value] else [])
  {
    assert xs[..i + 1][..i] == xs[..i];
  }

  lemma {:induction false} FilterMapEmpty<T, U>(xs: seq<T>, f: T -> Option<U>)
    ensures FilterMap(xs, f) == [] <==> forall i :: 0 <= i < |xs| ==> f(xs[i]).None?
    decreases |xs|
  {
    if xs != [] {
      var init := xs[..|xs| - 1];
      FilterMapEmpty(init, f);
      assert forall i :: 0 <= i < |init| ==> init[i] == xs[i];
    }
  }

  lemma {:induction false} FilterMapSound<T, U>(xs: seq<T>, f: T -> Option<U>, y: U)
    requires y in FilterMap(xs, f)
    ensures exists i :: 0 <= i < |xs| && f(xs[i]) == Some(y)
    decreases |xs|
  {
    var init := xs[..|xs| - 1];
    if f(xs[|xs| - 1]) == Some(y) {
      assert f(xs[|xs| - 1]) == Some(y);
    } else {
      FilterMapSound(init, f, y);
      var i :| 0 <= i < |init| && f(init[i]) == Some(y);
      assert xs[i] == init[i];
    }
  }

  /** When every cast succeeds, nothing is dropped. */
  lemma {:induction false} FilterMapAllSome<T, U>(xs: seq<T>, f: T -> Option<U>, ys: seq<U>)
    requires |ys| == |xs|
    requires forall i :: 0 <= i < |xs| ==> f(xs[i]) == Some(ys[i])
    ensures FilterMap(xs, f) == ys
    decreases |xs|
  {
    if xs != [] {
      var n := |xs| - 1;
      assert forall i :: 0 <= i < n ==> xs[..n][i] == xs[i] && ys[..n][i] == ys[i];
      FilterMapAllSome(xs[..n], f, ys[..n]);
      assert ys == ys[..n] + [ys[n]];
    }
  }

  /** `[f(x) for x in xs]`. */
  lemma AppendAssoc<T>(a: seq<T>, b: seq<T>, c: seq<T>)
    ensures (a + b) + c == a + (b + c)
  {
  }

  function MapSeq<T, U>(xs: seq<T>, f: T -> U): (r: seq<U>)
    ensures |r| == |xs|
    ensures forall i :: 0 <= i < |xs| ==> r[i] == f(xs[i])
  {
    seq(|xs|, i requires 0 <= i < |xs| => f(xs[i]))
  }

  // ---------------------------------------------------------------------
  // Comprehensions whose condition or element expression may raise

  /** `[x for x in xs if p(x)]` where evaluating `p` may raise: the first
      exception ends the comprehension. */
  function TryFilter<T>(xs: seq<T>, p: T -> Attempt<bool>): (r: Attempt<seq<T>>)
    ensures r.Done? ==> |r.value| <= |xs|
    ensures r.Done? ==> forall x :: x in r.value ==> x in xs && p(x) == Done(true)
    decreases |xs|
  {
    if xs == [] then Done([])
    else match p(xs[0])
      case Raised => Raised
      case Done(keep) =>
        match TryFilter(xs[1..], p)
        case Raised => Raised
        case Done(rest) => Done(if keep then [xs[0]] + rest else rest)
  }

  /** The comprehension raises exactly when its condition raises on some
      element. */
  lemma {:induction false} TryFilterRaises<T>(xs: seq<T>, p: T -> Attempt<bool>)
    ensures TryFilter(xs, p) == Raised <==> exists x :: x in xs && p(x) == Raised
    decreases |xs|
  {
    if xs != [] {
      TryFilterRaises(xs[1..], p);
      assert forall x :: x in xs <==> x == xs[0] || x in xs[1..];
    }
  }

  /** A comprehension that did not raise keeps every element whose
      condition holds. */
  lemma {:induction false} TryFilterKeeps<T>(xs: seq<T>, p: T -> Attempt<bool>, x: T)
    requires TryFilter(xs, p).Done? && x in xs && p(x) == Done(true)
    ensures x in TryFilter(xs, p).value
    decreases |xs|
  {
    if x != xs[0] {
      TryFilterKeeps(xs[1..], p, x);
    }
  }

  /** When the condition never raises, the comprehension is the plain
      filter by the condition's value `q`. */
  lemma {:induction false} TryFilterTotal<T>(xs: seq<T>, p: T -> Attempt<bool>, q: T -> bool)
    requires forall x :: x in xs ==> p(x) == Done(q(x))
    ensures TryFilter(xs, p) == Done(Filter(xs, q))
    decreases |xs|
  {
    if xs != [] {
      assert forall x :: x in xs[1..] ==> x in xs;
      TryFilterTotal(xs[1..], p, q);
      assert p(xs[0]) == Done(q(xs[0]));
      var rest := Filter(xs[1..], q);
      assert TryFilter(xs, p) == Done(if q(xs[0]) then [xs[0]] + rest else rest);
      if !q(xs[0]) {
        assert Filter(xs, q) == [] + rest == rest;
      }
    }
  }

  /** `any(p(x) for x in xs)` where evaluating `p` may raise: it stops at the
      first element that holds, so later elements are never evaluated. */
  function AnyTry<T>(xs: seq<T>, p: T -> Attempt<bool>): (r: Attempt<bool>)
    ensures r == Done(true) ==> exists i :: 0 <= i < |xs| && p(xs[i]) == Done(true)
    decreases |xs|
  {
    if xs == [] then Done(false)
    else match p(xs[0])
      case Raised => Raised
      case Done(true) => Done(true)
      case Done(false) =>
        var rest := AnyTry(xs[1..], p);
        assert rest == Done(true) ==> exists i :: 0 <= i < |xs| && p(xs[i]) == Done(true) by {
          if rest == Done(true) {
            var i :| 0 <= i < |xs[1..]| && p(xs[1..][i]) == Done(true);
            assert p(xs[i + 1]) == Done(true);
          }
        }
        rest
  }

  /** An element that holds, with no exception before it, makes `any` true. */
  lemma {:induction false} AnyTryWitness<T>(xs: seq<T>, p: T -> Attempt<bool>, k: nat)
    requires k < |xs| && p(xs[k]) == Done(true)
    requires forall i :: 0 <= i < k ==> p(xs[i]).Done?
    ensures AnyTry(xs, p) == Done(true)
    decreases k
  {
    if k > 0 && p(xs[0]) == Done(false) {
      assert forall i :: 0 <= i < k - 1 ==> xs[1..][i] == xs[i + 1];
      AnyTryWitness(xs[1..], p, k - 1);
    }
  }

  /** `[f(x) for x in xs]` where evaluating `f` may raise. */
  function MapTry<T, U>(xs: seq<T>, f: T -> Attempt<U>): (r: Attempt<seq<U>>)
    ensures r.Done? ==> |r.value| == |xs|
    ensures r.Done? ==> forall i :: 0 <= i < |xs| ==> f(xs[i]) == Done(r.value[i])
    decreases |xs|
  {
    if xs == [] then Done([])
    else
      var n := |xs| - 1;
      match MapTry(xs[..n], f)
      case Raised => Raised
      case Done(init) =>
        match f(xs[n])
        case Raised => Raised
        case Done(y) =>
          assert forall i :: 0 <= i < n ==> xs[..n][i] == xs[i];
          Done(init + [y])
  }

  /** An exception on a prefix is an exception of the whole loop. */
  lemma {:induction false} MapTryPrefixRaised<T, U>(xs: seq<T>, f: T -> Attempt<U>, k: nat)
    requires k <= |xs| && MapTry(xs[..k], f) == Raised
    ensures MapTry(xs, f) == Raised
    decreases |xs| - k
  {
    if k < |xs| {
      assert xs[..k + 1][..k] == xs[..k];
      MapTryPrefixRaised(xs, f, k + 1);
    } else {
      assert xs[..k] == xs;
    }
  }

  /** When no element raises, nothing is lost: the loop is the plain map. */
  lemma {:induction false} MapTryTotal<T, U>(xs: seq<T>, f: T -> Attempt<U>)
    requires forall i :: 0 <= i < |xs| ==> f(xs[i]).Done?
    ensures MapTry(xs, f).Done?
    decreases |xs|
  {
    if xs != [] {
      var n := |xs| - 1;
      assert forall i :: 0 <= i < n ==> xs[..n][i] == xs[i];
      MapTryTotal(xs[..n], f);
    }
  }

  // ---------------------------------------------------------------------
  // Python slicing `xs[lo:hi]` (step 1), negative bounds included

  /** The position a slice bound denotes: a negative bound counts from the
      end, and the result is clamped to `[0, n]`. */
  function SliceBound(i: int, n: nat): (r: nat)
    ensures r <= n
  {
    if i < 0 then (if i + n < 0 then 0 else i + n)
    else if i > n then n
    else i
  }

  function PySlice<T>(xs: seq<T>, lo: int, hi: int): seq<T> {
    var a := SliceBound(lo, |xs|);
    var b := SliceBound(hi, |xs|);
    if a < b then xs[a..b] else []
  }

  /** `xs[off : off + n]` has at most `n` elements when `n` is not
      negative, for every offset, negative ones included. */
  lemma PageBound<T>(xs: seq<T>, off: int, n: int)
    requires 0 <= n
    ensures |PySlice(xs, off, off + n)| <= n
  {
    var a := SliceBound(off, |xs|);
    var b := SliceBound(off + n, |xs|);
    if a < b && off < 0 && off + n >= 0 {
      assert a >= off + |xs| && b <= off + n;
    }
  }

  /** A negative `n` does not mean "nothing": the stop bound then counts from
      the end, so `xs[0 : -1]` keeps all but the last element. */
  lemma NegativeLimitCountsFromEnd<T>(xs: seq<T>)
    requires |xs| >= 1
    ensures PySlice(xs, 0, 0 + -1) == xs[..|xs| - 1]
  {
  }

  /** With a non-negative offset and enough elements, `xs[off : off + n]`
      skips exactly `off` elements and keeps exactly `n`. */
  lemma PageExact<T>(xs: seq<T>, off: int, n: int)
    requires 0 <= off && 0 <= n && off + n <= |xs|
    ensures PySlice(xs, off, off + n) == xs[off..off + n]
  {
  }

  lemma PageMember<T>(xs: seq<T>, lo: int, hi: int, x: T)
    requires x in PySlice(xs, lo, hi)
    ensures x in xs
  {
    var a := SliceBound(lo, |xs|);
    var b := SliceBound(hi, |xs|);
    var k :| 0 <= k < |xs[a..b]| && xs[a..b][k] == x;
    assert xs[a + k] == x;
  }
}
