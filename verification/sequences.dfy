/** Index bookkeeping shared by the upgrade filter and the entity pools: the
    positions a tick loop collects, and the removal of those positions with
    `splice(index - offset, 1)`. */
module Sequences {

  predicate StrictlyIncreasing(s: seq<nat>) {
    forall i, j :: 0 <= i < j < |s| ==> s[i] < s[j]
  }

  predicate Distinct<T(==)>(s: seq<T>) {
    forall i, j :: 0 <= i < j < |s| ==> s[i] != s[j]
  }

  lemma AppendAssoc<T>(a: seq<T>, b: seq<T>, c: seq<T>)
    ensures a + b + c == a + (b + c)
  {
  }

  /** No element twice is the same as every element counted at most once. */
  lemma {:induction false} DistinctCounts<T>(s: seq<T>)
    ensures Distinct(s) <==> forall x :: multiset(s)[x] <= 1
  {
    if |s| != 0 {
      var t := s[1..];
      assert s == [s[0]] + t;
      DistinctCounts(t);
      if Distinct(s) {
        assert Distinct(t) by {
          forall i, j | 0 <= i < j < |t| ensures t[i] != t[j] {
            assert t[i] == s[i + 1] && t[j] == s[j + 1];
          }
        }
        forall j | 0 <= j < |t| ensures t[j] != s[0] {
          assert t[j] == s[j + 1];
        }
      }
      if forall x :: multiset(s)[x] <= 1 {
        assert forall x :: multiset(t)[x] <= multiset(s)[x];
        assert s[0] !in multiset(t) by {
          assert multiset(s)[s[0]] == 1 + multiset(t)[s[0]];
        }
        forall i, j | 0 <= i < j < |s| ensures s[i] != s[j] {
          assert s[j] == t[j - 1];
          if i > 0 {
            assert s[i] == t[i - 1];
          } else {
            assert s[j] in multiset(t);
          }
        }
      }
    }
  }

  /** The positions of `xs` whose element satisfies `p`, in increasing order:
      what a tick loop collects while it walks a pool with `index++`. */
  function Where<T>(xs: seq<T>, p: T -> bool): (r: seq<nat>)
    ensures StrictlyIncreasing(r)
    ensures forall k :: 0 <= k < |r| ==> r[k] < |xs| && p(xs[r[k]])
    ensures forall i :: 0 <= i < |xs| && p(xs[i]) ==> i in r
    decreases |xs|
  {
    if |xs| == 0 then []
    else Where(xs[..|xs| - 1], p) + (if p(xs[|xs| - 1]) then [|xs| - 1] else [])
  }

  /** `xs` without the positions listed in `rm`. */
  function Without<T>(xs: seq<T>, rm: seq<nat>): seq<T>
    decreases |xs|
  {
    if |xs| == 0 then []
    else Without(xs[..|xs| - 1], rm) + (if |xs| - 1 in rm then [] else [xs[|xs| - 1]])
  }

  /** The positions below `n` that `rm` does not list, in increasing order. */
  function Kept(n: nat, rm: seq<nat>): (r: seq<nat>)
    ensures StrictlyIncreasing(r)
    ensures forall k :: 0 <= k < |r| ==> r[k] < n && r[k] !in rm
    ensures forall i :: 0 <= i < n && i !in rm ==> i in r
  {
    if n == 0 then [] else Kept(n - 1, rm) + (if n - 1 in rm then [] else [n - 1])
  }

  /** What a removal leaves is exactly the unlisted elements, in their original
      order. */
  lemma {:induction false} WithoutKept<T>(xs: seq<T>, rm: seq<nat>)
    ensures |Without(xs, rm)| == |Kept(|xs|, rm)|
    ensures forall k :: 0 <= k < |Without(xs, rm)| ==> Without(xs, rm)[k] == xs[Kept(|xs|, rm)[k]]
    decreases |xs|
  {
    if |xs| != 0 {
      var n := |xs| - 1;
      var front := xs[..n];
      WithoutKept(front, rm);
      var w, kept := Without(xs, rm), Kept(|xs|, rm);
      assert w == Without(front, rm) + (if n in rm then [] else [xs[n]]);
      assert kept == Kept(n, rm) + (if n in rm then [] else [n]);
      forall k | 0 <= k < |w| ensures w[k] == xs[kept[k]] {
        if k < |Without(front, rm)| {
          assert w[k] == front[Kept(n, rm)[k]];
        }
      }
    }
  }

  /** Where `rm` lists no position in `[p, q)`, that stretch survives whole. */
  lemma {:induction false} WithoutNoHits<T>(xs: seq<T>, rm: seq<nat>, p: nat, q: nat)
    requires p <= q <= |xs|
    requires forall i :: p <= i < q ==> i !in rm
    ensures Without(xs[..q], rm) == Without(xs[..p], rm) + xs[p..q]
    decreases q - p
  {
    if p < q {
      WithoutNoHits(xs, rm, p, q - 1);
      assert xs[..q][..q - 1] == xs[..q - 1];
      assert xs[p..q] == xs[p..q - 1] + [xs[q - 1]];
    }
  }

  /** Between consecutive listed positions (and past the last one) nothing
      is listed. */
  lemma Gap(rm: seq<nat>, offset: nat, done: nat, upTo: nat)
    requires StrictlyIncreasing(rm) && offset <= |rm|
    requires offset == 0 ==> done == 0
    requires offset > 0 ==> done == rm[offset - 1] + 1
    requires offset < |rm| ==> upTo <= rm[offset]
    ensures forall i :: done <= i < upTo ==> i !in rm
  {
    forall i | done <= i < upTo ensures i !in rm {
      forall j | 0 <= j < |rm| ensures rm[j] != i {
        if j < offset {
          assert rm[j] <= rm[offset - 1];
        } else {
          assert rm[offset] <= rm[j];
        }
      }
    }
  }

  /** One `splice(index - offset, 1)`: with the positions below `done`
      settled and none listed in `[done, index)`, removing the element now at
      `index - offset` settles the positions up to `index`. */
  lemma SpliceStep<T>(xs: seq<T>, rm: seq<nat>, ys: seq<T>, offset: nat, done: nat, index: nat)
    requires done <= index < |xs| && index in rm
    requires forall i :: done <= i < index ==> i !in rm
    requires |ys| == |xs| - offset
    requires ys == Without(xs[..done], rm) + xs[done..]
    ensures offset <= index < |ys| + offset
    ensures ys[..index - offset] + ys[index - offset + 1..] == Without(xs[..index + 1], rm) + xs[index + 1..]
  {
    WithoutNoHits(xs, rm, done, index);
    var w := Without(xs[..index], rm);
    assert Without(xs[..index + 1], rm) == w by {
      assert xs[..index + 1][..index] == xs[..index];
    }
    assert xs[done..] == xs[done..index] + xs[index..];
    assert ys == w + xs[index..];
    assert |w| == index - offset;
    assert ys[..index - offset] == w;
    assert ys[index - offset + 1..] == xs[index + 1..];
  }

  /** The removal loop of `enemiesTick` and `pickupsTick`: for each collected
      position, in increasing order, `splice(index - offset, 1)`, where
      `offset` counts the removals already made. */
  method RemoveIndices<T>(xs: seq<T>, rm: seq<nat>) returns (ys: seq<T>)
    requires StrictlyIncreasing(rm)
    requires forall k :: 0 <= k < |rm| ==> rm[k] < |xs|
    ensures ys == Without(xs, rm)
    ensures |ys| == |xs| - |rm|
  {
    ys := xs;
    var offset := 0;
    ghost var done := 0;  // positions below `done` are settled
    while offset < |rm|
      invariant offset <= |rm| && done <= |xs|
      invariant offset == 0 ==> done == 0
      invariant offset > 0 ==> done == rm[offset - 1] + 1
      invariant |ys| == |xs| - offset
      invariant ys == Without(xs[..done], rm) + xs[done..]
    {
      var index := rm[offset];
      Gap(rm, offset, done, index);
      SpliceStep(xs, rm, ys, offset, done, index);
      ys := ys[..index - offset] + ys[index - offset + 1..];
      offset := offset + 1;
      done := index + 1;
    }
    Gap(rm, offset, done, |xs|);
    WithoutNoHits(xs, rm, done, |xs|);
    assert xs[..|xs|] == xs;
  }
}
