/** Ranking of corpus indices by score, as Python's stable
    `list.sort(key=score, reverse=True)` leaves them: higher scores first, and
    among equal scores the lower (earlier) index first. */
module Ranking {

  /** Index `a` is ranked ahead of index `b`. */
  predicate Before(keys: seq<real>, a: nat, b: nat)
    requires a < |keys| && b < |keys|
  {
    keys[a] > keys[b] || (keys[a] == keys[b] && a < b)
  }

  predicate InRange(keys: seq<real>, r: seq<nat>)
  {
    forall k :: 0 <= k < |r| ==> r[k] < |keys|
  }

  /** Every index of `r` is ranked ahead of every later one; this rules out
      repeated indices. */
  predicate Ordered(keys: seq<real>, r: seq<nat>)
    requires InRange(keys, r)
  {
    forall p, q :: 0 <= p < q < |r| ==> Before(keys, r[p], r[q])
  }

  /** Scores in non-increasing order along `r`. */
  predicate NonIncreasing(keys: seq<real>, r: seq<nat>)
    requires InRange(keys, r)
  {
    forall p, q :: 0 <= p < q < |r| ==> keys[r[p]] >= keys[r[q]]
  }

  /** Inserting index `i`, which is larger than every index of `r`, behind
      every index whose score is at least its own. */
  function Insert(keys: seq<real>, r: seq<nat>, i: nat): (t: seq<nat>)
    requires InRange(keys, r) && i < |keys|
    ensures |t| == |r| + 1
    ensures forall e :: e in t <==> e in r || e == i
    ensures InRange(keys, t)
  {
    if |r| == 0 then [i]
    else if keys[r[0]] >= keys[i] then [r[0]] + Insert(keys, r[1..], i)
    else [i] + r
  }

  /** The indices `0 .. m-1` in ranked order, built by insertion. */
  function RankPrefix(keys: seq<real>, m: nat): (r: seq<nat>)
    requires m <= |keys|
    ensures |r| == m
    ensures forall e :: e in r <==> 0 <= e < m
    ensures InRange(keys, r)
  {
    if m == 0 then [] else Insert(keys, RankPrefix(keys, m - 1), m - 1)
  }

  /** All corpus indices in ranked order. */
  function Rank(keys: seq<real>): seq<nat>
  {
    RankPrefix(keys, |keys|)
  }

  lemma {:induction false} InsertOrdered(keys: seq<real>, r: seq<nat>, i: nat)
    requires InRange(keys, r) && i < |keys| && Ordered(keys, r)
    requires forall k :: 0 <= k < |r| ==> r[k] < i
    ensures Ordered(keys, Insert(keys, r, i))
    decreases |r|
  {
    if |r| > 0 {
      var t := Insert(keys, r, i);
      if keys[r[0]] >= keys[i] {
        var u := Insert(keys, r[1..], i);
        InsertOrdered(keys, r[1..], i);
        assert t == [r[0]] + u;
        forall q | 0 <= q < |u| ensures Before(keys, r[0], u[q]) {
          assert u[q] in u;
          if u[q] != i {
            var k :| 0 <= k < |r[1..]| && r[1..][k] == u[q];
            assert Before(keys, r[0], r[k + 1]);
          }
        }
      } else {
        forall q | 0 < q < |r| ensures keys[r[q]] <= keys[r[0]] {
          assert Before(keys, r[0], r[q]);
        }
      }
    }
  }

  /** The ranking is a permutation of the corpus indices, in ranked order. */
  lemma {:induction false} RankPrefixOrdered(keys: seq<real>, m: nat)
    requires m <= |keys|
    ensures Ordered(keys, RankPrefix(keys, m))
  {
    if m > 0 {
      var r := RankPrefix(keys, m - 1);
      RankPrefixOrdered(keys, m - 1);
      forall k | 0 <= k < |r| ensures r[k] < m - 1 {
        assert r[k] in r;
      }
      InsertOrdered(keys, r, m - 1);
    }
  }

  /** `Rank(keys)` holds each index exactly once, higher scores first and ties
      in index order: what a stable descending sort of `(index, score)` pairs
      by score leaves. */
  lemma RankIsStableDescending(keys: seq<real>)
    ensures |Rank(keys)| == |keys|
    ensures forall j :: 0 <= j < |keys| ==> j in Rank(keys)
    ensures InRange(keys, Rank(keys))
    ensures NonIncreasing(keys, Rank(keys))
    ensures forall p, q :: 0 <= p < q < |keys| && keys[Rank(keys)[p]] == keys[Rank(keys)[q]]
              ==> Rank(keys)[p] < Rank(keys)[q]
  {
    RankPrefixOrdered(keys, |keys|);
    var r := Rank(keys);
    forall p, q | 0 <= p < q < |r| ensures keys[r[p]] >= keys[r[q]] {
      assert Before(keys, r[p], r[q]);
    }
  }

  /** The elements of `xs` at the positions `r`, in the order of `r`. */
  function Pick<T>(xs: seq<T>, r: seq<nat>): (t: seq<T>)
    requires forall k :: 0 <= k < |r| ==> r[k] < |xs|
    ensures |t| == |r| && forall k :: 0 <= k < |r| ==> t[k] == xs[r[k]]
  {
    seq(|r|, k requires 0 <= k < |r| => xs[r[k]])
  }

  /** Picking a leading position, then the rest. */
  lemma PickCons<T>(xs: seq<T>, a: nat, u: seq<nat>)
    requires a < |xs| && forall k :: 0 <= k < |u| ==> u[k] < |xs|
    ensures Pick(xs, [a] + u) == [xs[a]] + Pick(xs, u)
  {
    var l, m := Pick(xs, [a] + u), [xs[a]] + Pick(xs, u);
    forall k | 0 <= k < |l| ensures l[k] == m[k] {
      if k > 0 {
        assert ([a] + u)[k] == u[k - 1];
      }
    }
  }

  /** Inserting index `i` adds exactly the element at `i` to what is picked. */
  lemma {:induction false} InsertPicks<T>(keys: seq<real>, xs: seq<T>, r: seq<nat>, i: nat)
    requires |xs| == |keys| && InRange(keys, r) && i < |keys|
    ensures multiset(Pick(xs, Insert(keys, r, i))) == multiset(Pick(xs, r)) + multiset{xs[i]}
    decreases |r|
  {
    if |r| > 0 {
      assert r == [r[0]] + r[1..];
      PickCons(xs, r[0], r[1..]);
      if keys[r[0]] >= keys[i] {
        InsertPicks(keys, xs, r[1..], i);
        PickCons(xs, r[0], Insert(keys, r[1..], i));
      } else {
        PickCons(xs, i, r);
      }
    } else {
      PickCons(xs, i, r);
    }
  }

  /** The ranking of `keys`, applied to a sequence of the same length, is a
      permutation of it: every element keeps its number of occurrences. */
  lemma {:induction false} RankPermutes<T>(keys: seq<real>, xs: seq<T>, m: nat)
    requires |xs| == |keys| && m <= |keys|
    ensures multiset(Pick(xs, RankPrefix(keys, m))) == multiset(xs[..m])
  {
    if m > 0 {
      var r := RankPrefix(keys, m - 1);
      var before := multiset(Pick(xs, r));
      RankPermutes(keys, xs, m - 1);
      assert before == multiset(xs[..m - 1]);
      calc {
        multiset(Pick(xs, RankPrefix(keys, m)));
        { assert RankPrefix(keys, m) == Insert(keys, r, m - 1); }
        multiset(Pick(xs, Insert(keys, r, m - 1)));
        { InsertPicks(keys, xs, r, m - 1); }
        before + multiset{xs[m - 1]};
        { TakeOneMore(xs, m); }
        multiset(xs[..m]);
      }
    } else {
      assert xs[..m] == [];
    }
  }

  /** Picking `xs` in the ranked order of `keys` permutes the whole of `xs`. */
  lemma RankedIsPermutation<T>(keys: seq<real>, xs: seq<T>)
    requires |xs| == |keys|
    ensures multiset(Pick(xs, Rank(keys))) == multiset(xs)
  {
    RankPermutes(keys, xs, |keys|);
    assert xs[..|keys|] == xs;
  }

  /** A prefix one longer holds one more occurrence of its last element. */
  lemma TakeOneMore<T>(xs: seq<T>, m: nat)
    requires 0 < m <= |xs|
    ensures multiset(xs[..m]) == multiset(xs[..m - 1]) + multiset{xs[m - 1]}
  {
    assert xs[..m] == xs[..m - 1] + [xs[m - 1]];
  }

  /** The indices of `r` whose score exceeds `threshold`, in the order of `r`. */
  function Above(keys: seq<real>, r: seq<nat>, threshold: real): (s: seq<nat>)
    requires InRange(keys, r)
    ensures |s| <= |r|
    ensures InRange(keys, s)
  {
    if |r| == 0 then []
    else
      var rest := Above(keys, r[1..], threshold);
      if keys[r[0]] > threshold then [r[0]] + rest else rest
  }

  /** `Above` keeps exactly the indices of `r` scoring above `threshold`. */
  lemma {:induction false} AboveMembers(keys: seq<real>, r: seq<nat>, threshold: real)
    requires InRange(keys, r)
    ensures forall e :: e in Above(keys, r, threshold) <==> e in r && keys[e] > threshold
    decreases |r|
  {
    if |r| > 0 {
      AboveMembers(keys, r[1..], threshold);
      assert forall e :: e in r <==> e == r[0] || e in r[1..];
    }
  }

  lemma {:induction false} AboveOrdered(keys: seq<real>, r: seq<nat>, threshold: real)
    requires InRange(keys, r) && Ordered(keys, r)
    ensures Ordered(keys, Above(keys, r, threshold))
    decreases |r|
  {
    if |r| > 0 {
      var rest := Above(keys, r[1..], threshold);
      AboveOrdered(keys, r[1..], threshold);
      AboveMembers(keys, r[1..], threshold);
      forall q | 0 <= q < |rest| ensures Before(keys, r[0], rest[q]) {
        assert rest[q] in rest;
        var k :| 0 <= k < |r[1..]| && r[1..][k] == rest[q];
        assert Before(keys, r[0], r[k + 1]);
      }
    }
  }

  /** The first `n` ranked indices that score above `threshold`: the ranking
      truncated to `n` and then filtered, as the analyzer does it. */
  function TopAbove(keys: seq<real>, n: nat, threshold: real): (s: seq<nat>)
    ensures |s| <= |keys| && InRange(keys, s)
  {
    var r := Rank(keys);
    Above(keys, r[..if n < |r| then n else |r|], threshold)
  }

  /** The selection is in ranked order and its scores clear the threshold. */
  lemma TopAboveOrdered(keys: seq<real>, n: nat, threshold: real)
    ensures var s := TopAbove(keys, n, threshold);
      InRange(keys, s) && Ordered(keys, s) && forall p :: 0 <= p < |s| ==> keys[s[p]] > threshold
  {
    var r := Rank(keys);
    RankPrefixOrdered(keys, |keys|);
    var m := if n < |r| then n else |r|;
    assert Ordered(keys, r[..m]);
    AboveOrdered(keys, r[..m], threshold);
    AboveMembers(keys, r[..m], threshold);
    var s := TopAbove(keys, n, threshold);
    forall p | 0 <= p < |s| ensures keys[s[p]] > threshold {
      assert s[p] in s;
    }
  }

  /** An index that clears the threshold but is not selected scores no higher
      than any selected index, and all `n` places are taken. */
  lemma TopAboveComplete(keys: seq<real>, n: nat, threshold: real, j: nat)
    requires j < |keys| && keys[j] > threshold && j !in TopAbove(keys, n, threshold)
    ensures var s := TopAbove(keys, n, threshold);
      |s| == n && forall p :: 0 <= p < |s| ==> keys[s[p]] >= keys[j]
  {
    var r := Rank(keys);
    RankIsStableDescending(keys);
    RankPrefixOrdered(keys, |keys|);
    var m := if n < |r| then n else |r|;
    var top := r[..m];
    AboveMembers(keys, top, threshold);
    assert j in r;
    var pos :| 0 <= pos < |r| && r[pos] == j;
    assert pos >= m;
    forall p | 0 <= p < m ensures keys[top[p]] >= keys[j] {
      assert Before(keys, r[p], r[pos]);
    }
    AboveKeepsAll(keys, top, threshold);
  }

  /** The selection has at most `n` indices, each scoring above the threshold,
      ordered by score with ties in index order; and any index left out that
      also clears the threshold scores no higher than every selected one, in
      which case all `n` places are taken. */
  lemma TopAboveIsTop(keys: seq<real>, n: nat, threshold: real)
    ensures var s := TopAbove(keys, n, threshold);
      && |s| <= n && InRange(keys, s)
      && (forall p :: 0 <= p < |s| ==> keys[s[p]] > threshold)
      && NonIncreasing(keys, s)
      && (forall p, q :: 0 <= p < q < |s| && keys[s[p]] == keys[s[q]] ==> s[p] < s[q])
      && (forall j :: 0 <= j < |keys| && keys[j] > threshold && j !in s ==>
            |s| == n && forall p :: 0 <= p < |s| ==> keys[s[p]] >= keys[j])
  {
    var s := TopAbove(keys, n, threshold);
    TopAboveOrdered(keys, n, threshold);
    forall p, q | 0 <= p < q < |s| ensures keys[s[p]] >= keys[s[q]] {
      assert Before(keys, s[p], s[q]);
    }
    forall j | 0 <= j < |keys| && keys[j] > threshold && j !in s
      ensures |s| == n && forall p :: 0 <= p < |s| ==> keys[s[p]] >= keys[j]
    {
      TopAboveComplete(keys, n, threshold, j);
    }
  }

  /** When every index of `r` clears the threshold, filtering keeps `r` whole. */
  lemma {:induction false} AboveKeepsAll(keys: seq<real>, r: seq<nat>, threshold: real)
    requires InRange(keys, r)
    requires forall k :: 0 <= k < |r| ==> keys[r[k]] > threshold
    ensures Above(keys, r, threshold) == r
    decreases |r|
  {
    if |r| > 0 {
      AboveKeepsAll(keys, r[1..], threshold);
      assert [r[0]] + r[1..] == r;
    }
  }

  /** Filtering one more element of `r` appends it exactly when it clears the
      threshold: the filter can be computed by a left-to-right loop. */
  lemma {:induction false} AboveSnoc(keys: seq<real>, r: seq<nat>, i: nat, threshold: real)
    requires InRange(keys, r) && i < |r|
    ensures Above(keys, r[..i + 1], threshold)
         == Above(keys, r[..i], threshold) + (if keys[r[i]] > threshold then [r[i]] else [])
    decreases i
  {
    if i > 0 {
      assert r[..i + 1][1..] == r[1..][..i];
      assert r[..i][1..] == r[1..][..i - 1];
      AboveSnoc(keys, r[1..], i - 1, threshold);
    }
  }

  /** The indices `0 .. n-1` in increasing order. */
  function Indices(n: nat): (r: seq<nat>)
    ensures |r| == n && forall k :: 0 <= k < n ==> r[k] == k
  {
    seq(n, k requires 0 <= k < n => k)
  }

  /** Every index that survives filtering the tail of a non-increasing `r`
      scores no higher than its head. */
  lemma AboveTailBelowHead(keys: seq<real>, r: seq<nat>, threshold: real)
    requires InRange(keys, r) && NonIncreasing(keys, r) && |r| > 0
    ensures forall e :: e in Above(keys, r[1..], threshold) ==> keys[e] <= keys[r[0]]
  {
    AboveMembers(keys, r[1..], threshold);
    forall e | e in Above(keys, r[1..], threshold) ensures keys[e] <= keys[r[0]] {
      assert e in r[1..];
      var k :| 0 <= k < |r[1..]| && r[1..][k] == e;
      assert r[k + 1] == e;
    }
  }

  /** Putting an index that scores at least as high as every index of a
      non-increasing `rest` in front keeps it non-increasing. */
  lemma NonIncreasingCons(keys: seq<real>, h: nat, rest: seq<nat>)
    requires h < |keys| && InRange(keys, rest) && NonIncreasing(keys, rest)
    requires forall e :: e in rest ==> keys[e] <= keys[h]
    ensures InRange(keys, [h] + rest) && NonIncreasing(keys, [h] + rest)
  {
    var s := [h] + rest;
    forall p, q | 0 <= p < q < |s| ensures keys[s[p]] >= keys[s[q]] {
      assert s[q] == rest[q - 1];
      if p == 0 {
        assert rest[q - 1] in rest;
      } else {
        assert s[p] == rest[p - 1];
      }
    }
  }

  /** The tail of a non-increasing `r` is non-increasing. */
  lemma NonIncreasingTail(keys: seq<real>, r: seq<nat>)
    requires InRange(keys, r) && NonIncreasing(keys, r) && |r| > 0
    ensures InRange(keys, r[1..]) && NonIncreasing(keys, r[1..])
  {
    forall p, q | 0 <= p < q < |r[1..]| ensures keys[r[1..][p]] >= keys[r[1..][q]] {
      assert r[1..][p] == r[p + 1] && r[1..][q] == r[q + 1];
    }
  }

  /** Filtering keeps a non-increasing order. */
  lemma {:induction false} AboveNonIncreasing(keys: seq<real>, r: seq<nat>, threshold: real)
    requires InRange(keys, r) && NonIncreasing(keys, r)
    ensures NonIncreasing(keys, Above(keys, r, threshold))
    decreases |r|
  {
    if |r| > 0 {
      NonIncreasingTail(keys, r);
      AboveNonIncreasing(keys, r[1..], threshold);
      if keys[r[0]] > threshold {
        AboveTailBelowHead(keys, r, threshold);
        NonIncreasingCons(keys, r[0], Above(keys, r[1..], threshold));
      }
    }
  }
}
