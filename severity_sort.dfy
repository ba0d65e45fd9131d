// The stable sort of main.py:294-295: `all_issues.sort(key=...)` orders
// issues by the rank of their severity, high, medium, low and then anything
// else, and Python's sort keeps issues of equal rank in their order.
module SeveritySort {
  import opened PyValues

  /** `severity_order.get(x.get("severity", "low"), 3)`. */
  function Rank(d: Dict): (r: nat)
    ensures r < 4
  {
    SeverityRank(Get(d, "severity", Str("low")))
  }

  function SeverityRank(v: Value): (r: nat)
    ensures r < 4
  {
    match v
    case Str(s) => if s == "high" then 0 else if s == "medium" then 1 else if s == "low" then 2 else 3
    case _ => 3
  }

  /** The part of the first issue that rank group k receives. */
  function Head(x: Dict, k: nat): seq<Dict>
  {
    if Rank(x) == k then [x] else []
  }

  /** The issues of rank k, in their original order. */
  function Bucket(xs: seq<Dict>, k: nat): (r: seq<Dict>)
    ensures |r| <= |xs|
    ensures forall i :: 0 <= i < |r| ==> Rank(r[i]) == k
  {
    if xs == [] then [] else Head(xs[0], k) + Bucket(xs[1..], k)
  }

  /** `list.sort(key=rank)`: Python's sort is stable, so its result is the
      issues of rank 0, then 1, 2 and 3, each group in input order. */
  function SortBySeverity(xs: seq<Dict>): seq<Dict>
  {
    Bucket(xs, 0) + Bucket(xs, 1) + Bucket(xs, 2) + Bucket(xs, 3)
  }

  predicate RankOrdered(xs: seq<Dict>)
  {
    forall i, j :: 0 <= i < j < |xs| ==> Rank(xs[i]) <= Rank(xs[j])
  }

  lemma {:induction false} BucketAppend(a: seq<Dict>, b: seq<Dict>, k: nat)
    ensures Bucket(a + b, k) == Bucket(a, k) + Bucket(b, k)
  {
    if a == [] {
      assert a + b == b;
    } else {
      assert (a + b)[0] == a[0] && (a + b)[1..] == a[1..] + b;
      BucketAppend(a[1..], b, k);
    }
  }

  lemma {:induction false} BucketOfBucket(xs: seq<Dict>, m: nat, k: nat)
    ensures Bucket(Bucket(xs, m), k) == if m == k then Bucket(xs, m) else []
  {
    if xs != [] {
      BucketOfBucket(xs[1..], m, k);
      BucketAppend(Head(xs[0], m), Bucket(xs[1..], m), k);
    }
  }

  lemma {:induction false} BucketsMultiset(xs: seq<Dict>)
    ensures multiset(Bucket(xs, 0)) + multiset(Bucket(xs, 1)) + multiset(Bucket(xs, 2)) +
            multiset(Bucket(xs, 3)) == multiset(xs)
  {
    if xs != [] {
      var x, t := xs[0], xs[1..];
      BucketsMultiset(t);
      assert xs == [x] + t;
      HeadsMultiset(x);
      assert Bucket(xs, 0) == Head(x, 0) + Bucket(t, 0);
      assert Bucket(xs, 1) == Head(x, 1) + Bucket(t, 1);
      assert Bucket(xs, 2) == Head(x, 2) + Bucket(t, 2);
      assert Bucket(xs, 3) == Head(x, 3) + Bucket(t, 3);
    }
  }

  lemma HeadsMultiset(x: Dict)
    ensures multiset(Head(x, 0)) + multiset(Head(x, 1)) + multiset(Head(x, 2)) + multiset(Head(x, 3))
            == multiset{x}
  {
    var r := Rank(x);
  }

  /** The sort returns a permutation of its input. */
  lemma SortIsPermutation(xs: seq<Dict>)
    ensures multiset(SortBySeverity(xs)) == multiset(xs)
    ensures |SortBySeverity(xs)| == |xs|
  {
    BucketsMultiset(xs);
    assert |multiset(SortBySeverity(xs))| == |multiset(xs)|;
  }

  /** The sort orders issues by rank: high, medium, low, then the rest. */
  lemma SortIsOrdered(xs: seq<Dict>)
    ensures RankOrdered(SortBySeverity(xs))
  {
    var b0, b1, b2, b3 := Bucket(xs, 0), Bucket(xs, 1), Bucket(xs, 2), Bucket(xs, 3);
    var r := SortBySeverity(xs);
    forall i | 0 <= i < |r| ensures Rank(r[i]) == (if i < |b0| then 0 else if i < |b0| + |b1| then 1
                                                    else if i < |b0| + |b1| + |b2| then 2 else 3)
    {
      if i < |b0| { assert r[i] == b0[i]; }
      else if i < |b0| + |b1| { assert r[i] == b1[i - |b0|]; }
      else if i < |b0| + |b1| + |b2| { assert r[i] == b2[i - |b0| - |b1|]; }
      else { assert r[i] == b3[i - |b0| - |b1| - |b2|]; }
    }
  }

  /** The sort is stable: the issues of each rank keep their order. */
  lemma SortIsStable(xs: seq<Dict>, k: nat)
    ensures Bucket(SortBySeverity(xs), k) == Bucket(xs, k)
  {
    var b0, b1, b2, b3 := Bucket(xs, 0), Bucket(xs, 1), Bucket(xs, 2), Bucket(xs, 3);
    BucketAppend(b0 + b1 + b2, b3, k);
    BucketAppend(b0 + b1, b2, k);
    BucketAppend(b0, b1, k);
    assert Bucket(SortBySeverity(xs), k) == Bucket(b0, k) + Bucket(b1, k) + Bucket(b2, k) + Bucket(b3, k);
    BucketOfBucket(xs, 0, k);
    BucketOfBucket(xs, 1, k);
    BucketOfBucket(xs, 2, k);
    BucketOfBucket(xs, 3, k);
    if k == 0 {
      assert Bucket(SortBySeverity(xs), k) == b0 + [] + [] + [];
    } else if k == 1 {
      assert Bucket(SortBySeverity(xs), k) == [] + b1 + [] + [];
    } else if k == 2 {
      assert Bucket(SortBySeverity(xs), k) == [] + [] + b2 + [];
    } else if k == 3 {
      assert Bucket(SortBySeverity(xs), k) == [] + [] + [] + b3;
    } else {
      BucketNone(xs, k);
    }
  }

  lemma {:induction false} BucketNone(xs: seq<Dict>, k: nat)
    requires forall i :: 0 <= i < |xs| ==> Rank(xs[i]) != k
    ensures Bucket(xs, k) == []
  {
    if xs != [] {
      assert forall i :: 0 <= i < |xs[1..]| ==> xs[1..][i] == xs[i + 1];
      BucketNone(xs[1..], k);
    }
  }

  /** A rank-ordered list is its own rank groups laid end to end. */
  lemma {:induction false} OrderedIsBuckets(ys: seq<Dict>)
    requires RankOrdered(ys)
    ensures ys == SortBySeverity(ys)
  {
    if ys != [] {
      var t := ys[1..];
      assert forall i :: 0 <= i < |t| ==> t[i] == ys[i + 1];
      OrderedIsBuckets(t);
      forall k | 0 <= k < Rank(ys[0]) ensures Bucket(t, k) == [] {
        BucketNone(t, k);
      }
      PrependLowest(ys[0], t);
      assert ys == [ys[0]] + t;
    }
  }

  /** Putting an issue of rank m in front of a list with no issue of lower
      rank adds it to the front of group m, that is, to the front of the
      sorted list. */
  lemma PrependLowest(y: Dict, t: seq<Dict>)
    requires t == SortBySeverity(t)
    requires forall k :: 0 <= k < Rank(y) ==> Bucket(t, k) == []
    ensures [y] + t == SortBySeverity([y] + t)
  {
    BucketsCons(y, t);
    var m := Rank(y);
    InsertAtGroup([y], m, Bucket(t, 0), Bucket(t, 1), Bucket(t, 2), Bucket(t, 3),
                  Head(y, 0), Head(y, 1), Head(y, 2), Head(y, 3));
  }

  /** Four groups, of which the first m are empty, with `y` put in front of
      group m: the result is `y` followed by the groups. */
  lemma InsertAtGroup<T>(y: seq<T>, m: nat, b0: seq<T>, b1: seq<T>, b2: seq<T>, b3: seq<T>,
                         h0: seq<T>, h1: seq<T>, h2: seq<T>, h3: seq<T>)
    requires m < 4
    requires h0 == (if m == 0 then y else []) && h1 == (if m == 1 then y else [])
    requires h2 == (if m == 2 then y else []) && h3 == (if m == 3 then y else [])
    requires m > 0 ==> b0 == []
    requires m > 1 ==> b1 == []
    requires m > 2 ==> b2 == []
    ensures y + (b0 + b1 + b2 + b3) == (h0 + b0) + (h1 + b1) + (h2 + b2) + (h3 + b3)
  {
  }

  lemma BucketsCons(y: Dict, t: seq<Dict>)
    ensures SortBySeverity([y] + t) ==
            (Head(y, 0) + Bucket(t, 0)) + (Head(y, 1) + Bucket(t, 1)) +
            (Head(y, 2) + Bucket(t, 2)) + (Head(y, 3) + Bucket(t, 3))
  {
    var ys := [y] + t;
    assert ys[0] == y && ys[1..] == t;
  }

  /** The sort is the only stable ordering by rank: any rank-ordered list
      with the same issues of each rank in the same order is its result. */
  lemma SortIsUnique(xs: seq<Dict>, ys: seq<Dict>)
    requires RankOrdered(ys)
    requires forall k :: 0 <= k < 4 ==> Bucket(ys, k) == Bucket(xs, k)
    ensures ys == SortBySeverity(xs)
  {
    OrderedIsBuckets(ys);
  }

}
