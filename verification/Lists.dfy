/** Options and the two list builders that the conversion and filtering loops compute. */
module Lists {

  datatype Option<+T> = None | Some(value: T)

  /** Element-wise image of a list: what an append-per-element loop builds. */
  function Map<A, B>(f: A -> B, s: seq<A>): (r: seq<B>)
    ensures |r| == |s|
    ensures forall i :: 0 <= i < |s| ==> r[i] == f(s[i])
  {
    seq(|s|, i requires 0 <= i < |s| => f(s[i]))
  }

  /** The elements satisfying `p`, in order: what an append-unless-skipped loop builds. */
  function Filter<A>(p: A -> bool, s: seq<A>): (r: seq<A>)
    ensures forall x :: x in r ==> x in s && p(x)
    ensures forall x :: x in s && p(x) ==> x in r
  {
    if s == [] then []
    else
      var last := s[|s| - 1];
      Filter(p, s[..|s| - 1]) + (if p(last) then [last] else [])
  }

  lemma FilterSnoc<A>(p: A -> bool, s: seq<A>, i: nat)
    requires i < |s|
    ensures Filter(p, s[..i + 1]) == Filter(p, s[..i]) + (if p(s[i]) then [s[i]] else [])
  {
    assert s[..i + 1][..i] == s[..i];
  }

  lemma MapSnoc<A, B>(f: A -> B, s: seq<A>, x: A)
    ensures Map(f, s + [x]) == Map(f, s) + [f(x)]
  {
  }

  /** `idx` lists, strictly increasing, exactly the positions of `s` that satisfy `p`. */
  ghost predicate KeptPositions<A>(p: A -> bool, s: seq<A>, idx: seq<nat>) {
    && (forall j :: 0 <= j < |idx| ==> idx[j] < |s| && p(s[idx[j]]))
    && (forall j, k :: 0 <= j < k < |idx| ==> idx[j] < idx[k])
    && (forall i :: 0 <= i < |s| && p(s[i]) ==> i in idx)
  }

  lemma KeptPositionsSnoc<A>(p: A -> bool, s: seq<A>, n: nat, init: seq<nat>)
    requires n < |s| && KeptPositions(p, s[..n], init)
    ensures KeptPositions(p, s[..n + 1], if p(s[n]) then init + [n] else init)
  {
    var idx := if p(s[n]) then init + [n] else init;
    forall i | 0 <= i < n + 1 && p(s[..n + 1][i]) ensures i in idx {
      if i < n {
        assert s[..n][i] == s[..n + 1][i];
        assert i in init;
      } else {
        assert idx[|init|] == n;
      }
    }
    forall j | 0 <= j < |idx| ensures idx[j] < n + 1 && p(s[..n + 1][idx[j]]) {
      if j < |init| { assert idx[j] == init[j] && s[..n][init[j]] == s[..n + 1][init[j]]; }
    }
  }

  /** `out` reads the positions `idx` of `s` left to right. */
  ghost predicate ReadsOff<A>(s: seq<A>, idx: seq<nat>, out: seq<A>) {
    |idx| == |out| && forall j :: 0 <= j < |idx| ==> idx[j] < |s| && out[j] == s[idx[j]]
  }

  lemma ReadsOffSnoc<A>(s: seq<A>, n: nat, idx: seq<nat>, out: seq<A>)
    requires |s| == n + 1 && ReadsOff(s[..n], idx, out)
    ensures ReadsOff(s, idx, out) && ReadsOff(s, idx + [n], out + [s[n]])
  {
  }

  /** Filtering keeps the relative order: the result reads off the kept positions left to right. */
  lemma {:induction false} FilterKeepsOrder<A>(p: A -> bool, s: seq<A>) returns (idx: seq<nat>)
    ensures KeptPositions(p, s, idx) && ReadsOff(s, idx, Filter(p, s))
  {
    if s == [] {
      idx := [];
    } else {
      var n := |s| - 1;
      var init := FilterKeepsOrder(p, s[..n]);
      ReadsOffSnoc(s, n, init, Filter(p, s[..n]));
      FilterLast(p, s);
      idx := if p(s[n]) then init + [n] else init;
      assert KeptPositions(p, s, idx) by {
        KeptPositionsSnoc(p, s, n, init);
        assert s[..n + 1] == s;
      }
    }
  }

  lemma FilterLast<A>(p: A -> bool, s: seq<A>)
    requires s != []
    ensures var n := |s| - 1; Filter(p, s) == Filter(p, s[..n]) + (if p(s[n]) then [s[n]] else [])
  {
  }

  lemma {:induction false} FilterConcat<A>(p: A -> bool, x: seq<A>, y: seq<A>)
    ensures Filter(p, x + y) == Filter(p, x) + Filter(p, y)
    decreases |y|
  {
    if y == [] {
      assert x + y == x;
    } else {
      var n := |y| - 1;
      FilterConcat(p, x, y[..n]);
      assert (x + y)[..|x + y| - 1] == x + y[..n];
      FilterLast(p, x + y);
      FilterLast(p, y);
    }
  }

  lemma SubsetIsSmaller<T>(a: set<T>, b: set<T>)
    requires a <= b
    ensures |a| <= |b|
  {
    assert b == a + (b - a);
  }

  lemma SubsetOfSameSize<T>(a: set<T>, b: set<T>)
    requires a <= b && |a| == |b|
    ensures a == b
  {
    assert |b - a| == |b| - |a|;
  }

  lemma {:induction false} DistinctSize<T>(q: seq<T>, elements: set<T>)
    requires (forall x :: x in q <==> x in elements) && (forall i, j :: 0 <= i < j < |q| ==> q[i] != q[j])
    ensures |q| == |elements|
    decreases |q|
  {
    if q == [] {
      assert elements == {};
    } else {
      var k := |q| - 1;
      assert q == q[..k] + [q[k]] && q[k] !in q[..k];
      DistinctSize(q[..k], elements - {q[k]});
    }
  }
}
