/** Sorting of real samples, and the order statistics read off it. */
module OrderStatistics {

  function Insert(x: real, s: seq<real>): (r: seq<real>)
    ensures |r| == |s| + 1
  {
    if s == [] || x <= s[0] then [x] + s else [s[0]] + Insert(x, s[1..])
  }

  function Sorted(s: seq<real>): (r: seq<real>)
    ensures |r| == |s|
  {
    if s == [] then [] else Insert(s[0], Sorted(s[1..]))
  }

  predicate Ascending(s: seq<real>) {
    forall i, j :: 0 <= i < j < |s| ==> s[i] <= s[j]
  }

  function CountAtMost(s: seq<real>, v: real): nat {
    if s == [] then 0 else (if s[0] <= v then 1 else 0) + CountAtMost(s[1..], v)
  }

  lemma {:induction false} InsertSorts(x: real, s: seq<real>)
    requires Ascending(s)
    ensures Ascending(Insert(x, s))
    ensures forall y :: y in Insert(x, s) ==> y == x || y in s
  {
    if s != [] && x > s[0] {
      InsertSorts(x, s[1..]);
      var rest := Insert(x, s[1..]);
      forall j | 0 <= j < |rest|
        ensures s[0] <= rest[j]
      {
        assert rest[j] in rest;
      }
    }
  }

  lemma {:induction false} InsertCounts(x: real, s: seq<real>, v: real)
    ensures CountAtMost(Insert(x, s), v) == CountAtMost([x] + s, v)
  {
    assert ([x] + s)[1..] == s;
    if s != [] && x > s[0] {
      InsertCounts(x, s[1..], v);
      assert ([x] + s[1..])[1..] == s[1..];
      assert ([s[0]] + Insert(x, s[1..]))[1..] == Insert(x, s[1..]);
    }
  }

  lemma {:induction false} SortSorts(s: seq<real>, v: real)
    ensures Ascending(Sorted(s))
    ensures CountAtMost(Sorted(s), v) == CountAtMost(s, v)
    ensures forall y :: y in Sorted(s) ==> y in s
  {
    if s != [] {
      SortSorts(s[1..], v);
      InsertSorts(s[0], Sorted(s[1..]));
      InsertCounts(s[0], Sorted(s[1..]), v);
      assert ([s[0]] + Sorted(s[1..]))[1..] == Sorted(s[1..]);
    }
  }

  /** In an ascending sequence the element at `k` is at most `v` exactly if more than `k` elements are. */
  lemma {:induction false} RankByCounting(s: seq<real>, k: nat, v: real)
    requires Ascending(s) && k < |s|
    ensures s[k] <= v <==> CountAtMost(s, v) > k
  {
    if s[0] > v {
      NoneAtMost(s, v);
    } else if k > 0 {
      RankByCounting(s[1..], k - 1, v);
    }
  }

  lemma {:induction false} NoneAtMost(s: seq<real>, v: real)
    requires Ascending(s) && s != [] && s[0] > v
    ensures CountAtMost(s, v) == 0
  {
    if |s| > 1 {
      NoneAtMost(s[1..], v);
    }
  }

  predicate PointwiseAtMost(xs: seq<real>, ys: seq<real>) {
    |xs| == |ys| && forall i :: 0 <= i < |xs| ==> xs[i] <= ys[i]
  }

  lemma {:induction false} CountsShrink(xs: seq<real>, ys: seq<real>, v: real)
    requires PointwiseAtMost(xs, ys)
    ensures CountAtMost(ys, v) <= CountAtMost(xs, v)
  {
    if xs != [] {
      CountsShrink(xs[1..], ys[1..], v);
    }
  }

  /** Order statistics are monotone: raising samples, in whatever order, raises every one of them. */
  lemma OrderStatisticsAreMonotone(xs: seq<real>, ys: seq<real>, k: nat)
    requires PointwiseAtMost(xs, ys) && k < |xs|
    ensures Sorted(xs)[k] <= Sorted(ys)[k]
  {
    var v := Sorted(ys)[k];
    SortSorts(xs, v);
    SortSorts(ys, v);
    RankByCounting(Sorted(ys), k, v);
    RankByCounting(Sorted(xs), k, v);
    CountsShrink(xs, ys, v);
  }
}
