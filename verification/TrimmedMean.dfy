/** Trimmed means of sorted readings, and how many wrong readings they tolerate. */
module TrimmedMean {
  import opened CInt
  import opened Bits

  ghost predicate Sorted(s: seq<nat>) {
    forall i, j :: 0 <= i < j < |s| ==> s[i] <= s[j]
  }

  /** `t` is `s` in ascending order. */
  ghost predicate SortOf(s: seq<nat>, t: seq<nat>) {
    Sorted(t) && multiset(t) == multiset(s)
  }

  /** The sum of the elements from `a` up to `b`. */
  function Sum(t: seq<nat>, a: nat, b: nat): nat
    requires b <= |t|
  {
    if b <= a then 0 else Sum(t, a, b - 1) + t[b - 1]
  }

  /** The sum is accumulated in 16 bits. */
  function Mean(t: seq<nat>, cut: nat): nat
    requires 2 * cut < |t|
  {
    U16(Sum(t, cut, |t| - cut)) / (|t| - 2 * cut)
  }

  // ---------- counting ----------

  function Count(s: seq<nat>, p: nat -> bool): nat {
    if s == [] then 0 else Count(s[..|s| - 1], p) + if p(s[|s| - 1]) then 1 else 0
  }

  lemma {:induction false} CountConcat(a: seq<nat>, b: seq<nat>, p: nat -> bool)
    ensures Count(a + b, p) == Count(a, p) + Count(b, p)
    decreases |b|
  {
    if b == [] {
      assert a + b == a;
    } else {
      assert (a + b)[..|a + b| - 1] == a + b[..|b| - 1];
      CountConcat(a, b[..|b| - 1], p);
    }
  }

  lemma CountMiddle(a: seq<nat>, x: nat, b: seq<nat>, p: nat -> bool)
    ensures Count(a + [x] + b, p) == Count(a + b, p) + if p(x) then 1 else 0
  {
    assert [x][..0] == [];
    assert Count([x], p) == if p(x) then 1 else 0;
    hide Count;
    CountConcat(a, b, p);
    CountConcat(a, [x], p);
    CountConcat(a + [x], b, p);
  }

  /** Taking one element out takes one occurrence out of the bag and its share out of the count. */
  lemma TakeOut(t: seq<nat>, j: nat, p: nat -> bool)
    requires j < |t|
    ensures multiset(t[..j] + t[j + 1..]) == multiset(t) - multiset{t[j]}
    ensures Count(t, p) == Count(t[..j] + t[j + 1..], p) + if p(t[j]) then 1 else 0
  {
    hide Count;
    assert t == t[..j] + [t[j]] + t[j + 1..];
    CountMiddle(t[..j], t[j], t[j + 1..], p);
  }

  /** Reordering does not change a count. */
  lemma {:induction false} CountPermuted(s: seq<nat>, t: seq<nat>, p: nat -> bool)
    requires multiset(s) == multiset(t)
    ensures Count(s, p) == Count(t, p)
    decreases |s|
  {
    if s == [] {
      assert |multiset(t)| == |multiset(s)| == 0;
    } else {
      var n := |s| - 1;
      assert s[n] in multiset(t);
      var j :| 0 <= j < |t| && t[j] == s[n];
      TakeOut(t, j, p);
      TakeOut(s, n, p);
      hide Count;
      assert s[..n] + s[n + 1..] == s[..n];
      CountPermuted(s[..n], t[..j] + t[j + 1..], p);
    }
  }

  /** If only readings at `bad` positions satisfy `p`, no more than |bad| do. */
  lemma {:induction false} CountAtMost(s: seq<nat>, p: nat -> bool, bad: set<nat>)
    requires forall i :: 0 <= i < |s| && p(s[i]) ==> i in bad
    ensures Count(s, p) <= |bad|
    decreases |s|
  {
    if s != [] {
      var n := |s| - 1;
      if p(s[n]) {
        CountAtMost(s[..n], p, bad - {n});
        assert |bad - {n}| == |bad| - 1;
      } else {
        CountAtMost(s[..n], p, bad);
      }
    }
  }

  lemma {:induction false} CountAll(s: seq<nat>, p: nat -> bool)
    requires forall i :: 0 <= i < |s| ==> p(s[i])
    ensures Count(s, p) == |s|
    decreases |s|
  {
    if s != [] {
      CountAll(s[..|s| - 1], p);
    }
  }

  lemma OneTimesMore(n: nat, x: nat)
    requires n > 0
    ensures n * x == (n - 1) * x + x
  {
  }

  lemma {:induction false} SumWithin(t: seq<nat>, a: nat, n: nat, lo: nat, hi: nat)
    requires a + n <= |t| && forall i :: a <= i < a + n ==> lo <= t[i] <= hi
    ensures n * lo <= Sum(t, a, a + n) <= n * hi
    decreases n
  {
    if n > 0 {
      SumWithin(t, a, n - 1, lo, hi);
      OneTimesMore(n, lo);
      OneTimesMore(n, hi);
    }
  }

  // ---------- robustness ----------

  /** Every reading outside `bad` lies within the range. */
  ghost predicate GoodWithin(s: seq<nat>, bad: set<nat>, lo: nat, hi: nat) {
    forall i :: 0 <= i < |s| && i !in bad ==> lo <= s[i] <= hi
  }

  /** More than |bad| elements satisfying `p` cannot stand together anywhere in the sorted readings. */
  lemma FewInBlock(s: seq<nat>, t: seq<nat>, from: nat, to: nat, p: nat -> bool, bad: set<nat>)
    requires multiset(t) == multiset(s) && from <= to <= |t|
    requires forall i :: 0 <= i < |s| && p(s[i]) ==> i in bad
    requires forall i :: from <= i < to ==> p(t[i])
    ensures to - from <= |bad|
  {
    hide Count;
    assert t == t[..from] + t[from..to] + t[to..];
    CountAll(t[from..to], p);
    CountConcat(t[..from], t[from..to], p);
    CountConcat(t[..from] + t[from..to], t[to..], p);
    CountPermuted(s, t, p);
    CountAtMost(s, p, bad);
  }

  /** What survives the cut lies within the range of the good readings. */
  lemma MiddleWithin(s: seq<nat>, t: seq<nat>, cut: nat, bad: set<nat>, lo: nat, hi: nat)
    requires SortOf(s, t) && 2 * cut < |t| && |bad| <= cut && GoodWithin(s, bad, lo, hi)
    ensures forall i :: cut <= i < |t| - cut ==> lo <= t[i] <= hi
  {
    forall i | cut <= i < |t| - cut
      ensures lo <= t[i] <= hi
    {
      if t[i] < lo {
        FewInBlock(s, t, 0, i + 1, (x: nat) => x < lo, bad);
        assert false;
      }
      if t[i] > hi {
        FewInBlock(s, t, i, |t|, (x: nat) => x > hi, bad);
        assert false;
      }
    }
  }

  lemma QuotientWithin(x: nat, m: nat, lo: nat, hi: nat)
    requires m > 0 && m * lo <= x <= m * hi
    ensures lo <= x / m <= hi
  {
    var q, r := x / m, x % m;
    assert x == m * q + r;
    assert m * lo - m * q == (lo - q) * m && m * q - m * hi == (q - hi) * m;
    MultipleIsFar(lo - q, m);
    MultipleIsFar(q - hi, m);
  }

  /** MAIN: up to `cut` wrong readings leave the mean within the range of the others, when that range fits the sum. */
  lemma MeanRobust(s: seq<nat>, t: seq<nat>, cut: nat, bad: set<nat>, lo: nat, hi: nat)
    requires SortOf(s, t) && 2 * cut < |t| && |bad| <= cut && GoodWithin(s, bad, lo, hi)
    requires (|t| - 2 * cut) * hi < TWO16
    ensures Sum(t, cut, |t| - cut) < TWO16
    ensures lo <= Mean(t, cut) <= hi
  {
    MiddleWithin(s, t, cut, bad, lo, hi);
    SumWithin(t, cut, |t| - 2 * cut, lo, hi);
    QuotientWithin(Sum(t, cut, |t| - cut), |t| - 2 * cut, lo, hi);
  }

  /** `k` wrong readings among `n` never move the mean outside any range of the others ending at `hi`. */
  ghost predicate Tolerates(n: nat, cut: nat, k: nat, hi: nat)
    requires 2 * cut < n
  {
    forall s: seq<nat>, t: seq<nat>, bad: set<nat>, lo: nat ::
      |t| == n && SortOf(s, t) && |bad| <= k && GoodWithin(s, bad, lo, hi) ==> lo <= Mean(t, cut) <= hi
  }

  lemma ConstantReadings(n: nat, cut: nat, hi: nat)
    requires 2 * cut < n
    ensures var t := seq(n, (i: nat) => hi);
      SortOf(t, t) && GoodWithin(t, {}, hi, hi) && Mean(t, cut) == U16((n - 2 * cut) * hi) / (n - 2 * cut)
  {
    var t := seq(n, (i: nat) => hi);
    SumWithin(t, cut, n - 2 * cut, hi, hi);
  }

  lemma WrappedQuotient(m: nat, hi: nat)
    requires m > 0 && m * hi >= TWO16
    ensures U16(m * hi) / m < hi
  {
    var x := U16(m * hi);
    var q := x / m;
    assert x == m * q + x % m;
    assert m * q - m * hi == (q - hi) * m;
    if q == hi {
      assert false;
    }
    MultipleIsFar(q - hi, m);
  }

  /** MAIN: for `k` at most the cut, the tolerated range is exactly the one whose sum fits in 16 bits. */
  lemma ToleratesIff(n: nat, cut: nat, k: nat, hi: nat)
    requires 2 * cut < n && k <= cut
    ensures Tolerates(n, cut, k, hi) <==> (n - 2 * cut) * hi < TWO16
  {
    hide Mean, SortOf, GoodWithin;
    if (n - 2 * cut) * hi < TWO16 {
      forall s: seq<nat>, t: seq<nat>, bad: set<nat>, lo: nat
        | |t| == n && SortOf(s, t) && |bad| <= k && GoodWithin(s, bad, lo, hi)
        ensures lo <= Mean(t, cut) <= hi
      {
        MeanRobust(s, t, cut, bad, lo, hi);
      }
    } else {
      ConstantReadings(n, cut, hi);
      WrappedQuotient(n - 2 * cut, hi);
      var none: set<nat> := {};
      var t := seq(n, (i: nat) => hi);
      assert SortOf(t, t) && |none| <= k && GoodWithin(t, none, hi, hi);
      assert !(hi <= Mean(t, cut));
    }
  }

  /** The positions from `a` up to `b`. */
  ghost function Positions(a: nat, b: nat): (r: set<nat>)
    ensures forall i: nat :: i in r <==> a <= i < b
    ensures |r| == if a <= b then b - a else 0
  {
    if a < b then Positions(a, b - 1) + {b - 1} else {}
  }

  /** Zeros, but for the last cut + 1 readings. */
  ghost function LateHigh(n: nat, cut: nat): seq<nat>
    requires 2 * cut < n
  {
    seq(n, (i: nat) => if i < n - cut - 1 then 0 else n - 2 * cut as nat)
  }

  lemma LateHighMean(n: nat, cut: nat)
    requires 2 * cut < n && n - 2 * cut < TWO8
    ensures Mean(LateHigh(n, cut), cut) == 1
  {
    var t, m := LateHigh(n, cut), n - 2 * cut;
    SumWithin(t, cut, m - 1, 0, 0);
    assert Sum(t, cut, n - cut) == m;
    QuotientWithin(m, m, 1, 1);
  }

  /** One wrong reading more than the cut can move the mean. */
  lemma CutIsTight(n: nat, cut: nat)
    requires 2 * cut < n && n - 2 * cut < TWO8
    ensures !Tolerates(n, cut, cut + 1, 0)
  {
    var t := LateHigh(n, cut);
    var bad := Positions(n - cut - 1, n);
    assert SortOf(t, t) && GoodWithin(t, bad, 0, 0);
    hide Mean, SortOf, GoodWithin, LateHigh, Positions;
    LateHighMean(n, cut);
    assert |t| == n && |bad| <= cut + 1 && !(Mean(t, cut) <= 0);
  }

  // ---------- the sort, in place ----------

  lemma SwapKeepsBag(s: seq<nat>, j: nat)
    requires 0 < j < |s|
    ensures multiset(s[j := s[j - 1]][j - 1 := s[j]]) == multiset(s)
  {
  }

  /** In order except that the element at `j` may still be too small. */
  ghost predicate SortedBut(s: seq<nat>, j: nat) {
    forall p, q :: 0 <= p < q < |s| && q != j ==> s[p] <= s[q]
  }

  lemma StartSift(s: seq<nat>)
    requires s != [] && Sorted(s[..|s| - 1])
    ensures SortedBut(s, |s| - 1)
  {
    var init := s[..|s| - 1];
    assert forall k :: 0 <= k < |s| - 1 ==> init[k] == s[k];
  }

  lemma SiftStep(s: seq<nat>, t: seq<nat>, j: nat)
    requires |t| == |s| && 0 < j < |s| && SortedBut(s, j)
    requires t[j - 1] == Min(s[j - 1], s[j]) && t[j] == Max(s[j - 1], s[j])
    requires forall k :: 0 <= k < |s| && k != j && k != j - 1 ==> t[k] == s[k]
    ensures SortedBut(t, j - 1)
  {
  }

  lemma EndSift(s: seq<nat>)
    requires SortedBut(s, 0)
    ensures Sorted(s)
  {
  }

  /** Exchange a pair in the wrong order. */
  method OrderPair(a: array<nat>, j: nat)
    requires 0 < j < a.Length
    modifies a
    ensures multiset(a[..]) == multiset(old(a[..]))
    ensures a[j - 1] == Min(old(a[j - 1]), old(a[j])) && a[j] == Max(old(a[j - 1]), old(a[j]))
    ensures forall k :: 0 <= k < a.Length && k != j && k != j - 1 ==> a[k] == old(a[k])
  {
    if a[j] < a[j - 1] {
      ghost var was := a[..];
      var least := a[j];
      a[j] := a[j - 1];
      a[j - 1] := least;
      SwapKeepsBag(was, j);
      assert a[..] == was[j := was[j - 1]][j - 1 := was[j]];
    }
  }

  /** Carry element `i` down into the sorted prefix before it. */
  method SiftDown(a: array<nat>, i: nat)
    requires 0 < i < a.Length && Sorted(a[..i])
    modifies a
    ensures Sorted(a[..i + 1])
    ensures multiset(a[..]) == multiset(old(a[..]))
  {
    hide Sorted, SortedBut;
    assert a[..i + 1][..i] == a[..i];
    StartSift(a[..i + 1]);
    var j := i;
    while j > 0
      invariant 0 <= j <= i
      invariant SortedBut(a[..i + 1], j)
      invariant multiset(a[..]) == multiset(old(a[..]))
    {
      ghost var was := a[..i + 1];
      OrderPair(a, j);
      SiftStep(was, a[..i + 1], j);
      j := j - 1;
    }
    EndSift(a[..i + 1]);
  }

  /** The insertion sort both detectors use. */
  method SortReadings(a: array<nat>)
    modifies a
    ensures SortOf(old(a[..]), a[..])
  {
    var i := 1;
    while i < a.Length
      invariant 1 <= i
      invariant i <= a.Length ==> Sorted(a[..i])
      invariant i > a.Length ==> Sorted(a[..])
      invariant multiset(a[..]) == multiset(old(a[..]))
    {
      SiftDown(a, i);
      i := i + 1;
    }
    assert a[..] == a[..a.Length];
  }

  lemma AddWraps(x: nat, y: nat)
    ensures U16(y + U16(x)) == U16(x + y)
  {
  }

  /** The sum of the readings kept, and their mean. */
  method MeanOfKept(a: array<nat>, cut: nat) returns (mean: nat)
    requires 2 * cut < a.Length
    ensures mean == Mean(a[..], cut)
  {
    assert U16(0) == 0;
    hide U16;
    ghost var t := a[..];
    var sum := 0;
    var k := cut;
    while k < a.Length - cut
      invariant cut <= k <= a.Length - cut
      invariant sum == U16(Sum(t, cut, k))
    {
      AddWraps(Sum(t, cut, k), a[k]);
      sum := U16(a[k] + sum);
      k := k + 1;
    }
    mean := sum / (a.Length - 2 * cut);
  }
}
