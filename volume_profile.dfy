/**
 * The volume-profile strategy: the candles' volume shared out over 100 equal price buckets,
 * the point of control (the fullest bucket), the value area (the fullest buckets holding 70%
 * of the volume), volume-node patterns, and a buy below the point of control or a sell above
 * the value area.
 */
module VolumeProfileStrategy {
  import opened Wrappers
  import opened Floats
  import opened Models
  import opened Patterns
  import opened StrategyBase

  const MinCandles: int := 50

  /** Number of price buckets. */
  const PriceLevels: nat := 100

  /** The share of the volume the value area must hold. */
  const ValueAreaShare: real := 0.7

  const ConfidenceThreshold: real := 0.7

  // ---- buckets ----

  /**
   * `price_levels[j]`: the lower edge of bucket `j` (and the upper edge of bucket `j - 1`),
   * `j` bucket widths above the lowest low.
   */
  function Edge(lo: real, delta: real, j: nat): real
  {
    if j == 0 then lo else Edge(lo, delta, j - 1) + delta
  }

  /** `price_min + j * price_delta` */
  lemma {:induction false} EdgeClosedForm(lo: real, delta: real, j: nat)
    ensures Edge(lo, delta, j) == lo + j as real * delta
  {
    if j > 0 {
      EdgeClosedForm(lo, delta, j - 1);
    }
  }

  /** Edges rise with the bucket index. */
  lemma {:induction false} EdgeMonotone(lo: real, delta: real, i: nat, j: nat)
    requires delta >= 0.0 && i <= j
    ensures Edge(lo, delta, i) <= Edge(lo, delta, j)
  {
    if i < j {
      EdgeMonotone(lo, delta, i, j - 1);
    }
  }

  /** The middle of bucket `j`, where the point of control and the value area are placed. */
  function BucketMid(lo: real, delta: real, j: nat): real
  {
    Edge(lo, delta, j) + delta / 2.0
  }

  /** `x` clamped into `[l, h]`. */
  function Clamp(x: real, l: real, h: real): (c: real)
    requires l <= h
    ensures l <= c <= h
  {
    MaxReal(l, MinReal(h, x))
  }

  /**
   * What one candle adds to bucket `j`: nothing for a candle without range or one that misses
   * the bucket; otherwise its volume times the fraction of its range inside the bucket.
   */
  function Share(r: Row, lo: real, delta: real, j: nat): real
  {
    if r.high - r.low <= 0.0 then 0.0 else r.volume * (Overlap(r, lo, delta, j) / (r.high - r.low))
  }

  /** The length of a candle's range inside bucket `j`; nothing when they do not meet. */
  function Overlap(r: Row, lo: real, delta: real, j: nat): real
  {
    if r.low <= Edge(lo, delta, j + 1) && r.high >= Edge(lo, delta, j) then
      MinReal(r.high, Edge(lo, delta, j + 1)) - MaxReal(r.low, Edge(lo, delta, j))
    else 0.0
  }

  /** A candle that meets a bucket overlaps it by a non-negative length. */
  lemma OverlapNonNegative(r: Row, lo: real, delta: real, j: nat)
    requires delta >= 0.0 && r.high > r.low
    ensures Overlap(r, lo, delta, j) >= 0.0
  {
    assert Edge(lo, delta, j) <= Edge(lo, delta, j + 1);
  }

  /** The volume of bucket `j` after all candles of `f`. */
  function Bucket(f: Frame, lo: real, delta: real, j: nat): real
  {
    if |f| == 0 then 0.0 else Bucket(f[..|f| - 1], lo, delta, j) + Share(f[|f| - 1], lo, delta, j)
  }

  /** The overlap with a bucket is the growth of the clamped range across the bucket. */
  lemma OverlapClamped(r: Row, lo: real, delta: real, j: nat)
    requires delta >= 0.0 && r.high > r.low
    ensures Overlap(r, lo, delta, j) ==
      Clamp(Edge(lo, delta, j + 1), r.low, r.high) - Clamp(Edge(lo, delta, j), r.low, r.high)
  {
    var e0, e1 := Edge(lo, delta, j), Edge(lo, delta, j + 1);
    assert e0 <= e1;
    if r.low <= e1 && r.high >= e0 {
      assert Clamp(e1, r.low, r.high) == MinReal(r.high, e1);
      assert Clamp(e0, r.low, r.high) == MaxReal(r.low, e0);
    } else {
      assert Clamp(e1, r.low, r.high) == Clamp(e0, r.low, r.high);
    }
  }

  /** `g(0) + ... + g(n - 1)` */
  function SumTo(g: nat -> real, n: nat): real
  {
    if n == 0 then 0.0 else SumTo(g, n - 1) + g(n - 1)
  }

  /** A sum of terms scaled by one factor is the scaled sum. */
  lemma {:induction false} SumToScaled(c: real, g: nat -> real, h: nat -> real, n: nat)
    requires forall j :: 0 <= j < n ==> h(j) == c * g(j)
    ensures SumTo(h, n) == c * SumTo(g, n)
  {
    if n > 0 {
      SumToScaled(c, g, h, n - 1);
      assert c * SumTo(g, n) == c * SumTo(g, n - 1) + c * g(n - 1);
    }
  }

  /** Bucket `j` to its overlap with candle `r`. */
  function OverlapOf(r: Row, lo: real, delta: real): nat -> real
  {
    (j: nat) => Overlap(r, lo, delta, j)
  }

  /** Bucket `j` to the share candle `r` gives it. */
  function ShareOf(r: Row, lo: real, delta: real): nat -> real
  {
    (j: nat) => Share(r, lo, delta, j)
  }

  /** The overlaps with buckets `0` to `n - 1`. */
  function Overlaps(r: Row, lo: real, delta: real, n: nat): real
  {
    SumTo(OverlapOf(r, lo, delta), n)
  }

  /** The overlaps telescope to the part of the range below edge `n`. */
  lemma {:induction false} OverlapsTelescope(r: Row, lo: real, delta: real, n: nat)
    requires delta >= 0.0 && r.high > r.low
    ensures Overlaps(r, lo, delta, n) ==
      Clamp(Edge(lo, delta, n), r.low, r.high) - Clamp(Edge(lo, delta, 0), r.low, r.high)
  {
    if n > 0 {
      OverlapsTelescope(r, lo, delta, n - 1);
      OverlapClamped(r, lo, delta, n - 1);
    }
  }

  /** The shares one candle gives to buckets `0` to `n - 1`. */
  function RowShares(r: Row, lo: real, delta: real, n: nat): real
  {
    SumTo(ShareOf(r, lo, delta), n)
  }

  /** A portion of a non-negative volume is non-negative. */
  lemma PortionNonNegative(v: real, x: real, d: real)
    requires v >= 0.0 && x >= 0.0 && d > 0.0
    ensures v * (x / d) >= 0.0
  {
    assert x / d >= 0.0;
  }

  /** The volume per unit of price of a candle's range. */
  function Rate(r: Row): real
    requires r.high > r.low
  {
    r.volume / (r.high - r.low)
  }

  /** A candle with a range gives a bucket its rate times the length of the range inside it. */
  lemma ShareAtRate(r: Row, lo: real, delta: real, j: nat)
    requires r.high > r.low
    ensures ShareOf(r, lo, delta)(j) == Rate(r) * OverlapOf(r, lo, delta)(j)
  {
    var d, x := r.high - r.low, Overlap(r, lo, delta, j);
    assert r.volume * (x / d) == (r.volume / d) * x;
  }

  /** Buckets `0` to `n - 1` each get the candle's rate times their overlap. */
  lemma SharesAtRate(r: Row, lo: real, delta: real, n: nat)
    requires r.high > r.low
    ensures forall j :: 0 <= j < n ==> ShareOf(r, lo, delta)(j) == Rate(r) * OverlapOf(r, lo, delta)(j)
  {
    forall j: nat | j < n
      ensures ShareOf(r, lo, delta)(j) == Rate(r) * OverlapOf(r, lo, delta)(j)
    {
      ShareAtRate(r, lo, delta, j);
    }
  }

  /** Terms at rate `v / d` over lengths that add up to `d` add up to `v`. */
  lemma WholeAtRate(v: real, d: real, c: real, g: nat -> real, h: nat -> real, n: nat)
    requires d > 0.0 && c == v / d && SumTo(g, n) == d
    requires forall j :: 0 <= j < n ==> h(j) == c * g(j)
    ensures SumTo(h, n) == v
  {
    SumToScaled(c, g, h, n);
  }

  /** A candle without range gives nothing to any bucket. */
  lemma {:induction false} RowSharesFlat(r: Row, lo: real, delta: real, n: nat)
    requires r.high <= r.low
    ensures RowShares(r, lo, delta, n) == 0.0
  {
    if n > 0 {
      RowSharesFlat(r, lo, delta, n - 1);
    }
  }

  /** A candle inside the bucketed range is covered by the buckets exactly once. */
  lemma OverlapsWhole(r: Row, lo: real, hi: real, delta: real)
    requires delta >= 0.0 && delta * PriceLevels as real == hi - lo
    requires lo <= r.low < r.high <= hi
    ensures Overlaps(r, lo, delta, PriceLevels) == r.high - r.low
  {
    OverlapsTelescope(r, lo, delta, PriceLevels);
    EdgeClosedForm(lo, delta, PriceLevels);
    assert Edge(lo, delta, PriceLevels) == hi;
  }

  /** Buckets that cover a candle's range exactly once get exactly its volume. */
  lemma RowSharesCovering(r: Row, lo: real, delta: real, n: nat)
    requires r.high > r.low && Overlaps(r, lo, delta, n) == r.high - r.low
    ensures RowShares(r, lo, delta, n) == r.volume
  {
    SharesAtRate(r, lo, delta, n);
    WholeAtRate(r.volume, r.high - r.low, Rate(r), OverlapOf(r, lo, delta), ShareOf(r, lo, delta), n);
  }

  /** A candle inside the bucketed range gives exactly its volume to the buckets. */
  lemma RowSharesWhole(r: Row, lo: real, hi: real, delta: real)
    requires delta >= 0.0 && delta * PriceLevels as real == hi - lo
    requires lo <= r.low < r.high <= hi
    ensures RowShares(r, lo, delta, PriceLevels) == r.volume
  {
    OverlapsWhole(r, lo, hi, delta);
    RowSharesCovering(r, lo, delta, PriceLevels);
  }

  /** The volume in buckets `0` to `n - 1`. */
  function ProfileSum(f: Frame, lo: real, delta: real, n: nat): real
  {
    if n == 0 then 0.0 else ProfileSum(f, lo, delta, n - 1) + Bucket(f, lo, delta, n - 1)
  }

  /** Adding a candle adds its shares to the buckets. */
  lemma {:induction false} ProfileSumAppend(f: Frame, r: Row, lo: real, delta: real, n: nat)
    ensures ProfileSum(f + [r], lo, delta, n) == ProfileSum(f, lo, delta, n) + RowShares(r, lo, delta, n)
  {
    if n > 0 {
      ProfileSumAppend(f, r, lo, delta, n - 1);
      assert (f + [r])[..|f|] == f;
      assert Bucket(f + [r], lo, delta, n - 1) == Bucket(f, lo, delta, n - 1) + Share(r, lo, delta, n - 1);
    }
  }

  /** The volume of the candles that have a range; the others are skipped. */
  function RangedVolume(f: Frame): real
  {
    if |f| == 0 then 0.0
    else RangedVolume(f[..|f| - 1]) + (if f[|f| - 1].high - f[|f| - 1].low > 0.0 then f[|f| - 1].volume else 0.0)
  }

  /** Every candle lies between `lo` and `hi`. */
  predicate Within(f: Frame, lo: real, hi: real)
  {
    forall k :: 0 <= k < |f| ==> lo <= f[k].low && f[k].high <= hi
  }

  /** An empty frame leaves every bucket empty. */
  lemma {:induction false} ProfileSumEmpty(lo: real, delta: real, n: nat)
    ensures ProfileSum([], lo, delta, n) == 0.0
  {
    if n > 0 {
      ProfileSumEmpty(lo, delta, n - 1);
    }
  }

  /** No volume is lost or created: the buckets hold exactly the volume of the candles with a range. */
  lemma {:induction false} ProfileConserves(f: Frame, lo: real, hi: real, delta: real)
    requires delta >= 0.0 && delta * PriceLevels as real == hi - lo
    requires Within(f, lo, hi)
    ensures ProfileSum(f, lo, delta, PriceLevels) == RangedVolume(f)
  {
    if |f| > 0 {
      var g, r := f[..|f| - 1], f[|f| - 1];
      assert f == g + [r];
      assert Within(g, lo, hi);
      assert lo <= r.low && r.high <= hi;
      assert RangedVolume(f) == RangedVolume(g) + (if r.high - r.low > 0.0 then r.volume else 0.0);
      ProfileConserves(g, lo, hi, delta);
      ProfileSumAppend(g, r, lo, delta, PriceLevels);
      if r.high - r.low > 0.0 {
        RowSharesWhole(r, lo, hi, delta);
      } else {
        RowSharesFlat(r, lo, delta, PriceLevels);
      }
    } else {
      ProfileSumEmpty(lo, delta, PriceLevels);
    }
  }

  /** With no negative volume no bucket is negative. */
  lemma {:induction false} BucketNonNegative(f: Frame, lo: real, delta: real, j: nat)
    requires delta >= 0.0 && forall k :: 0 <= k < |f| ==> f[k].volume >= 0.0
    ensures Bucket(f, lo, delta, j) >= 0.0
  {
    if |f| > 0 {
      var g, r := f[..|f| - 1], f[|f| - 1];
      assert forall k :: 0 <= k < |g| ==> g[k] == f[k];
      BucketNonNegative(g, lo, delta, j);
      assert Share(r, lo, delta, j) >= 0.0 by {
        if r.high - r.low > 0.0 {
          OverlapNonNegative(r, lo, delta, j);
          PortionNonNegative(r.volume, Overlap(r, lo, delta, j), r.high - r.low);
        }
      }
      assert Bucket(f, lo, delta, j) == Bucket(g, lo, delta, j) + Share(r, lo, delta, j);
    }
  }

  /** The inner loop: a candle with a range shares its volume out over the buckets it overlaps. */
  method AddShares(profile: array<real>, row: Row, lo: real, delta: real)
    requires profile.Length == PriceLevels && row.high - row.low > 0.0
    modifies profile
    ensures forall j :: 0 <= j < PriceLevels ==> profile[j] == old(profile[j]) + Share(row, lo, delta, j)
  {
    var range := row.high - row.low;
    var j := 0;
    while j < PriceLevels
      invariant 0 <= j <= PriceLevels
      invariant forall k :: 0 <= k < j ==> profile[k] == old(profile[k]) + Share(row, lo, delta, k)
      invariant forall k :: j <= k < PriceLevels ==> profile[k] == old(profile[k])
    {
      var levelLow, levelHigh := Edge(lo, delta, j), Edge(lo, delta, j + 1);
      if row.low <= levelHigh && row.high >= levelLow {
        var overlap := MinReal(row.high, levelHigh) - MaxReal(row.low, levelLow);
        profile[j] := profile[j] + row.volume * (overlap / range);
      }
      j := j + 1;
    }
  }

  /** The outer loop: candles without a range are skipped, the others added one by one. */
  method Distribute(f: Frame, lo: real, delta: real) returns (profile: array<real>)
    ensures fresh(profile) && profile.Length == PriceLevels
    ensures forall j :: 0 <= j < PriceLevels ==> profile[j] == Bucket(f, lo, delta, j)
  {
    profile := new real[PriceLevels](_ => 0.0);
    var i := 0;
    while i < |f|
      invariant 0 <= i <= |f| && profile.Length == PriceLevels
      invariant forall j :: 0 <= j < PriceLevels ==> profile[j] == Bucket(f[..i], lo, delta, j)
    {
      assert f[..i + 1][..i] == f[..i];
      if f[i].high - f[i].low > 0.0 {
        AddShares(profile, f[i], lo, delta);
      }
      i := i + 1;
    }
    assert f[..|f|] == f;
  }

  // ---- sums over buckets ----

  /** `profile.sum()` */
  function Sum(s: seq<real>): real
  {
    if |s| == 0 then 0.0 else Sum(s[..|s| - 1]) + s[|s| - 1]
  }

  /** The profile's sum is the volume of its buckets. */
  lemma {:induction false} SumIsProfileSum(s: seq<real>, f: Frame, lo: real, delta: real)
    requires forall j :: 0 <= j < |s| ==> s[j] == Bucket(f, lo, delta, j)
    ensures Sum(s) == ProfileSum(f, lo, delta, |s|)
  {
    if |s| > 0 {
      SumIsProfileSum(s[..|s| - 1], f, lo, delta);
    }
  }

  /** The volume of the buckets listed in `idxs`. */
  function SumOver(s: seq<real>, idxs: seq<int>): real
    requires forall k :: 0 <= k < |idxs| ==> 0 <= idxs[k] < |s|
  {
    if |idxs| == 0 then 0.0 else SumOver(s, idxs[..|idxs| - 1]) + s[idxs[|idxs| - 1]]
  }

  lemma {:induction false} SumOverCons(s: seq<real>, x: int, t: seq<int>)
    requires 0 <= x < |s| && forall k :: 0 <= k < |t| ==> 0 <= t[k] < |s|
    ensures SumOver(s, [x] + t) == s[x] + SumOver(s, t)
  {
    if |t| > 0 {
      assert ([x] + t)[..|t|] == [x] + t[..|t| - 1];
      SumOverCons(s, x, t[..|t| - 1]);
    }
  }

  /** The indices `0` to `n - 1`, in order. */
  function Indices(n: nat): (r: seq<int>)
    ensures |r| == n && forall k :: 0 <= k < n ==> r[k] == k
  {
    seq(n, k requires 0 <= k < n => k)
  }

  lemma {:induction false} SumOverIndices(s: seq<real>, n: nat)
    requires n <= |s|
    ensures SumOver(s, Indices(n)) == Sum(s[..n])
  {
    if n > 0 {
      assert Indices(n)[..n - 1] == Indices(n - 1);
      assert s[..n][..n - 1] == s[..n - 1];
      SumOverIndices(s, n - 1);
    }
  }

  // ---- `profile.sort_values(ascending=False).index` ----

  /** Indices of `s`, listed from the fullest bucket to the emptiest. */
  predicate DescendingBy(s: seq<real>, order: seq<int>)
  {
    && (forall k :: 0 <= k < |order| ==> 0 <= order[k] < |s|)
    && (forall a, b :: 0 <= a < b < |order| ==> s[order[a]] >= s[order[b]])
  }

  /** Insert index `x` before the first index holding less. */
  function InsertDescending(s: seq<real>, x: int, order: seq<int>): (r: seq<int>)
    requires 0 <= x < |s| && DescendingBy(s, order)
    ensures DescendingBy(s, r)
    ensures multiset(r) == multiset(order) + multiset{x}
    ensures SumOver(s, r) == s[x] + SumOver(s, order)
    ensures |r| > 0 && (r[0] == x || (|order| > 0 && r[0] == order[0]))
  {
    if |order| == 0 || s[x] >= s[order[0]] then
      SumOverCons(s, x, order);
      [x] + order
    else
      var t := InsertDescending(s, x, order[1..]);
      InsertDescendingStep(s, x, order, t);
      [order[0]] + t
  }

  /** The head of a descending order holds at least as much as anything inserted behind it. */
  lemma HeadAboveInserted(s: seq<real>, x: int, order: seq<int>, t: seq<int>)
    requires 0 <= x < |s| && DescendingBy(s, order) && |order| > 0 && s[x] < s[order[0]]
    requires multiset(t) == multiset(order[1..]) + multiset{x}
    requires forall k :: 0 <= k < |t| ==> 0 <= t[k] < |s|
    ensures forall k :: 0 <= k < |t| ==> s[order[0]] >= s[t[k]]
  {
    forall k | 0 <= k < |t| ensures s[order[0]] >= s[t[k]] {
      assert t[k] in multiset(t);
      if t[k] != x {
        assert t[k] in multiset(order[1..]);
        var m :| 0 <= m < |order[1..]| && order[1..][m] == t[k];
        assert order[m + 1] == t[k];
      }
    }
  }

  /** Putting the fuller head in front of the insertion into the tail keeps the order descending. */
  lemma InsertDescendingStep(s: seq<real>, x: int, order: seq<int>, t: seq<int>)
    requires 0 <= x < |s| && DescendingBy(s, order) && |order| > 0 && s[x] < s[order[0]]
    requires DescendingBy(s, t) && multiset(t) == multiset(order[1..]) + multiset{x}
    requires SumOver(s, t) == s[x] + SumOver(s, order[1..])
    ensures DescendingBy(s, [order[0]] + t)
    ensures multiset([order[0]] + t) == multiset(order) + multiset{x}
    ensures SumOver(s, [order[0]] + t) == s[x] + SumOver(s, order)
  {
    assert multiset([order[0]] + t) == multiset(order) + multiset{x} by {
      assert order == [order[0]] + order[1..];
    }
    InsertedSum(s, x, order, t);
    InsertedDescends(s, x, order, t);
  }

  /** The head in front of the insertion adds its volume to the insertion's total. */
  lemma InsertedSum(s: seq<real>, x: int, order: seq<int>, t: seq<int>)
    requires 0 <= x < |s| && DescendingBy(s, order) && |order| > 0 && DescendingBy(s, t)
    requires SumOver(s, t) == s[x] + SumOver(s, order[1..])
    ensures SumOver(s, [order[0]] + t) == s[x] + SumOver(s, order)
  {
    var h, rest := order[0], order[1..];
    assert order == [h] + rest;
    SumOverCons(s, h, t);
    SumOverCons(s, h, rest);
    calc {
      SumOver(s, [h] + t);
      s[h] + SumOver(s, t);
      s[h] + (s[x] + SumOver(s, rest));
      s[x] + SumOver(s, [h] + rest);
    }
  }

  /** The head in front of the insertion keeps the whole descending. */
  lemma InsertedDescends(s: seq<real>, x: int, order: seq<int>, t: seq<int>)
    requires 0 <= x < |s| && DescendingBy(s, order) && |order| > 0 && s[x] < s[order[0]]
    requires DescendingBy(s, t) && multiset(t) == multiset(order[1..]) + multiset{x}
    ensures DescendingBy(s, [order[0]] + t)
  {
    HeadAboveInserted(s, x, order, t);
    var u := [order[0]] + t;
    forall a, b | 0 <= a < b < |u| ensures s[u[a]] >= s[u[b]] {
      if a > 0 {
        assert u[a] == t[a - 1] && u[b] == t[b - 1];
      } else {
        assert u[b] == t[b - 1];
      }
    }
  }

  /** Sort `idxs` by falling bucket volume. */
  function SortDescending(s: seq<real>, idxs: seq<int>): (r: seq<int>)
    requires forall k :: 0 <= k < |idxs| ==> 0 <= idxs[k] < |s|
    ensures DescendingBy(s, r)
    ensures multiset(r) == multiset(idxs)
    ensures SumOver(s, r) == SumOver(s, idxs)
  {
    if |idxs| == 0 then []
    else
      var t := SortDescending(s, idxs[1..]);
      SumOverCons(s, idxs[0], idxs[1..]);
      assert idxs == [idxs[0]] + idxs[1..];
      InsertDescending(s, idxs[0], t)
  }

  /** The buckets from fullest to emptiest: every bucket exactly once, and the same total. */
  function DescendingOrder(s: seq<real>): (order: seq<int>)
    ensures DescendingBy(s, order) && |order| == |s|
    ensures forall j :: 0 <= j < |s| ==> j in order
    ensures SumOver(s, order) == Sum(s)
  {
    var order := SortDescending(s, Indices(|s|));
    SumOverIndices(s, |s|);
    assert s[..|s|] == s;
    assert |order| == |multiset(order)| == |Indices(|s|)|;
    forall j | 0 <= j < |s| ensures j in order {
      assert Indices(|s|)[j] == j;
      assert j in multiset(Indices(|s|));
    }
    order
  }

  // ---- the value area ----

  /** `max(value_area_idx)` */
  function MaxOf(s: seq<int>): (m: int)
    requires |s| > 0
    ensures m in s && forall k :: 0 <= k < |s| ==> s[k] <= m
  {
    if |s| == 1 then s[0]
    else
      var m' := MaxOf(s[..|s| - 1]);
      assert m' in s[..|s| - 1];
      if s[|s| - 1] > m' then s[|s| - 1] else m'
  }

  /**
   * The number of buckets the value area takes when they are taken in `order`: the length of the
   * shortest prefix, from `k` buckets on, that holds at least `target`, or the whole order.
   */
  function Reach(s: seq<real>, order: seq<int>, target: real, k: nat): (n: nat)
    requires 1 <= k <= |order| && forall i :: 0 <= i < |order| ==> 0 <= order[i] < |s|
    ensures k <= n <= |order|
    ensures SumOver(s, order[..n]) >= target || n == |order|
    ensures forall i :: k <= i < n ==> SumOver(s, order[..i]) < target
    decreases |order| - k
  {
    if SumOver(s, order[..k]) >= target || k == |order| then k
    else Reach(s, order, target, k + 1)
  }

  /** A prefix that reaches `target` and has no shorter prefix reaching it has length `Reach`. */
  lemma {:induction false} ReachUnique(s: seq<real>, order: seq<int>, target: real, k: nat, n: nat)
    requires 1 <= k <= n <= |order| && forall i :: 0 <= i < |order| ==> 0 <= order[i] < |s|
    requires SumOver(s, order[..n]) >= target || n == |order|
    requires forall i :: 1 <= i < n ==> SumOver(s, order[..i]) < target
    ensures Reach(s, order, target, k) == n
    decreases n - k
  {
    if k < n {
      ReachUnique(s, order, target, k + 1, n);
    }
  }

  /**
   * The buckets of the value area: the fullest buckets, taken in descending order for as long
   * as `Reach` says, so that together they hold `target`.
   */
  function ValueAreaBuckets(s: seq<real>, target: real): (selected: seq<int>)
    requires |s| > 0
    ensures 1 <= |selected| <= |s| && selected == DescendingOrder(s)[..|selected|]
  {
    var order := DescendingOrder(s);
    order[..Reach(s, order, target, 1)]
  }

  /**
   * The `cumsum` loop: take buckets in the given order until they hold at least `target`;
   * the taken buckets are the shortest such prefix, or all of them.
   */
  method SelectValueArea(s: seq<real>, order: seq<int>, target: real) returns (selected: seq<int>)
    requires |order| > 0 && forall k :: 0 <= k < |order| ==> 0 <= order[k] < |s|
    ensures 1 <= |selected| <= |order| && selected == order[..|selected|]
    ensures selected == order[..Reach(s, order, target, 1)]
    ensures SumOver(s, selected) >= target || selected == order
    ensures forall k :: 1 <= k < |selected| ==> SumOver(s, order[..k]) < target
    ensures SumOver(s, order) >= target ==> SumOver(s, selected) >= target
  {
    var cumsum := 0.0;
    selected := [];
    var i := 0;
    while i < |order|
      invariant 0 <= i <= |order| && selected == order[..i]
      invariant cumsum == SumOver(s, selected)
      invariant forall k :: 1 <= k <= i ==> SumOver(s, order[..k]) < target
    {
      assert order[..i + 1][..i] == order[..i];
      cumsum := cumsum + s[order[i]];
      selected := selected + [order[i]];
      if cumsum >= target {
        ReachUnique(s, order, target, 1, i + 1);
        return;
      }
      i := i + 1;
    }
    assert order[..|order|] == order;
    ReachUnique(s, order, target, 1, |order|);
  }

  /** A greedy prefix of the descending order reaches at or above the first maximum of the profile. */
  lemma ValueAreaAbovePoc(s: seq<real>, selected: seq<int>)
    requires |s| > 0 && 1 <= |selected| <= |s| && selected == DescendingOrder(s)[..|selected|]
    ensures MaxOf(selected) >= FirstMaxIndex(s)
  {
    var order := DescendingOrder(s);
    var p := FirstMaxIndex(s);
    assert p in order;
    var m :| 0 <= m < |order| && order[m] == p;
    assert s[order[0]] >= s[p];
    assert order[0] >= p;
    assert selected[0] == order[0];
  }

  /**
   * The highest bucket of the value area: it lies in the value area, no bucket of the value
   * area is above it, and it is at or above the point of control.
   */
  function ValueAreaTop(s: seq<real>, target: real): (top: nat)
    requires |s| > 0
    ensures FirstMaxIndex(s) <= top < |s|
    ensures top in ValueAreaBuckets(s, target)
    ensures forall k :: k in ValueAreaBuckets(s, target) ==> k <= top
  {
    var selected := ValueAreaBuckets(s, target);
    ValueAreaAbovePoc(s, selected);
    MaxOf(selected)
  }

  /**
   * The value area's price: the middle of the highest bucket among the fullest buckets that
   * together hold `target` (70% of the profile's volume); never below the point of control.
   */
  method ValueArea(buckets: seq<real>, lo: real, delta: real, target: real) returns (va: real)
    requires |buckets| > 0 && delta >= 0.0
    ensures va == BucketMid(lo, delta, ValueAreaTop(buckets, target))
    ensures va >= BucketMid(lo, delta, FirstMaxIndex(buckets))
  {
    var order := DescendingOrder(buckets);
    var selected := SelectValueArea(buckets, order, target);
    ValueAreaAbovePoc(buckets, selected);
    var top := MaxOf(selected);
    assert 0 <= top < |buckets|;
    EdgeMonotone(lo, delta, FirstMaxIndex(buckets), top);
    va := BucketMid(lo, delta, top);
  }

  // ---- `calculate_volume_profile` ----

  /** The profile, the point of control and the value area. */
  datatype Profile = Profile(buckets: seq<real>, poc: real, valueArea: real)

  /** `calculate_volume_profile`: an empty profile when the frame has no price range. */
  method CalculateVolumeProfile(f: Frame) returns (p: Profile)
    requires |f| > 0
    ensures var lo, hi := MinLow(f), MaxHigh(f);
      lo >= hi ==> p == Profile([], 0.0, 0.0)
    ensures var lo, hi := MinLow(f), MaxHigh(f); var delta := (hi - lo) / PriceLevels as real;
      lo < hi ==>
        && |p.buckets| == PriceLevels
        && (forall j :: 0 <= j < PriceLevels ==> p.buckets[j] == Bucket(f, lo, delta, j))
        && Sum(p.buckets) == RangedVolume(f)
        && p.poc == BucketMid(lo, delta, FirstMaxIndex(p.buckets))
        && p.valueArea >= p.poc
        && (Sum(p.buckets) == 0.0 ==> p.valueArea == p.poc)
        && (Sum(p.buckets) != 0.0 ==>
              p.valueArea == BucketMid(lo, delta, ValueAreaTop(p.buckets, Sum(p.buckets) * ValueAreaShare)))
  {
    var lo, hi := MinLow(f), MaxHigh(f);
    if lo >= hi {
      return Profile([], 0.0, 0.0);
    }
    var delta := (hi - lo) / PriceLevels as real;
    var buckets := Buckets(f, lo, hi, delta);
    var poc, va := PocAndValueArea(buckets, lo, delta);
    return Profile(buckets, poc, va);
  }

  /** The distributed profile of a frame whose rows lie in `[lo, hi]`: it holds the ranged volume. */
  method Buckets(f: Frame, lo: real, hi: real, delta: real) returns (buckets: seq<real>)
    requires |f| > 0 && lo == MinLow(f) && hi == MaxHigh(f) && lo < hi && delta == (hi - lo) / PriceLevels as real
    ensures |buckets| == PriceLevels
    ensures forall j :: 0 <= j < PriceLevels ==> buckets[j] == Bucket(f, lo, delta, j)
    ensures Sum(buckets) == RangedVolume(f)
  {
    assert Within(f, lo, hi);
    var profile := Distribute(f, lo, delta);
    buckets := profile[..];
    SumIsProfileSum(buckets, f, lo, delta);
    ProfileConserves(f, lo, hi, delta);
  }

  /**
   * The point of control and the value area of a profile: the middle of the first fullest
   * bucket, and the value area, which is the point of control itself when the profile is empty.
   */
  method PocAndValueArea(buckets: seq<real>, lo: real, delta: real) returns (poc: real, va: real)
    requires |buckets| > 0 && delta >= 0.0
    ensures poc == BucketMid(lo, delta, FirstMaxIndex(buckets))
    ensures Sum(buckets) == 0.0 ==> va == poc
    ensures Sum(buckets) != 0.0 ==> va == BucketMid(lo, delta, ValueAreaTop(buckets, Sum(buckets) * ValueAreaShare))
    ensures va >= poc
  {
    poc := BucketMid(lo, delta, FirstMaxIndex(buckets));
    if Sum(buckets) == 0.0 {
      va := poc;
    } else {
      va := ValueArea(buckets, lo, delta, Sum(buckets) * ValueAreaShare);
    }
  }

  // ---- `detect_volume_patterns` ----

  /**
   * The inputs of the volume-node tests: the last close, the lowest low and bucket width, the
   * 80% and 20% quantiles of the profile, the last ten closes and the highest of the last five highs.
   */
  datatype NodeInputs = NodeInputs(
    current: real, lo: real, delta: real, highQuantile: real, lowQuantile: real,
    frameLength: int, recentCloses: seq<real>, recentHigh: real)

  /** A high-volume node: a bucket above the 80% quantile. */
  predicate IsHvn(buckets: seq<real>, n: NodeInputs, j: nat)
  {
    0 <= j < |buckets| && buckets[j] > n.highQuantile
  }

  /** A low-volume node: a bucket below the 20% quantile. */
  predicate IsLvn(buckets: seq<real>, n: NodeInputs, j: nat)
  {
    0 <= j < |buckets| && buckets[j] < n.lowQuantile
  }

  /** The price is within one bucket width of the lower edge of bucket `j`. */
  predicate Near(x: real, n: NodeInputs, j: nat)
  {
    AbsReal(x - Edge(n.lo, n.delta, j)) < n.delta
  }

  predicate AtHvnTest(buckets: seq<real>, n: NodeInputs)
  {
    exists j: nat :: j < |buckets| && IsHvn(buckets, n, j) && Near(n.current, n, j)
  }

  predicate InLvnTest(buckets: seq<real>, n: NodeInputs)
  {
    exists j: nat :: j < |buckets| && IsLvn(buckets, n, j) && Near(n.current, n, j)
  }

  /** Each of the recent closes is near the lower edge of bucket `j`. */
  predicate AllNear(closes: seq<real>, n: NodeInputs, j: nat)
  {
    forall k :: 0 <= k < |closes| ==> Near(closes[k], n, j)
  }

  predicate AcceptanceTest(buckets: seq<real>, n: NodeInputs)
  {
    n.frameLength >= 10 && (exists j: nat :: j < |buckets| && IsHvn(buckets, n, j) && AllNear(n.recentCloses, n, j))
  }

  predicate RejectionTest(buckets: seq<real>, n: NodeInputs)
  {
    n.frameLength >= 5 && (exists j: nat ::
      j < |buckets| && IsHvn(buckets, n, j) && Near(n.recentHigh, n, j) && n.current < Edge(n.lo, n.delta, j) - n.delta)
  }

  /** `detect_volume_patterns`: each search loop stops at the first node that passes its test. */
  function DetectVolumePatterns(buckets: seq<real>, n: NodeInputs): (p: PatternMap)
    ensures p.Keys <= {AtHvn, InLvn, PriceAcceptance, PriceRejection}
    ensures AtHvn in p <==> AtHvnTest(buckets, n)
    ensures InLvn in p <==> InLvnTest(buckets, n)
    ensures PriceAcceptance in p <==> AcceptanceTest(buckets, n)
    ensures PriceRejection in p <==> RejectionTest(buckets, n)
    ensures NonNegative(p)
  {
    var p1: PatternMap := if AtHvnTest(buckets, n) then map[AtHvn := 0.8] else map[];
    var p2 := if InLvnTest(buckets, n) then p1[InLvn := 0.7] else p1;
    var p3 := if AcceptanceTest(buckets, n) then p2[PriceAcceptance := 0.9] else p2;
    if RejectionTest(buckets, n) then p3[PriceRejection := 0.8] else p3
  }

  /** Acceptance is at a high-volume node, so it comes with the at-node pattern whenever the last close is among the recent ones. */
  lemma AcceptanceImpliesAtHvn(buckets: seq<real>, n: NodeInputs)
    requires AcceptanceTest(buckets, n)
    requires |n.recentCloses| > 0 && n.recentCloses[|n.recentCloses| - 1] == n.current
    ensures AtHvn in DetectVolumePatterns(buckets, n)
  {
    var j: nat :| j < |buckets| && IsHvn(buckets, n, j) && AllNear(n.recentCloses, n, j);
    assert Near(n.recentCloses[|n.recentCloses| - 1], n, j);
  }

  // ---- `calculate_indicator` and `analyze_market` ----

  /** What `calculate_indicator` returns. */
  datatype ProfileData = ProfileData(currentPrice: real, poc: real, valueArea: real, buckets: seq<real>)

  /** `calculate_indicator`: `None` when the profile is empty. */
  method CalculateIndicator(f: Frame) returns (r: Option<ProfileData>)
    requires |f| > 0
    ensures r.None? <==> MinLow(f) >= MaxHigh(f)
    ensures r.Some? ==>
      && r.value.currentPrice == f[|f| - 1].close && r.value.valueArea >= r.value.poc
      && |r.value.buckets| == PriceLevels && Sum(r.value.buckets) == RangedVolume(f)
  {
    var p := CalculateVolumeProfile(f);
    if |p.buckets| == 0 {
      return None;
    }
    return Some(ProfileData(f[|f| - 1].close, p.poc, p.valueArea, p.buckets));
  }

  /** The strength the buy side draws from the patterns. */
  function BuyPatternBonus(patterns: PatternMap): real
  {
    Score(patterns, AtHvn) * 0.2 + Score(patterns, PriceAcceptance) * 0.2
  }

  /** The strength the sell side draws from the patterns. */
  function SellPatternBonus(patterns: PatternMap): real
  {
    Score(patterns, InLvn) * 0.2 + Score(patterns, PriceRejection) * 0.2
  }

  function Confidence(trend: real, bonus: real, volumeConfirmed: bool): real
  {
    0.5 + AbsReal(trend) * 0.3 + bonus + VolumeBonus(volumeConfirmed)
  }

  /** `analyze_market(df, profile_data)` with the trend, the patterns and the volume flag as inputs. */
  function AnalyzeMarket(d: ProfileData, trend: real, patterns: PatternMap, volumeConfirmed: bool): (r: Option<Signal>)
    ensures r.Some? ==> r.value.name == "volume_profile"
    ensures r.Some? && r.value.kind == Buy <==>
              d.currentPrice < d.poc && trend > 0.0
              && Confidence(trend, BuyPatternBonus(patterns), volumeConfirmed) > ConfidenceThreshold
    ensures r.Some? && r.value.kind == Sell <==>
              d.currentPrice >= d.poc && d.currentPrice > d.valueArea && trend < 0.0
              && Confidence(trend, SellPatternBonus(patterns), volumeConfirmed) > ConfidenceThreshold
    ensures r.Some? && r.value.kind == Buy ==> r.value.value == Formatted("POC", [Finite(d.poc)])
    ensures r.Some? && r.value.kind == Sell ==> r.value.value == Formatted("VA", [Finite(d.valueArea)])
  {
    if d.currentPrice < d.poc then
      if trend > 0.0 && Confidence(trend, BuyPatternBonus(patterns), volumeConfirmed) > ConfidenceThreshold
      then Some(Signal("volume_profile", Buy, Formatted("POC", [Finite(d.poc)]))) else None
    else if d.currentPrice > d.valueArea then
      if trend < 0.0 && Confidence(trend, SellPatternBonus(patterns), volumeConfirmed) > ConfidenceThreshold
      then Some(Signal("volume_profile", Sell, Formatted("VA", [Finite(d.valueArea)]))) else None
    else None
  }

  /** With the value area at or above the point of control, a sell is above both and a buy below both. */
  lemma SignalSides(d: ProfileData, trend: real, patterns: PatternMap, volumeConfirmed: bool)
    requires d.valueArea >= d.poc
    ensures var r := AnalyzeMarket(d, trend, patterns, volumeConfirmed);
      && (r.Some? && r.value.kind == Buy ==> d.currentPrice < d.poc <= d.valueArea)
      && (r.Some? && r.value.kind == Sell ==> d.currentPrice > d.valueArea >= d.poc)
  {
  }

  /** A buy is confirmed by an uptrend; without patterns or volume the trend must exceed 2/3. */
  lemma BareBuyNeedsStrongTrend(d: ProfileData, trend: real)
    requires AnalyzeMarket(d, trend, map[], false).Some?
    ensures trend > 2.0 / 3.0 || trend < -2.0 / 3.0
  {
  }
}
