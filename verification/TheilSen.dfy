/** Theil-Sen slopes over the reals: e2e/src/support/resource-probe.ts and, with coordinates of its own,
    e2e/src/scout/scout-analysis.ts. */
module TheilSen {
  import opened Options

  // The median.

  function Insert(x: real, s: seq<real>): seq<real> {
    if s == [] || x <= s[0] then [x] + s else [s[0]] + Insert(x, s[1..])
  }

  function Sort(s: seq<real>): seq<real> {
    if s == [] then [] else Insert(s[0], Sort(s[1..]))
  }

  predicate Ascending(s: seq<real>) {
    forall i, j :: 0 <= i < j < |s| ==> s[i] <= s[j]
  }

  lemma {:induction false} Prepend(x: real, s: seq<real>)
    requires Ascending(s) && forall y :: y in s ==> x <= y
    ensures Ascending([x] + s)
  {
    forall i, j | 0 <= i < j < |s| + 1
      ensures ([x] + s)[i] <= ([x] + s)[j]
    {
      assert s[j - 1] in s;
    }
  }

  lemma {:induction false} InsertHolds(x: real, s: seq<real>)
    ensures |Insert(x, s)| == |s| + 1 && multiset(Insert(x, s)) == multiset{x} + multiset(s)
  {
    if s != [] && x > s[0] {
      InsertHolds(x, s[1..]);
      assert s == [s[0]] + s[1..];
    }
  }

  lemma {:induction false} InsertSorts(x: real, s: seq<real>)
    requires Ascending(s)
    ensures Ascending(Insert(x, s))
  {
    if s == [] {
    } else if x <= s[0] {
      assert forall i :: 0 < i < |s| ==> s[0] <= s[i];
      Prepend(x, s);
    } else {
      var rest := Insert(x, s[1..]);
      InsertSorts(x, s[1..]);
      InsertHolds(x, s[1..]);
      forall y | y in rest
        ensures s[0] <= y
      {
        assert y in multiset(rest);
        assert y == x || y in s[1..];
      }
      Prepend(s[0], rest);
    }
  }

  lemma {:induction false} SortSorts(s: seq<real>)
    ensures Ascending(Sort(s)) && multiset(Sort(s)) == multiset(s) && |Sort(s)| == |s|
  {
    if s != [] {
      SortSorts(s[1..]);
      InsertSorts(s[0], Sort(s[1..]));
      InsertHolds(s[0], Sort(s[1..]));
      assert s == [s[0]] + s[1..];
    }
  }

  /** The middle of a list in order: its middle entry, or the mean of the two there. */
  function Middle(sorted: seq<real>): real {
    var middle := |sorted| / 2;
    if sorted == [] then 0.0
    else if |sorted| % 2 == 0 then (sorted[middle - 1] + sorted[middle]) / 2.0 else sorted[middle]
  }

  function Median(values: seq<real>): real {
    Middle(Sort(values))
  }

  /** How many entries lie in an interval. */
  function Within(s: seq<real>, lo: real, hi: real): nat {
    if s == [] then 0 else (if lo <= s[0] <= hi then 1 else 0) + Within(s[1..], lo, hi)
  }

  lemma {:induction false} WithinInsert(x: real, s: seq<real>, lo: real, hi: real)
    ensures Within(Insert(x, s), lo, hi) == Within(s, lo, hi) + if lo <= x <= hi then 1 else 0
  {
    if s == [] || x <= s[0] {
      assert ([x] + s)[1..] == s;
    } else {
      WithinInsert(x, s[1..], lo, hi);
      assert ([s[0]] + Insert(x, s[1..]))[1..] == Insert(x, s[1..]);
    }
  }

  lemma {:induction false} WithinSort(s: seq<real>, lo: real, hi: real)
    ensures Within(Sort(s), lo, hi) == Within(s, lo, hi)
  {
    if s != [] {
      WithinSort(s[1..], lo, hi);
      WithinInsert(s[0], Sort(s[1..]), lo, hi);
    }
  }

  lemma {:induction false} WithinSplits(s: seq<real>, k: nat, lo: real, hi: real)
    requires k <= |s|
    ensures Within(s, lo, hi) == Within(s[..k], lo, hi) + Within(s[k..], lo, hi)
    ensures Within(s, lo, hi) <= |s|
  {
    if s != [] {
      if k == 0 {
        WithinSplits(s[1..], 0, lo, hi);
        assert s[..0] == [] && s[0..] == s;
      } else {
        WithinSplits(s[1..], k - 1, lo, hi);
        assert s[..k][1..] == s[1..][..k - 1] && s[k..] == s[1..][k - 1..];
      }
    }
  }

  lemma {:induction false} NoneWithin(s: seq<real>, lo: real, hi: real)
    requires forall i :: 0 <= i < |s| ==> s[i] < lo || hi < s[i]
    ensures Within(s, lo, hi) == 0
  {
    if s != [] {
      NoneWithin(s[1..], lo, hi);
    }
  }

  /** In a sorted list with more than half of its entries in an interval, the middle is in it. */
  lemma {:induction false} MiddleWithin(s: seq<real>, m: nat, lo: real, hi: real)
    requires Ascending(s) && 2 * Within(s, lo, hi) > |s| && m < |s|
    ensures 2 * m >= |s| - 2 ==> lo <= s[m]
    ensures 2 * m <= |s| ==> s[m] <= hi
  {
    WithinSplits(s, m + 1, lo, hi);
    WithinSplits(s, m, lo, hi);
    if s[m] < lo {
      NoneWithin(s[..m + 1], lo, hi);
      WithinSplits(s[m + 1..], 0, lo, hi);
    }
    if hi < s[m] {
      NoneWithin(s[m..], lo, hi);
      WithinSplits(s[..m], 0, lo, hi);
    }
  }

  /** The median is in every interval that holds more than half of the values. */
  lemma {:induction false} MedianIsRobust(values: seq<real>, lo: real, hi: real)
    requires 2 * Within(values, lo, hi) > |values|
    ensures lo <= Median(values) <= hi
  {
    var s := Sort(values);
    SortSorts(values);
    WithinSort(values, lo, hi);
    var m := |s| / 2;
    MiddleWithin(s, m, lo, hi);
    if |s| % 2 == 0 {
      MiddleWithin(s, m - 1, lo, hi);
    }
  }

  /** How many entries satisfy `p`. */
  function HowMany(s: seq<real>, p: real -> bool): nat {
    if s == [] then 0 else (if p(s[0]) then 1 else 0) + HowMany(s[1..], p)
  }

  lemma {:induction false} HowManyInsert(x: real, s: seq<real>, p: real -> bool)
    ensures HowMany(Insert(x, s), p) == HowMany(s, p) + if p(x) then 1 else 0
  {
    if s == [] || x <= s[0] {
      assert ([x] + s)[1..] == s;
    } else {
      HowManyInsert(x, s[1..], p);
      assert ([s[0]] + Insert(x, s[1..]))[1..] == Insert(x, s[1..]);
    }
  }

  lemma {:induction false} HowManySort(s: seq<real>, p: real -> bool)
    ensures HowMany(Sort(s), p) == HowMany(s, p)
  {
    if s != [] {
      HowManySort(s[1..], p);
      HowManyInsert(s[0], Sort(s[1..]), p);
    }
  }

  lemma {:induction false} HowManySplits(s: seq<real>, k: nat, p: real -> bool)
    requires k <= |s|
    ensures HowMany(s, p) == HowMany(s[..k], p) + HowMany(s[k..], p) && HowMany(s[..k], p) <= k
  {
    if s != [] {
      if k == 0 {
        assert s[..0] == [] && s[0..] == s;
      } else {
        HowManySplits(s[1..], k - 1, p);
        assert s[..k][1..] == s[1..][..k - 1] && s[k..] == s[1..][k - 1..];
      }
    }
  }

  lemma {:induction false} NoneOrAll(s: seq<real>, p: real -> bool, all: bool)
    requires forall i :: 0 <= i < |s| ==> p(s[i]) == all
    ensures HowMany(s, p) == if all then |s| else 0
  {
    if s != [] {
      NoneOrAll(s[1..], p, all);
    }
  }

  /** `x` is the value that stands at position `k` when the values are put in order: at most `k` are smaller, and
      more than `k` are not larger. */
  ghost predicate StandsAt(values: seq<real>, k: nat, x: real) {
    HowMany(values, y => y < x) <= k < HowMany(values, y => y <= x)
  }

  lemma {:induction false} SortedStands(s: seq<real>, k: nat)
    requires Ascending(s) && k < |s|
    ensures StandsAt(s, k, s[k])
  {
    var x := s[k];
    HowManySplits(s, k, y => y < x);
    NoneOrAll(s[k..], y => y < x, false);
    HowManySplits(s, k + 1, y => y <= x);
    NoneOrAll(s[..k + 1], y => y <= x, true);
  }

  lemma {:induction false} HowManyGrows(s: seq<real>, p: real -> bool, q: real -> bool)
    requires forall y :: p(y) ==> q(y)
    ensures HowMany(s, p) <= HowMany(s, q)
  {
    if s != [] {
      HowManyGrows(s[1..], p, q);
    }
  }

  /** Only one value stands at a position. */
  lemma {:induction false} OneStands(values: seq<real>, k: nat, x: real, y: real)
    requires StandsAt(values, k, x) && StandsAt(values, k, y)
    ensures x == y
  {
    if x < y {
      HowManyGrows(values, z => z <= x, z => z < y);
    } else if y < x {
      HowManyGrows(values, z => z <= y, z => z < x);
    }
  }

  lemma {:induction false} SortStands(values: seq<real>, k: nat)
    requires k < |values|
    ensures |Sort(values)| == |values| && StandsAt(values, k, Sort(values)[k])
  {
    SortSorts(values);
    var x := Sort(values)[k];
    SortedStands(Sort(values), k);
    HowManySort(values, y => y < x);
    HowManySort(values, y => y <= x);
  }

  lemma MiddleIsBetween(sorted: seq<real>)
    requires sorted != []
    ensures var n := |sorted|; Middle(sorted) == (sorted[(n - 1) / 2] + sorted[n / 2]) / 2.0
  {
  }

  /** The median is the value in the middle, or halfway between the two in the middle. */
  lemma {:induction false} MedianExactly(values: seq<real>) returns (below: real, above: real)
    requires values != []
    ensures StandsAt(values, (|values| - 1) / 2, below) && StandsAt(values, |values| / 2, above)
    ensures Median(values) == (below + above) / 2.0
  {
    SortSorts(values);
    MiddleIsBetween(Sort(values));
    below, above := Sort(values)[(|values| - 1) / 2], Sort(values)[|values| / 2];
    SortStands(values, (|values| - 1) / 2);
    SortStands(values, |values| / 2);
  }

  lemma {:induction false} AllWithin(s: seq<real>, lo: real, hi: real)
    requires forall i :: 0 <= i < |s| ==> lo <= s[i] <= hi
    ensures Within(s, lo, hi) == |s|
  {
    if s != [] {
      AllWithin(s[1..], lo, hi);
    }
  }

  // The slopes.

  /** The slopes of all pairs of points with growing coordinates, in loop order, from a pair on. */
  function SlopesFrom(values: seq<real>, at: seq<real>, left: nat, right: nat): seq<real>
    requires |values| == |at|
    decreases |values| - left, |values| - right
  {
    if left >= |values| then []
    else if right <= left || right >= |values| then SlopesFrom(values, at, left + 1, left + 2)
    else
      var rest := SlopesFrom(values, at, left, right + 1);
      if at[right] - at[left] > 0.0 then [Slope(values, at, left, right)] + rest else rest
  }

  function Slope(values: seq<real>, at: seq<real>, left: nat, right: nat): real
    requires |values| == |at| && left < |values| && right < |values| && at[right] - at[left] > 0.0
  {
    (values[right] - values[left]) / (at[right] - at[left])
  }

  function Slopes(values: seq<real>, at: seq<real>): seq<real>
    requires |values| == |at|
  {
    SlopesFrom(values, at, 0, 1)
  }

  /** Coordinates 0, 1, 2, ... */
  function Indices(n: nat): seq<real> {
    seq(n, i => i as real)
  }

  method TheilSenSlope(values: seq<real>) returns (slope: real)
    ensures slope == Median(Slopes(values, Indices(|values|)))
  {
    var slopes: seq<real> := [];
    ghost var at := Indices(|values|);
    var left := 0;
    while left < |values|
      invariant slopes + SlopesFrom(values, at, left, left + 1) == Slopes(values, at)
    {
      var right := left + 1;
      while right < |values|
        invariant left < right
        invariant slopes + SlopesFrom(values, at, left, right) == Slopes(values, at)
      {
        ghost var rest := SlopesFrom(values, at, left, right + 1);
        ghost var before := slopes;
        var s := (values[right] - values[left]) / ((right - left) as real);
        assert at[right] - at[left] == (right - left) as real;
        slopes := slopes + [s];
        assert slopes + rest == before + ([s] + rest);
        right := right + 1;
      }
      left := left + 1;
    }
    assert slopes + [] == slopes;
    slope := Median(slopes);
  }

  /** `None` where the original throws: values and coordinates must pair up. */
  method TheilSenSlopeAtIterations(values: seq<real>, iterations: seq<real>) returns (slope: Option<real>)
    ensures slope == if |values| != |iterations| then None else Some(Median(Slopes(values, iterations)))
  {
    if |values| != |iterations| {
      return None;
    }
    var slopes: seq<real> := [];
    var left := 0;
    while left < |values|
      invariant slopes + SlopesFrom(values, iterations, left, left + 1) == Slopes(values, iterations)
    {
      var right := left + 1;
      while right < |values|
        invariant left < right
        invariant slopes + SlopesFrom(values, iterations, left, right) == Slopes(values, iterations)
      {
        ghost var rest := SlopesFrom(values, iterations, left, right + 1);
        ghost var before := slopes;
        var delta := iterations[right] - iterations[left];
        if delta > 0.0 {
          var s := (values[right] - values[left]) / delta;
          slopes := slopes + [s];
          assert slopes + rest == before + ([s] + rest);
        }
        right := right + 1;
      }
      left := left + 1;
    }
    assert slopes + [] == slopes;
    slope := Some(Median(slopes));
  }

  // Exactness.

  lemma {:induction false} SlopesBounded(values: seq<real>, at: seq<real>, left: nat, right: nat, lo: real, hi: real)
    requires |values| == |at|
    requires forall l, r :: 0 <= l < r < |values| && at[r] - at[l] > 0.0 ==> lo <= Slope(values, at, l, r) <= hi
    ensures forall i :: 0 <= i < |SlopesFrom(values, at, left, right)| ==>
              lo <= SlopesFrom(values, at, left, right)[i] <= hi
    decreases |values| - left, |values| - right
  {
    if left >= |values| {
    } else if right <= left || right >= |values| {
      SlopesBounded(values, at, left + 1, left + 2, lo, hi);
    } else {
      SlopesBounded(values, at, left, right + 1, lo, hi);
    }
  }

  lemma {:induction false} AffineSlope(a: real, b: real, x: real, y: real)
    requires y - x > 0.0
    ensures ((a + b * y) - (a + b * x)) / (y - x) == b
  {
    assert (a + b * y) - (a + b * x) == b * (y - x);
  }

  /** On affine data the slope is exact, whatever the coordinates, as long as two of them differ. */
  lemma {:induction false} ExactOnAffineData(values: seq<real>, at: seq<real>, a: real, b: real)
    requires |values| == |at| && forall i :: 0 <= i < |at| ==> values[i] == a + b * at[i]
    requires Slopes(values, at) != []
    ensures Median(Slopes(values, at)) == b
  {
    forall l, r | 0 <= l < r < |values| && at[r] - at[l] > 0.0
      ensures b <= Slope(values, at, l, r) <= b
    {
      AffineSlope(a, b, at[l], at[r]);
    }
    SlopesBounded(values, at, 0, 1, b, b);
    AllWithin(Slopes(values, at), b, b);
    MedianIsRobust(Slopes(values, at), b, b);
  }

  lemma {:induction false} Quotient(x: real, d: real)
    requires x >= 0.0 && d > 0.0
    ensures x / d >= 0.0
  {
  }

  lemma {:induction false} AtMost(s: seq<real>) returns (hi: real)
    ensures forall i :: 0 <= i < |s| ==> s[i] <= hi
  {
    if s == [] {
      hi := 0.0;
    } else {
      hi := AtMost(s[1..]);
      if hi < s[0] {
        hi := s[0];
      }
    }
  }

  /** Data that never falls has no negative slope. */
  lemma {:induction false} NonnegativeOnNondecreasingData(values: seq<real>, at: seq<real>)
    requires |values| == |at| && Ascending(values)
    ensures Median(Slopes(values, at)) >= 0.0
  {
    var slopes := Slopes(values, at);
    if slopes != [] {
      SlopesAtLeastZero(values, at, 0, 1);
      var hi := AtMost(slopes);
      AllWithin(slopes, 0.0, hi);
      MedianIsRobust(slopes, 0.0, hi);
    }
  }

  lemma {:induction false} SlopesAtLeastZero(values: seq<real>, at: seq<real>, left: nat, right: nat)
    requires |values| == |at| && Ascending(values)
    ensures forall i :: 0 <= i < |SlopesFrom(values, at, left, right)| ==> SlopesFrom(values, at, left, right)[i] >= 0.0
    decreases |values| - left, |values| - right
  {
    if left >= |values| {
    } else if right <= left || right >= |values| {
      SlopesAtLeastZero(values, at, left + 1, left + 2);
    } else {
      SlopesAtLeastZero(values, at, left, right + 1);
      if at[right] - at[left] > 0.0 {
        Quotient(values[right] - values[left], at[right] - at[left]);
      }
    }
  }

  // Robustness.

  /** The slopes of pairs of clean points only. */
  function CleanSlopes(values: seq<real>, at: seq<real>, clean: seq<bool>, left: nat, right: nat): seq<real>
    requires |values| == |at| == |clean|
    decreases |values| - left, |values| - right
  {
    if left >= |values| then []
    else if right <= left || right >= |values| then CleanSlopes(values, at, clean, left + 1, left + 2)
    else
      var rest := CleanSlopes(values, at, clean, left, right + 1);
      if at[right] - at[left] > 0.0 && clean[left] && clean[right]
      then [Slope(values, at, left, right)] + rest else rest
  }

  lemma {:induction false} CleanSlopesCount(values: seq<real>, at: seq<real>, clean: seq<bool>, left: nat, right: nat,
                                            lo: real, hi: real)
    requires |values| == |at| == |clean|
    requires forall i :: 0 <= i < |CleanSlopes(values, at, clean, left, right)| ==>
               lo <= CleanSlopes(values, at, clean, left, right)[i] <= hi
    ensures |CleanSlopes(values, at, clean, left, right)| <= Within(SlopesFrom(values, at, left, right), lo, hi)
    decreases |values| - left, |values| - right
  {
    if left >= |values| {
    } else if right <= left || right >= |values| {
      assert CleanSlopes(values, at, clean, left, right) == CleanSlopes(values, at, clean, left + 1, left + 2);
      CleanSlopesCount(values, at, clean, left + 1, left + 2, lo, hi);
    } else {
      var rest := CleanSlopes(values, at, clean, left, right + 1);
      var all := CleanSlopes(values, at, clean, left, right);
      assert forall i :: 0 <= i < |rest| ==> rest[i] == all[i + |all| - |rest|];
      CleanSlopesCount(values, at, clean, left, right + 1, lo, hi);
      var others := SlopesFrom(values, at, left, right + 1);
      if at[right] - at[left] > 0.0 {
        assert ([Slope(values, at, left, right)] + others)[1..] == others;
        assert |all| > |rest| ==> all[0] == Slope(values, at, left, right);
      }
    }
  }

  lemma {:induction false} Extremes(s: seq<real>) returns (least: nat, greatest: nat)
    requires s != []
    ensures least < |s| && greatest < |s|
    ensures forall i :: 0 <= i < |s| ==> s[least] <= s[i] <= s[greatest]
  {
    least, greatest := 0, 0;
    for k := 1 to |s|
      invariant least < |s| && greatest < |s|
      invariant forall i :: 0 <= i < k ==> s[least] <= s[i] <= s[greatest]
    {
      if s[k] < s[least] {
        least := k;
      }
      if s[k] > s[greatest] {
        greatest := k;
      }
    }
  }

  /** When more than half of the slopes come from clean points, the result lies between two clean
      slopes, whatever the other points do. */
  lemma {:induction false} BetweenCleanSlopes(values: seq<real>, at: seq<real>, clean: seq<bool>)
    returns (least: nat, greatest: nat)
    requires |values| == |at| == |clean|
    requires 2 * |CleanSlopes(values, at, clean, 0, 1)| > |Slopes(values, at)|
    ensures var s := CleanSlopes(values, at, clean, 0, 1);
            && least < |s| && greatest < |s|
            && (forall i :: 0 <= i < |s| ==> s[least] <= s[i] <= s[greatest])
            && s[least] <= Median(Slopes(values, at)) <= s[greatest]
  {
    var s := CleanSlopes(values, at, clean, 0, 1);
    least, greatest := Extremes(s);
    CleanSlopesCount(values, at, clean, 0, 1, s[least], s[greatest]);
    MedianIsRobust(Slopes(values, at), s[least], s[greatest]);
  }

  // How many slopes there are when every coordinate is larger than the one before.

  predicate Increasing(at: seq<real>) {
    forall i, j :: 0 <= i < j < |at| ==> at[i] < at[j]
  }

  function Count(clean: seq<bool>, from: nat): nat
    decreases |clean| - from
  {
    if from >= |clean| then 0 else (if clean[from] then 1 else 0) + Count(clean, from + 1)
  }

  /** How many pairs n points make: n(n - 1) / 2. */
  function Pairs(n: nat): nat {
    if n == 0 then 0 else Pairs(n - 1) + (n - 1)
  }

  lemma {:induction false} CleanPairs(values: seq<real>, at: seq<real>, clean: seq<bool>, left: nat, right: nat)
    requires |values| == |at| == |clean| && Increasing(at) && left < right
    ensures |CleanSlopes(values, at, clean, left, right)|
            == Pairs(Count(clean, left + 1)) + if left < |clean| && clean[left] then Count(clean, right) else 0
    decreases |values| - left, |values| - right
  {
    if left >= |values| {
    } else if right >= |values| {
      CleanPairs(values, at, clean, left + 1, left + 2);
    } else {
      CleanPairs(values, at, clean, left, right + 1);
    }
  }

  lemma {:induction false} AllPairs(values: seq<real>, at: seq<real>, left: nat, right: nat)
    requires |values| == |at| && Increasing(at) && left < right
    ensures |SlopesFrom(values, at, left, right)|
            == if left >= |values| then 0
               else Pairs(|values| - left - 1) + if right < |values| then |values| - right else 0
    decreases |values| - left, |values| - right
  {
    if left >= |values| {
    } else if right >= |values| {
      AllPairs(values, at, left + 1, left + 2);
    } else {
      AllPairs(values, at, left, right + 1);
    }
  }

  lemma {:induction false} HowManySlopes(values: seq<real>, at: seq<real>, clean: seq<bool>)
    requires |values| == |at| == |clean| && Increasing(at)
    ensures |CleanSlopes(values, at, clean, 0, 1)| == Pairs(Count(clean, 0))
    ensures |Slopes(values, at)| == Pairs(|values|)
  {
    CleanPairs(values, at, clean, 0, 1);
    AllPairs(values, at, 0, 1);
  }

  /** The result lies between two clean slopes as soon as the clean points make more than half of all
      pairs: about three points in ten may be arbitrarily wrong. */
  lemma {:induction false} ResistsOutliers(values: seq<real>, at: seq<real>, clean: seq<bool>)
    returns (least: nat, greatest: nat)
    requires |values| == |at| == |clean| && Increasing(at)
    requires 2 * Pairs(Count(clean, 0)) > Pairs(|values|)
    ensures var s := CleanSlopes(values, at, clean, 0, 1);
            && least < |s| && greatest < |s|
            && s[least] <= Median(Slopes(values, at)) <= s[greatest]
  {
    HowManySlopes(values, at, clean);
    least, greatest := BetweenCleanSlopes(values, at, clean);
  }

  /** So is the plain version, whose coordinates are 0, 1, 2, ... and always increase. */
  lemma {:induction false} PlainResistsOutliers(values: seq<real>, clean: seq<bool>) returns (least: nat, greatest: nat)
    requires |values| == |clean| && 2 * Pairs(Count(clean, 0)) > Pairs(|values|)
    ensures var s := CleanSlopes(values, Indices(|values|), clean, 0, 1);
            && least < |s| && greatest < |s|
            && s[least] <= Median(Slopes(values, Indices(|values|))) <= s[greatest]
  {
    IndicesIncrease(|values|);
    least, greatest := ResistsOutliers(values, Indices(|values|), clean);
  }

  lemma {:induction false} IndicesIncrease(n: nat)
    ensures Increasing(Indices(n))
  {
  }

  /** At those coordinates the two versions agree. */
  method BothSlopes(values: seq<real>) returns (plain: real, given: Option<real>)
    ensures given == Some(plain)
  {
    plain := TheilSenSlope(values);
    given := TheilSenSlopeAtIterations(values, Indices(|values|));
  }
}
