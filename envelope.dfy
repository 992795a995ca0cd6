/**
 * The cross-model envelope of one figure panel: the member lines of a group (one slice per
 * record, all of one length) are reduced point by point to their mean, minimum and maximum,
 * as `numpy.mean`, `numpy.amin` and `numpy.amax` along axis 0 do. An undefined value (NaN)
 * at a point makes all three statistics undefined there; an empty group makes `amin` raise.
 */
module Envelope {
  import opened Wrappers
  import opened Arrays

  function Sum(xs: seq<real>): real
  {
    if |xs| == 0 then 0.0 else xs[0] + Sum(xs[1..])
  }

  function Mean(xs: seq<real>): real
    requires |xs| > 0
  {
    Sum(xs) / (|xs| as real)
  }

  /** The least value: a member of `xs` and below every member. */
  function MinOf(xs: seq<real>): (r: real)
    requires |xs| > 0
    ensures (exists i :: 0 <= i < |xs| && xs[i] == r) && forall i :: 0 <= i < |xs| ==> r <= xs[i]
  {
    if |xs| == 1 then xs[0]
    else
      var m := MinOf(xs[1..]);
      assert forall i :: 1 <= i < |xs| ==> xs[i] == xs[1..][i - 1];
      if xs[0] <= m then xs[0] else m
  }

  /** The greatest value: a member of `xs` and above every member. */
  function MaxOf(xs: seq<real>): (r: real)
    requires |xs| > 0
    ensures (exists i :: 0 <= i < |xs| && xs[i] == r) && forall i :: 0 <= i < |xs| ==> xs[i] <= r
  {
    if |xs| == 1 then xs[0]
    else
      var m := MaxOf(xs[1..]);
      assert forall i :: 1 <= i < |xs| ==> xs[i] == xs[1..][i - 1];
      if m <= xs[0] then xs[0] else m
  }

  /** A sum of values between `lo` and `hi` lies between `n * lo` and `n * hi`. */
  lemma {:induction false} SumBounds(xs: seq<real>, lo: real, hi: real)
    requires forall i :: 0 <= i < |xs| ==> lo <= xs[i] <= hi
    ensures (|xs| as real) * lo <= Sum(xs) <= (|xs| as real) * hi
  {
    if |xs| > 0 {
      assert forall i :: 0 <= i < |xs[1..]| ==> xs[1..][i] == xs[i + 1];
      SumBounds(xs[1..], lo, hi);
      assert (|xs| as real) == (|xs[1..]| as real) + 1.0;
    }
  }

  /** The mean lies between the minimum and the maximum. */
  lemma {:induction false} MinLeMeanLeMax(xs: seq<real>)
    requires |xs| > 0
    ensures MinOf(xs) <= Mean(xs) <= MaxOf(xs)
  {
    var lo, hi, n := MinOf(xs), MaxOf(xs), |xs| as real;
    SumBounds(xs, lo, hi);
    DivideBounds(lo, Sum(xs), hi, n);
    assert Mean(xs) == Sum(xs) / n;
  }

  lemma DivideBounds(lo: real, s: real, hi: real, n: real)
    requires 0.0 < n && n * lo <= s <= n * hi
    ensures lo <= s / n <= hi
  {
    var q := s / n;
    assert s == n * q;
  }

  /** The statistics of one point of a panel; all undefined when a member is undefined there. */
  datatype PointStats = PointStats(mean: Option<real>, amin: Option<real>, amax: Option<real>)

  predicate AllDefined(vals: seq<Option<real>>)
  {
    forall i :: 0 <= i < |vals| ==> vals[i].Some?
  }

  function Values(vals: seq<Option<real>>): (r: seq<real>)
    requires AllDefined(vals)
    ensures |r| == |vals| && forall i :: 0 <= i < |vals| ==> r[i] == vals[i].value
  {
    seq(|vals|, i requires 0 <= i < |vals| => vals[i].value)
  }

  /** Mean, minimum and maximum over the members' values at one point. */
  function StatsAt(vals: seq<Option<real>>): PointStats
    requires |vals| > 0
  {
    if AllDefined(vals) then
      var xs := Values(vals);
      PointStats(Some(Mean(xs)), Some(MinOf(xs)), Some(MaxOf(xs)))
    else PointStats(None, None, None)
  }

  predicate Lines(lines: seq<seq<Option<real>>>, n: nat)
  {
    forall i :: 0 <= i < |lines| ==> |lines[i]| == n
  }

  /**
   * The envelope of a group of lines of length `n`: one PointStats per point, or None when
   * the group is empty (the minimum of an empty array raises).
   */
  function Envelope(lines: seq<seq<Option<real>>>, n: nat): Option<seq<PointStats>>
    requires Lines(lines, n)
  {
    if |lines| == 0 then None
    else Some(seq(n, k requires 0 <= k < n => StatsAt(ColumnOf(lines, k))))
  }

  /**
   * What an envelope states: it exists exactly for a non-empty group and has one entry per
   * point; at each point it is defined exactly when every member is, and then the minimum
   * and maximum are members' values that bound all others, and the mean (the sum over the
   * group size) lies between them.
   */
  lemma EnvelopeSpec(lines: seq<seq<Option<real>>>, n: nat, k: nat)
    requires Lines(lines, n) && k < n
    ensures Envelope(lines, n).Some? <==> |lines| > 0
    ensures Envelope(lines, n).Some? ==>
      var s := Envelope(lines, n).value;
      |s| == n &&
      (s[k].mean.Some? <==> forall i :: 0 <= i < |lines| ==> lines[i][k].Some?) &&
      (s[k].amin.Some? <==> s[k].mean.Some?) && (s[k].amax.Some? <==> s[k].mean.Some?) &&
      (s[k].mean.Some? ==>
        (forall i :: 0 <= i < |lines| ==> s[k].amin.value <= lines[i][k].value <= s[k].amax.value) &&
        (exists i :: 0 <= i < |lines| && lines[i][k].value == s[k].amin.value) &&
        (exists i :: 0 <= i < |lines| && lines[i][k].value == s[k].amax.value) &&
        s[k].amin.value <= s[k].mean.value <= s[k].amax.value &&
        s[k].mean.value == Sum(Values(ColumnOf(lines, k))) / (|lines| as real))
  {
    if |lines| > 0 {
      var col := ColumnOf(lines, k);
      if AllDefined(col) {
        MinLeMeanLeMax(Values(col));
      }
    }
  }

  /** A single-member group has that member's line as mean, minimum and maximum. */
  lemma SingletonEnvelope(line: seq<Option<real>>, k: nat)
    requires k < |line| && line[k].Some?
    ensures Lines([line], |line|)
    ensures Envelope([line], |line|).value[k] == PointStats(line[k], line[k], line[k])
  {
    var xs := Values(ColumnOf([line], k));
    assert xs == [line[k].value];
    assert Sum(xs) == line[k].value + Sum([]);
  }

  function Min3(a: real, b: real, c: real): real
  {
    if a <= b && a <= c then a else if b <= c then b else c
  }

  function Max3(a: real, b: real, c: real): real
  {
    if a >= b && a >= c then a else if b >= c then b else c
  }

  lemma SumOfThree(a: real, b: real, c: real)
    ensures Sum([a, b, c]) == a + b + c
  {
    assert [a, b, c][1..] == [b, c] && [b, c][1..] == [c] && [c][1..] == [];
    assert Sum([c]) == c;
  }

  lemma MinMaxOfThree(a: real, b: real, c: real)
    ensures MinOf([a, b, c]) == Min3(a, b, c) && MaxOf([a, b, c]) == Max3(a, b, c)
  {
    assert [a, b, c][1..] == [b, c] && [b, c][1..] == [c];
    assert MinOf([b, c]) == if b <= c then b else c;
    assert MaxOf([b, c]) == if c <= b then b else c;
  }

  /** At a point where three members are all defined, the statistics are their mean, min and max. */
  lemma StatsOfThree(a: real, b: real, c: real)
    ensures StatsAt([Some(a), Some(b), Some(c)]) == PointStats(Some((a + b + c) / 3.0), Some(Min3(a, b, c)), Some(Max3(a, b, c)))
  {
    assert Values([Some(a), Some(b), Some(c)]) == [a, b, c];
    SumOfThree(a, b, c);
    MinMaxOfThree(a, b, c);
  }

  /** The envelope at point `k` is the statistics of the members' values there. */
  lemma EnvelopeAt(lines: seq<seq<Option<real>>>, n: nat, k: nat)
    requires Lines(lines, n) && |lines| > 0 && k < n
    ensures Envelope(lines, n).Some? && |Envelope(lines, n).value| == n
    ensures Envelope(lines, n).value[k] == StatsAt(ColumnOf(lines, k))
  {
  }

  /** Three lines of three points: mean 5/3, 16/3, 10/3; minimum 0, 2, 1; maximum 4, 9, 6. */
  lemma ThreeLineExample(l0: seq<Option<real>>, l1: seq<Option<real>>, l2: seq<Option<real>>)
    requires l0 == [Some(1.0), Some(2.0), Some(3.0)]
    requires l1 == [Some(4.0), Some(5.0), Some(6.0)]
    requires l2 == [Some(0.0), Some(9.0), Some(1.0)]
    ensures Lines([l0, l1, l2], 3)
    ensures Envelope([l0, l1, l2], 3).Some? && |Envelope([l0, l1, l2], 3).value| == 3
    ensures Envelope([l0, l1, l2], 3).value[0] == PointStats(Some(5.0 / 3.0), Some(0.0), Some(4.0))
    ensures Envelope([l0, l1, l2], 3).value[1] == PointStats(Some(16.0 / 3.0), Some(2.0), Some(9.0))
    ensures Envelope([l0, l1, l2], 3).value[2] == PointStats(Some(10.0 / 3.0), Some(1.0), Some(6.0))
  {
    var lines := [l0, l1, l2];
    ColumnOfThree(l0, l1, l2, 0);
    ColumnOfThree(l0, l1, l2, 1);
    ColumnOfThree(l0, l1, l2, 2);
    StatsOfThree(1.0, 4.0, 0.0);
    StatsOfThree(2.0, 5.0, 9.0);
    StatsOfThree(3.0, 6.0, 1.0);
    EnvelopeAt(lines, 3, 0);
    EnvelopeAt(lines, 3, 1);
    EnvelopeAt(lines, 3, 2);
  }

  lemma ColumnOfThree(l0: seq<Option<real>>, l1: seq<Option<real>>, l2: seq<Option<real>>, k: nat)
    requires k < |l0| && k < |l1| && k < |l2|
    ensures ColumnOf([l0, l1, l2], k) == [l0[k], l1[k], l2[k]]
  {
  }
}
