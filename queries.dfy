/** The per-slot objectives an agent scores the table with, and the score
    arithmetic around them (reset, weighted add, rounding to hundredths).

    Vector3.Distance and the dot product of normalised planar vectors are not
    modelled: each query takes the per-slot distances or dot products as
    real-valued inputs, in table order. */
module Queries {

  datatype Option<T> = None | Some(value: T)

  function Abs(x: real): (r: real)
    ensures r >= 0.0 && (r == x || r == -x)
  {
    if x < 0.0 then -x else x
  }

  /** Mathf.Clamp01. */
  function Clamp01(x: real): (r: real)
    ensures 0.0 <= r <= 1.0
    ensures 0.0 <= x <= 1.0 ==> r == x
    ensures x < 0.0 ==> r == 0.0
    ensures x > 1.0 ==> r == 1.0
  {
    if x < 0.0 then 0.0 else if x > 1.0 then 1.0 else x
  }

  // ---------------------------------------------------------------- distance

  /** The band a distance score is normalised against: the distances of the
      first slot (innermost ring) and of the last slot (outermost ring), both
      shifted by preferredDist·(rings − 1). */
  function DistanceBand(dists: seq<real>, preferredDist: real, rings: real): (band: (real, real))
    requires |dists| > 0
    ensures band.1 - band.0 == dists[|dists| - 1] - dists[0]
    ensures band.0 - dists[0] == band.1 - dists[|dists| - 1] == preferredDist * (rings - 1.0)
  {
    var bias := preferredDist * (rings - 1.0);
    (dists[0] + bias, dists[|dists| - 1] + bias)
  }

  /** Score of one distance d against the band [min, max]: 1 at min, falling
      linearly to 0 at distance |max − min| from min, and 0 beyond. */
  function NormalizedDistance(d: real, min: real, max: real): (r: real)
    requires min != max
    ensures 0.0 <= r <= 1.0
    ensures Abs(d - min) <= Abs(max - min) ==> r == 1.0 - Abs(d - min) / Abs(max - min)
    ensures Abs(d - min) >= Abs(max - min) ==> r == 0.0
  {
    var q := (d - min) / (max - min);
    AbsQuotient(d - min, max - min);
    RatioBounds(Abs(d - min), Abs(max - min));
    Clamp01(1.0 - Abs(q))
  }

  lemma HalfRatio(w: real)
    requires w > 0.0
    ensures (w / 2.0) / w == 0.5
  {
    var q := (w / 2.0) / w;
    assert q * w == w / 2.0;
    assert (q - 0.5) * w == 0.0;
  }

  lemma RatioBounds(a: real, b: real)
    requires a >= 0.0 && b > 0.0
    ensures a <= b ==> 0.0 <= a / b <= 1.0
    ensures a >= b ==> a / b >= 1.0
  {
    assert a / b * b == a;
  }

  lemma AbsQuotient(a: real, b: real)
    requires b != 0.0
    ensures Abs(a / b) == Abs(a) / Abs(b)
  {
    if b < 0.0 {
      assert a / b == (-a) / (-b);
    }
  }

  /** The inputs where the source's normalisation is 0/0: the band is empty
      (first and last slot equally far away) and some slot sits exactly at
      its biased minimum. */
  predicate ZeroOverZero(dists: seq<real>, preferredDist: real, rings: real)
    requires |dists| > 0
  {
    dists[0] == dists[|dists| - 1] && DistanceBand(dists, preferredDist, rings).0 in dists
  }

  /** The distance objective. With an empty band the source divides by zero:
      a slot off the biased minimum gets 1 − |±∞|, which Clamp01 turns into
      0, and a slot on it gets NaN. None stands for that NaN case, which
      this model does not represent. */
  function DistanceFromTarget(dists: seq<real>, preferredDist: real, rings: real): (r: Option<seq<real>>)
    requires |dists| > 0
    ensures r.None? <==> ZeroOverZero(dists, preferredDist, rings)
    ensures r.Some? ==> |r.value| == |dists|
    ensures r.Some? ==> forall i :: 0 <= i < |dists| ==> 0.0 <= r.value[i] <= 1.0
    ensures r.Some? && dists[0] == dists[|dists| - 1] ==> forall i :: 0 <= i < |dists| ==> r.value[i] == 0.0
  {
    var (min, max) := DistanceBand(dists, preferredDist, rings);
    if max != min then
      Some(seq(|dists|, i requires 0 <= i < |dists| => NormalizedDistance(dists[i], min, max)))
    else if min in dists then None
    else Some(seq(|dists|, _ => 0.0))
  }

  /** When every slot is equally far away and the bias is non-zero, no slot
      sits at the biased minimum: the source's objective is then all zeros
      (as with a single ring and a positive preferred distance). */
  lemma {:induction false} EqualDistancesScoreZero(dists: seq<real>, preferredDist: real, rings: real)
    requires |dists| > 0 && preferredDist * (rings - 1.0) != 0.0
    requires forall i :: 0 <= i < |dists| ==> dists[i] == dists[0]
    ensures DistanceFromTarget(dists, preferredDist, rings) == Some(seq(|dists|, _ => 0.0))
  {
    var min := DistanceBand(dists, preferredDist, rings).0;
    assert min !in dists by {
      forall i | 0 <= i < |dists|
        ensures dists[i] != min
      {
      }
    }
  }

  /** A slot at the biased minimum distance scores 1, one at the biased
      maximum scores 0, and a slot between the two scores in [0, 1]
      according to how far it is from the minimum. */
  lemma DistanceExtremes(dists: seq<real>, preferredDist: real, rings: real, i: nat)
    requires |dists| > 0 && i < |dists| && dists[0] != dists[|dists| - 1]
    ensures var band := DistanceBand(dists, preferredDist, rings);
      var r := DistanceFromTarget(dists, preferredDist, rings).value;
      (dists[i] == band.0 ==> r[i] == 1.0) &&
      (dists[i] == band.1 ==> r[i] == 0.0) &&
      (dists[i] == (band.0 + band.1) / 2.0 ==> r[i] == 0.5)
  {
    var band := DistanceBand(dists, preferredDist, rings);
    var r := DistanceFromTarget(dists, preferredDist, rings).value;
    assert r[i] == NormalizedDistance(dists[i], band.0, band.1);
    BandPoints(dists[i], band.0, band.1);
  }

  lemma BandPoints(d: real, min: real, max: real)
    requires min != max
    ensures d == min ==> NormalizedDistance(d, min, max) == 1.0
    ensures d == max ==> NormalizedDistance(d, min, max) == 0.0
    ensures d == (min + max) / 2.0 ==> NormalizedDistance(d, min, max) == 0.5
  {
    var w := Abs(max - min);
    if d == (min + max) / 2.0 {
      assert w > 0.0 && Abs(d - min) == w / 2.0 <= w;
      HalfRatio(w);
    }
  }

  // ------------------------------------------------------------------- angle

  /** The angle objective: each slot's dot product, negated when `inverse`,
      plus the flat tolerance bias. */
  function AnglePreference(dots: seq<real>, inverse: bool, tolerance: real): (r: seq<real>)
    ensures |r| == |dots|
    ensures forall i :: 0 <= i < |dots| && -1.0 <= dots[i] <= 1.0 ==>
      tolerance - 1.0 <= r[i] <= tolerance + 1.0
  {
    seq(|dots|, i requires 0 <= i < |dots| => dots[i] * (if inverse then -1.0 else 1.0) + tolerance)
  }

  /** A slot whose bearing lines up better with the agent's scores at least
      as high; inverting the approach reverses that order. */
  lemma AngleOrder(dots: seq<real>, inverse: bool, tolerance: real, a: nat, b: nat)
    requires a < |dots| && b < |dots| && dots[a] <= dots[b]
    ensures var r := AnglePreference(dots, inverse, tolerance);
      if inverse then r[b] <= r[a] else r[a] <= r[b]
  {
  }

  /** Inverting the approach mirrors every slot's score about the tolerance. */
  lemma AngleInverseMirror(dots: seq<real>, tolerance: real, i: nat)
    requires i < |dots|
    ensures AnglePreference(dots, true, tolerance)[i] + AnglePreference(dots, false, tolerance)[i]
      == 2.0 * tolerance
  {
  }

  // ------------------------------------------------------------------ scores

  /** ResetScores: every score zero, length kept. */
  function ResetScores(scores: seq<real>): (r: seq<real>)
    ensures |r| == |scores| && forall i :: 0 <= i < |r| ==> r[i] == 0.0
  {
    seq(|scores|, _ => 0.0)
  }

  /** AddScores: a disabled objective leaves the scores alone; an enabled one
      adds query·modifier to each score, pairing them as Zip does (the result
      is as long as the shorter of the two). */
  function AddScores(scores: seq<real>, query: seq<real>, enabled: bool, modifier: real): (r: seq<real>)
    ensures !enabled ==> r == scores
    ensures enabled ==> |r| == (if |scores| <= |query| then |scores| else |query|)
    ensures enabled ==> forall i :: 0 <= i < |r| ==> r[i] == scores[i] + query[i] * modifier
  {
    if !enabled then scores
    else
      var n := if |scores| <= |query| then |scores| else |query|;
      seq(n, i requires 0 <= i < n => scores[i] + query[i] * modifier)
  }

  // ---------------------------------------------------------------- rounding

  /** Nearest integer, halves going to the even neighbour (the default
      MidpointRounding.ToEven of Math.Round). */
  function RoundHalfEven(x: real): (n: int)
    ensures -0.5 <= n as real - x <= 0.5
    ensures (n as real - x == 0.5 || x - n as real == 0.5) ==> n % 2 == 0
  {
    var f := x.Floor;
    var frac := x - f as real;
    if frac < 0.5 then f
    else if frac > 0.5 then f + 1
    else if f % 2 == 0 then f
    else f + 1
  }

  /** Math.Round(x, 2): x to the nearest hundredth, halves to even. */
  function Round2(x: real): (r: real)
    ensures -0.005 <= r - x <= 0.005
    ensures (r * 100.0).Floor as real == r * 100.0
  {
    RoundHalfEven(x * 100.0) as real / 100.0
  }

  /** A value already in hundredths is left as it is, so rounding twice is
      rounding once. */
  lemma Round2Idempotent(x: real)
    ensures Round2(Round2(x)) == Round2(x)
  {
    var n := RoundHalfEven(x * 100.0);
    assert Round2(x) * 100.0 == n as real;
    assert (n as real).Floor == n;
  }

  /** The rounding pass over the whole score array. */
  function RoundAll(scores: seq<real>): (r: seq<real>)
    ensures |r| == |scores|
    ensures forall i :: 0 <= i < |r| ==> -0.005 <= r[i] - scores[i] <= 0.005
  {
    seq(|scores|, i requires 0 <= i < |scores| => Round2(scores[i]))
  }
}
