/**
 * The three passes of QuantPeakMatch.findQuantPeakMatch, as folds over a
 * prefix of the destination peak list: the closest peak strictly within the
 * tolerance (the same nearest-peak scan findPeakInPeakList makes, with the
 * tolerance as window), the start index latched on the way, the most intense
 * peak within 0.05 of the closest one, and the intensity sum and m/z range of
 * the peaks within the tolerance of that top peak. Also getDaTolerance.
 */
module QuantSearch {
  import opened Wrappers
  import opened Numeric
  import opened Records
  import opened PeakLists

  /** getDaTolerance: `interval` ppm of `mz` when ppm is set, else `interval` daltons. */
  function DaTolerance(mz: real, interval: real, ppm: bool): real
  {
    if ppm then mz * interval / 1000000.0 else interval
  }

  /** 20 ppm of m/z 500 is 0.01 Da; without ppm the interval is taken as it is. */
  lemma DaToleranceExample()
    ensures DaTolerance(500.0, 20.0, true) == 0.01
    ensures forall mz: real, interval: real :: DaTolerance(mz, interval, false) == interval
  {
  }

  /**
   * When a precursor can be matched at all: a positive interval gives a
   * positive tolerance, in ppm for a positive m/z; an interval that is not
   * positive gives none for a non-negative m/z, and then (by
   * NoMatchWithoutTolerance) the search finds nothing.
   */
  lemma DaTolerancePositive(mz: real, interval: real, ppm: bool)
    ensures interval > 0.0 && (ppm ==> mz > 0.0) ==> DaTolerance(mz, interval, ppm) > 0.0
    ensures interval <= 0.0 && (ppm ==> mz >= 0.0) ==> DaTolerance(mz, interval, ppm) <= 0.0
  {
    if ppm && interval > 0.0 && mz > 0.0 {
      assert mz * interval > 0.0;
    }
    if ppm && interval <= 0.0 && mz >= 0.0 {
      assert mz * interval <= 0.0;
    }
  }

  /** Half-width of the top-peak window around the closest peak. */
  const TopWindow: real := 0.05

  /**
   * iStartInx after ps[0..n): set at an index within 4 tolerances of the
   * target while it is still 0, so a latch at index 0 leaves it 0 and the
   * next such index takes over.
   */
  function StartIndex(ps: seq<Peak>, n: nat, target: real, tol: real): (s: nat)
    requires n <= |ps|
    ensures s == 0 || s < n
  {
    if n == 0 then 0
    else
      var s := StartIndex(ps, n - 1, target, tol);
      if Delta(ps[n - 1], target) < 4.0 * tol && s == 0 then n - 1 else s
  }

  /** The start is the first index from 1 on within 4 tolerances, or 0 when there is none. */
  lemma {:induction false} StartIndexSpec(ps: seq<Peak>, n: nat, target: real, tol: real)
    requires n <= |ps|
    ensures var s := StartIndex(ps, n, target, tol);
      (s == 0 <==> forall j :: 1 <= j < n ==> Delta(ps[j], target) >= 4.0 * tol) &&
      (s != 0 ==> Delta(ps[s], target) < 4.0 * tol && forall j :: 1 <= j < s ==> Delta(ps[j], target) >= 4.0 * tol)
  {
    if n > 0 {
      StartIndexSpec(ps, n - 1, target, tol);
    }
  }

  /** A peak the top-peak pass may take: within 0.05 of `center` and above the MIN_VALUE start. */
  predicate Heavy(ps: seq<Peak>, j: nat, center: real)
    requires j < |ps|
  {
    Abs(ps[j].mz - center) < TopWindow && ps[j].intensity > DoubleMinValue
  }

  /**
   * The index the top-peak loop ends with after ps[from..n): a peak replaces
   * the best so far only when strictly more intense, so the earliest of
   * equally intense peaks stays.
   */
  function Top(ps: seq<Peak>, from: nat, n: nat, center: real): (r: Option<nat>)
    requires from <= n <= |ps|
    ensures r.Some? ==> from <= r.value < n
    decreases n
  {
    if n == from then None
    else
      var prev := Top(ps, from, n - 1, center);
      var best := if prev.Some? then ps[prev.value].intensity else DoubleMinValue;
      var p := ps[n - 1];
      if Abs(p.mz - center) < TopWindow && p.intensity > best then Some(n - 1) else prev
  }

  /** No top peak exactly when no peak of the range is heavy; otherwise the first of the most intense. */
  lemma {:induction false} TopSpec(ps: seq<Peak>, from: nat, n: nat, center: real)
    requires from <= n <= |ps|
    ensures var r := Top(ps, from, n, center);
      (r.None? <==> forall j :: from <= j < n ==> !Heavy(ps, j, center)) &&
      (r.Some? ==> (
        Heavy(ps, r.value, center) &&
        (forall j :: from <= j < n && Heavy(ps, j, center) ==> ps[j].intensity <= ps[r.value].intensity) &&
        (forall j :: from <= j < r.value && Heavy(ps, j, center) ==> ps[j].intensity < ps[r.value].intensity)))
    decreases n
  {
    if n > from {
      TopSpec(ps, from, n - 1, center);
      var prev := Top(ps, from, n - 1, center);
      if prev.None? && !Heavy(ps, n - 1, center) {
        assert forall j :: from <= j < n ==> !Heavy(ps, j, center) by {
          forall j | from <= j < n ensures !Heavy(ps, j, center) {
            if j < n - 1 {
            }
          }
        }
      }
    }
  }

  /** What the summing loop ends with: the intensity sum and the lowest and highest m/z it saw. */
  datatype Gathered = Gathered(sum: real, low: real, high: real)

  /** A peak the summing pass takes: strictly within the tolerance of `center`. */
  predicate Near(ps: seq<Peak>, j: nat, center: real, tol: real)
    requires j < |ps|
  {
    Abs(ps[j].mz - center) < tol
  }

  /** The summing loop over ps[from..n); the low m/z starts at MAX_VALUE, the high one at MIN_VALUE. */
  function Gather(ps: seq<Peak>, from: nat, n: nat, center: real, tol: real): Gathered
    requires from <= n <= |ps|
    decreases n
  {
    if n == from then Gathered(0.0, DoubleMaxValue, DoubleMinValue)
    else
      var g := Gather(ps, from, n - 1, center, tol);
      var p := ps[n - 1];
      if Abs(p.mz - center) < tol then
        Gathered(g.sum + p.intensity, if p.mz < g.low then p.mz else g.low, if p.mz > g.high then p.mz else g.high)
      else g
  }

  /**
   * The low and high m/z bound every near peak, and each is either its
   * sentinel or the m/z of a near peak; the sum is 0 without near peaks and
   * at least each near peak's intensity when no near intensity is negative.
   */
  lemma {:induction false} GatherSpec(ps: seq<Peak>, from: nat, n: nat, center: real, tol: real)
    requires from <= n <= |ps|
    ensures var g := Gather(ps, from, n, center, tol);
      (forall j :: from <= j < n && Near(ps, j, center, tol) ==> g.low <= ps[j].mz) &&
      (forall j :: from <= j < n && Near(ps, j, center, tol) ==> ps[j].mz <= g.high) &&
      g.low <= DoubleMaxValue && DoubleMinValue <= g.high &&
      (g.low == DoubleMaxValue || exists j :: from <= j < n && Near(ps, j, center, tol) && g.low == ps[j].mz) &&
      (g.high == DoubleMinValue || exists j :: from <= j < n && Near(ps, j, center, tol) && g.high == ps[j].mz) &&
      ((forall j :: from <= j < n ==> !Near(ps, j, center, tol)) ==> g == Gathered(0.0, DoubleMaxValue, DoubleMinValue)) &&
      ((forall j :: from <= j < n && Near(ps, j, center, tol) ==> ps[j].intensity >= 0.0) ==>
        g.sum >= 0.0 && forall j :: from <= j < n && Near(ps, j, center, tol) ==> ps[j].intensity <= g.sum)
    decreases n
  {
    if n > from {
      GatherSpec(ps, from, n - 1, center, tol);
    }
  }

  /** A successful search: the closest peak, the start index, the top peak, and what the summing pass gathered. */
  datatype Found = Found(closest: nat, start: nat, top: nat, gathered: Gathered)

  /** findQuantPeakMatch's three passes; None where the source returns null. */
  function MatchOf(dest: Option<seq<Peak>>, target: real, tol: real): (r: Option<Found>)
    ensures r.Some? ==> dest.Some? && r.value.closest < |dest.value| && r.value.top < |dest.value|
  {
    if dest.None? then None
    else
      var ps := dest.value;
      var closest := Closest(ps, |ps|, target, tol);
      if closest.None? then None
      else
        var start := StartIndex(ps, |ps|, target, tol);
        var top := Top(ps, start, |ps|, ps[closest.value].mz);
        if top.None? then None
        else Some(Found(closest.value, start, top.value, Gather(ps, start, |ps|, ps[top.value].mz, tol)))
  }

  /**
   * null exactly when there is no list, no peak strictly within the
   * tolerance, or no heavy peak from the start index on around the closest.
   */
  lemma MatchNone(dest: Option<seq<Peak>>, target: real, tol: real)
    ensures MatchOf(dest, target, tol).None? <==>
      dest.None? ||
      (forall j :: 0 <= j < |dest.value| ==> !Candidate(dest.value, j, target, tol)) ||
      (var ps := dest.value; var c := Closest(ps, |ps|, target, tol);
       c.Some? && forall j :: StartIndex(ps, |ps|, target, tol) <= j < |ps| ==> !Heavy(ps, j, ps[c.value].mz))
  {
    if dest.Some? {
      var ps := dest.value;
      ClosestSpec(ps, |ps|, target, tol);
      var c := Closest(ps, |ps|, target, tol);
      if c.Some? {
        TopSpec(ps, StartIndex(ps, |ps|, target, tol), |ps|, ps[c.value].mz);
      }
    }
  }

  /** A tolerance that is not positive never matches. */
  lemma NoMatchWithoutTolerance(dest: Option<seq<Peak>>, target: real, tol: real)
    requires tol <= 0.0
    ensures MatchOf(dest, target, tol).None?
  {
    if dest.Some? {
      ClosestSpec(dest.value, |dest.value|, target, tol);
    }
  }

  /**
   * On success: the closest peak is the first nearest one within the
   * tolerance (so the tolerance is positive), the top peak is the first most
   * intense heavy peak from the start index on, the top peak is among the
   * summed ones, and the gathered m/z range holds every summed peak.
   */
  lemma MatchSpec(dest: Option<seq<Peak>>, target: real, tol: real)
    requires MatchOf(dest, target, tol).Some?
    ensures dest.Some? && tol > 0.0
    ensures var ps, f := dest.value, MatchOf(dest, target, tol).value;
      f.start == StartIndex(ps, |ps|, target, tol) &&
      Candidate(ps, f.closest, target, tol) &&
      (forall j :: 0 <= j < |ps| && Candidate(ps, j, target, tol) ==> Delta(ps[f.closest], target) <= Delta(ps[j], target)) &&
      (forall j :: 0 <= j < f.closest && Candidate(ps, j, target, tol) ==> Delta(ps[f.closest], target) < Delta(ps[j], target)) &&
      f.start <= f.top && Heavy(ps, f.top, ps[f.closest].mz) &&
      (forall j :: f.start <= j < |ps| && Heavy(ps, j, ps[f.closest].mz) ==> ps[j].intensity <= ps[f.top].intensity) &&
      (forall j :: f.start <= j < f.top && Heavy(ps, j, ps[f.closest].mz) ==> ps[j].intensity < ps[f.top].intensity) &&
      f.gathered == Gather(ps, f.start, |ps|, ps[f.top].mz, tol) &&
      Near(ps, f.top, ps[f.top].mz, tol) &&
      f.gathered.low <= ps[f.top].mz &&
      (forall j :: f.start <= j < |ps| && Near(ps, j, ps[f.top].mz, tol) ==> f.gathered.low <= ps[j].mz)
  {
    var ps := dest.value;
    ClosestSpec(ps, |ps|, target, tol);
    var f := MatchOf(dest, target, tol).value;
    TopSpec(ps, f.start, |ps|, ps[f.closest].mz);
    GatherSpec(ps, f.start, |ps|, ps[f.top].mz, tol);
  }

  /**
   * When the closest peak lies at or after the start index (always unless it
   * is peak 0) and is itself heavy, the search succeeds, and the top peak is
   * at least as intense as the closest one.
   */
  lemma MatchReachesClosest(ps: seq<Peak>, target: real, tol: real)
    requires Closest(ps, |ps|, target, tol).Some?
    requires var c := Closest(ps, |ps|, target, tol).value; c >= 1 && ps[c].intensity > DoubleMinValue
    ensures var c := Closest(ps, |ps|, target, tol).value;
      StartIndex(ps, |ps|, target, tol) <= c &&
      MatchOf(Some(ps), target, tol).Some? &&
      ps[c].intensity <= ps[MatchOf(Some(ps), target, tol).value.top].intensity
  {
    var c := Closest(ps, |ps|, target, tol).value;
    ClosestSpec(ps, |ps|, target, tol);
    StartIndexSpec(ps, |ps|, target, tol);
    var s := StartIndex(ps, |ps|, target, tol);
    assert Delta(ps[c], target) < 4.0 * tol;
    assert s <= c;
    assert Heavy(ps, c, ps[c].mz);
    TopSpec(ps, s, |ps|, ps[c].mz);
  }

  /**
   * Because the start latch skips index 0, an exact hit at peak 0 is not
   * searched from when peak 1 lies within 4 tolerances: with peaks at 500.10
   * and 500.30 and a tolerance of 0.1, the search for 500.10 returns null.
   */
  lemma ExactHitMissed()
    ensures var ps := [NewPeak(1, 500.10, 10.0), NewPeak(2, 500.30, 5.0)];
      Closest(ps, 2, 500.10, 0.1) == Some(0) && StartIndex(ps, 2, 500.10, 0.1) == 1 &&
      MatchOf(Some(ps), 500.10, 0.1).None?
  {
    var ps := [NewPeak(1, 500.10, 10.0), NewPeak(2, 500.30, 5.0)];
    assert Closest(ps, 1, 500.10, 0.1) == Some(0);
    assert StartIndex(ps, 1, 500.10, 0.1) == 0;
    assert Top(ps, 1, 1, 500.10) == None;
    SentinelBounds();
  }

  /**
   * The worked example: target 500.10 with tolerance 0.05 over peaks
   * (499.90, 10), (500.08, 50), (500.11, 80), (500.40, 5). The closest and top
   * peak is 500.11, the search starts at index 1, and the summing pass adds
   * 50 and 80 over m/z 500.08 to 500.11.
   */
  lemma MatchExample()
    ensures var ps := [NewPeak(1, 499.90, 10.0), NewPeak(2, 500.08, 50.0), NewPeak(3, 500.11, 80.0), NewPeak(4, 500.40, 5.0)];
      MatchOf(Some(ps), 500.10, 0.05) == Some(Found(2, 1, 2, Gathered(130.0, 500.08, 500.11)))
  {
    var ps := [NewPeak(1, 499.90, 10.0), NewPeak(2, 500.08, 50.0), NewPeak(3, 500.11, 80.0), NewPeak(4, 500.40, 5.0)];
    SentinelBounds();
    assert Closest(ps, 1, 500.10, 0.05) == None;
    assert Closest(ps, 2, 500.10, 0.05) == Some(1);
    assert Closest(ps, 3, 500.10, 0.05) == Some(2);
    assert Closest(ps, 4, 500.10, 0.05) == Some(2);
    assert StartIndex(ps, 1, 500.10, 0.05) == 0;
    assert StartIndex(ps, 2, 500.10, 0.05) == 1;
    assert StartIndex(ps, 4, 500.10, 0.05) == 1;
    assert Top(ps, 1, 2, 500.11) == Some(1);
    assert Top(ps, 1, 3, 500.11) == Some(2);
    assert Top(ps, 1, 4, 500.11) == Some(2);
    assert Gather(ps, 1, 2, 500.11, 0.05) == Gathered(50.0, 500.08, 500.08);
    assert Gather(ps, 1, 3, 500.11, 0.05) == Gathered(130.0, 500.08, 500.11);
    assert Gather(ps, 1, 4, 500.11, 0.05) == Gathered(130.0, 500.08, 500.11);
  }
}
