/**
 * The external-quantitation containers: QuantPeak (one precursor m/z and the
 * matches found for it), QuantPeakMatch (one match, tied to its QuantPeak)
 * and QuantPeakData (the peaks read from one scan). All are mutable objects
 * with setters; findQuantPeakMatch builds a match and writes the summed
 * intensity back into the QuantPeak it is given.
 */
module QuantData {
  import opened Wrappers
  import opened Numeric
  import opened Records
  import opened PeakLists
  import opened QuantSearch

  /** The scalar fields of a QuantPeak, read together. */
  datatype PeakFields = PeakFields(
    massMonoIsotopic: Option<real>,
    massAveragine: Option<real>,
    mz: Option<real>,
    sumIntensity: Option<real>)

  const NoPeakFields := PeakFields(None, None, None, None)

  class QuantPeak {
    var massMonoIsotopic: Option<real>
    var massAveragine: Option<real>
    var mz: Option<real>
    var sumIntensity: Option<real>
    var matches: seq<QuantPeakMatch>

    function Fields(): PeakFields
      reads this
    {
      PeakFields(massMonoIsotopic, massAveragine, mz, sumIntensity)
    }

    /** A fresh QuantPeak: every mass null, no matches. */
    constructor()
      ensures Fields() == NoPeakFields && matches == []
    {
      massMonoIsotopic, massAveragine, mz, sumIntensity := None, None, None, None;
      matches := [];
    }

    method SetSumIntensity(x: Option<real>)
      modifies this
      ensures Fields() == old(Fields()).(sumIntensity := x) && matches == old(matches)
    {
      sumIntensity := x;
    }

    method SetMz(x: Option<real>)
      modifies this
      ensures Fields() == old(Fields()).(mz := x) && matches == old(matches)
    {
      mz := x;
    }

    method SetMassMonoIsotopic(x: Option<real>)
      modifies this
      ensures Fields() == old(Fields()).(massMonoIsotopic := x) && matches == old(matches)
    {
      massMonoIsotopic := x;
    }

    method SetMassAveragine(x: Option<real>)
      modifies this
      ensures Fields() == old(Fields()).(massAveragine := x) && matches == old(matches)
    {
      massAveragine := x;
    }

    method SetMatch(list: seq<QuantPeakMatch>)
      modifies this
      ensures matches == list && Fields() == old(Fields())
    {
      matches := list;
    }

    /** add: the match goes at the end of the list; the list accepts it. */
    method Add(m: QuantPeakMatch) returns (added: bool)
      modifies this
      ensures added && matches == old(matches) + [m] && Fields() == old(Fields())
    {
      matches := matches + [m];
      added := true;
    }

    /** getQuantPeakData: a new QuantPeak for the given m/z, with no matches. */
    static method GetQuantPeakData(x: real) returns (qp: QuantPeak)
      ensures fresh(qp) && qp.Fields() == NoPeakFields.(mz := Some(x)) && qp.matches == []
    {
      qp := new QuantPeak();
      qp.SetMz(Some(x));
    }
  }

  /** The scalar fields of a QuantPeakMatch, read together. */
  datatype MatchFields = MatchFields(
    charge: Option<int>,
    mzMostAbundant: Option<real>,
    intensitySum: Option<real>,
    minMz: Option<real>,
    maxMz: Option<real>)

  const NoMatchFields := MatchFields(None, None, None, None, None)

  /**
   * The fields findQuantPeakMatch gives a new match: charge -1, the top
   * peak's m/z and intensity, the gathered m/z range widened by `tol`.
   */
  function FoundFields(ps: seq<Peak>, f: Found, tol: real): MatchFields
    requires f.top < |ps|
  {
    MatchFields(Some(-1), Some(ps[f.top].mz), Some(ps[f.top].intensity),
                Some(f.gathered.low - tol), Some(f.gathered.high + tol))
  }

  /** compareTo on two non-null minMz values: -1, 0 or 1. */
  function CompareMz(a: real, b: real): int
  {
    if a < b then -1 else if a > b then 1 else 0
  }

  /** The comparison is the numeric order of minMz, and antisymmetric. */
  lemma CompareMzSpec(a: real, b: real)
    ensures CompareMz(a, b) in {-1, 0, 1}
    ensures (CompareMz(a, b) < 0 <==> a < b) && (CompareMz(a, b) == 0 <==> a == b) && (CompareMz(a, b) > 0 <==> a > b)
    ensures CompareMz(b, a) == -CompareMz(a, b)
  {
  }

  /** Ordering by "compares at most 0" is transitive. */
  lemma CompareMzTransitive(a: real, b: real, c: real)
    requires CompareMz(a, b) <= 0 && CompareMz(b, c) <= 0
    ensures CompareMz(a, c) <= 0
  {
  }

  class QuantPeakMatch {
    var charge: Option<int>
    var mzMostAbundant: Option<real>
    var intensitySum: Option<real>
    var minMz: Option<real>
    var maxMz: Option<real>
    const parent: QuantPeak

    function Fields(): MatchFields
      reads this
    {
      MatchFields(charge, mzMostAbundant, intensitySum, minMz, maxMz)
    }

    /** A fresh match for `parent`, every field null. */
    constructor(parent: QuantPeak)
      ensures this.parent == parent && Fields() == NoMatchFields
    {
      this.parent := parent;
      charge, mzMostAbundant, intensitySum, minMz, maxMz := None, None, None, None, None;
    }

    method SetCharge(x: Option<int>)
      modifies this
      ensures Fields() == old(Fields()).(charge := x)
    {
      charge := x;
    }

    method SetMzMostAbundant(x: Option<real>)
      modifies this
      ensures Fields() == old(Fields()).(mzMostAbundant := x)
    {
      mzMostAbundant := x;
    }

    method SetIntensitySum(x: Option<real>)
      modifies this
      ensures Fields() == old(Fields()).(intensitySum := x)
    {
      intensitySum := x;
    }

    method SetMinMz(x: Option<real>)
      modifies this
      ensures Fields() == old(Fields()).(minMz := x)
    {
      minMz := x;
    }

    method SetMaxMz(x: Option<real>)
      modifies this
      ensures Fields() == old(Fields()).(maxMz := x)
    {
      maxMz := x;
    }

    /** compareTo: by minMz; None when either is null (the unboxing throws). */
    function CompareTo(o: QuantPeakMatch): (c: Option<int>)
      reads this, o
      ensures c.None? <==> minMz.None? || o.minMz.None?
      ensures c.Some? ==>
        (c.value == -1 <==> minMz.value < o.minMz.value) &&
        (c.value == 0 <==> minMz.value == o.minMz.value) &&
        (c.value == 1 <==> minMz.value > o.minMz.value)
    {
      if minMz.None? || o.minMz.None? then None else Some(CompareMz(minMz.value, o.minMz.value))
    }

    /**
     * setMinMax: sets the bounds of `m` (not of this match) to the m/z minus
     * and plus the tolerance getDaTolerance would give. A null m/z throws on
     * unboxing before either bound is set.
     */
    method SetMinMax(m: QuantPeakMatch, mostAbundant: Option<real>, interval: real, ppm: bool) returns (thrown: bool)
      modifies m
      ensures thrown <==> mostAbundant.None?
      ensures thrown ==> m.Fields() == old(m.Fields())
      ensures !thrown ==> var x, t := mostAbundant.value, DaTolerance(mostAbundant.value, interval, ppm);
        m.Fields() == old(m.Fields()).(minMz := Some(x - t), maxMz := Some(x + t))
    {
      if mostAbundant.None? {
        return true;
      }
      var x := mostAbundant.value;
      var t: real;
      if ppm {
        t := x * interval / 1000000.0;
      } else {
        t := interval;
      }
      assert t == DaTolerance(x, interval, ppm);
      m.SetMinMz(Some(x - t));
      m.SetMaxMz(Some(x + t));
      thrown := false;
    }

    /**
     * findQuantPeakMatch: null when MatchOf finds nothing, leaving `qp`
     * alone; otherwise a new match for `qp` carrying the top peak's m/z and
     * intensity, the gathered m/z range widened by the tolerance on each
     * side and charge -1, with the gathered intensity sum written into `qp`.
     */
    static method FindQuantPeakMatch(qp: QuantPeak, target: real, dest: Option<seq<Peak>>, tol: real)
        returns (m: QuantPeakMatch?)
      modifies qp
      ensures var r := MatchOf(dest, target, tol);
        (m == null <==> r.None?) &&
        (r.None? ==> qp.Fields() == old(qp.Fields()) && qp.matches == old(qp.matches)) &&
        (r.Some? ==> var ps, f := dest.value, r.value;
          m != null && fresh(m) && m.parent == qp &&
          m.Fields() == FoundFields(ps, f, tol) &&
          qp.Fields() == old(qp.Fields()).(sumIntensity := Some(f.gathered.sum)) && qp.matches == old(qp.matches))
    {
      if dest.None? {
        return null;
      }
      var ps := dest.value;
      var start, closest := FirstPass(ps, target, tol);
      if closest.None? {
        return null;
      }
      var top := TopPass(ps, start, ps[closest.value].mz);
      if top.None? {
        return null;
      }
      var topPeak := ps[top.value];
      m := new QuantPeakMatch(qp);
      m.SetMzMostAbundant(Some(topPeak.mz));
      var g := GatherPass(ps, start, topPeak.mz, tol);
      m.parent.SetSumIntensity(Some(g.sum));
      m.SetIntensitySum(Some(topPeak.intensity));
      m.SetMaxMz(Some(g.high + tol));
      m.SetMinMz(Some(g.low - tol));
      m.SetCharge(Some(-1));
    }
  }

  /** The first loop of findQuantPeakMatch: the start index and the closest peak within the tolerance. */
  method FirstPass(ps: seq<Peak>, target: real, tol: real) returns (start: nat, closest: Option<nat>)
    ensures start == StartIndex(ps, |ps|, target, tol) && closest == Closest(ps, |ps|, target, tol)
  {
    start, closest := 0, None;
    var minDelta := DoubleMaxValue;
    var i := 0;
    while i < |ps|
      invariant 0 <= i <= |ps|
      invariant start == StartIndex(ps, i, target, tol)
      invariant closest == Closest(ps, i, target, tol)
      invariant minDelta == if closest.Some? then Delta(ps[closest.value], target) else DoubleMaxValue
    {
      var d := Abs(ps[i].mz - target);
      if d < 4.0 * tol && start == 0 {
        start := i;
      }
      if d < tol && d < minDelta {
        closest := Some(i);
        minDelta := d;
      }
      i := i + 1;
    }
  }

  /** The second loop: the most intense peak from `start` on within 0.05 of `center`. */
  method TopPass(ps: seq<Peak>, start: nat, center: real) returns (top: Option<nat>)
    requires start <= |ps|
    ensures top == Top(ps, start, |ps|, center)
  {
    var maxInt := DoubleMinValue;
    top := None;
    var i := start;
    while i < |ps|
      invariant start <= i <= |ps|
      invariant top == Top(ps, start, i, center)
      invariant maxInt == if top.Some? then ps[top.value].intensity else DoubleMinValue
    {
      if Abs(ps[i].mz - center) < TopWindow && ps[i].intensity > maxInt {
        maxInt := ps[i].intensity;
        top := Some(i);
      }
      i := i + 1;
    }
  }

  /** The third loop: intensity sum and m/z range of the peaks from `start` on within `tol` of `center`. */
  method GatherPass(ps: seq<Peak>, start: nat, center: real, tol: real) returns (g: Gathered)
    requires start <= |ps|
    ensures g == Gather(ps, start, |ps|, center, tol)
  {
    var sum, low, high := 0.0, DoubleMaxValue, DoubleMinValue;
    var i := start;
    while i < |ps|
      invariant start <= i <= |ps|
      invariant Gathered(sum, low, high) == Gather(ps, start, i, center, tol)
    {
      if Abs(ps[i].mz - center) < tol {
        sum := sum + ps[i].intensity;
        if ps[i].mz < low {
          low := ps[i].mz;
        }
        if ps[i].mz > high {
          high := ps[i].mz;
        }
      }
      i := i + 1;
    }
    g := Gathered(sum, low, high);
  }

  /** The scalar fields of a QuantPeakData, read together. */
  datatype DataFields = DataFields(scanNo: int, retentionTime: real, maxIntensity: real)

  /** The defaults: scan -1, retention time -1.0, maximum intensity 0.0. */
  const DefaultDataFields := DataFields(-1, -1.0, 0.0)

  /** The matches of the peaks, peak by peak, each peak's in its own order. */
  function AllMatches(ps: seq<QuantPeak>): seq<QuantPeakMatch>
    reads ps
  {
    if |ps| == 0 then [] else AllMatches(ps[..|ps| - 1]) + ps[|ps| - 1].matches
  }

  /** The number of matches over the peaks. */
  function MatchCount(ps: seq<QuantPeak>): nat
    reads ps
  {
    if |ps| == 0 then 0 else |ps[0].matches| + MatchCount(ps[1..])
  }

  /** Collecting over two runs of peaks is collecting over each, one after the other. */
  lemma {:induction false} AllMatchesAppend(ps: seq<QuantPeak>, qs: seq<QuantPeak>)
    ensures AllMatches(ps + qs) == AllMatches(ps) + AllMatches(qs)
    decreases |qs|
  {
    if |qs| > 0 {
      var q := qs[..|qs| - 1];
      assert (ps + qs)[..|ps + qs| - 1] == ps + q;
      AllMatchesAppend(ps, q);
    } else {
      assert ps + qs == ps;
    }
  }

  /** The collected list is as long as the per-peak counts add up to. */
  lemma {:induction false} AllMatchesLength(ps: seq<QuantPeak>)
    ensures |AllMatches(ps)| == MatchCount(ps)
    decreases |ps|
  {
    if |ps| > 0 {
      AllMatchesAppend([ps[0]], ps[1..]);
      assert [ps[0]] + ps[1..] == ps;
      assert [ps[0]][..0] == [];
      AllMatchesLength(ps[1..]);
    }
  }

  /** A match is collected exactly when some peak holds it. */
  lemma {:induction false} AllMatchesMembers(ps: seq<QuantPeak>, m: QuantPeakMatch)
    ensures m in AllMatches(ps) <==> exists k :: 0 <= k < |ps| && m in ps[k].matches
    decreases |ps|
  {
    if |ps| > 0 {
      var init := ps[..|ps| - 1];
      AllMatchesMembers(init, m);
      if m in ps[|ps| - 1].matches {
      } else if exists k :: 0 <= k < |ps| && m in ps[k].matches {
        var k :| 0 <= k < |ps| && m in ps[k].matches;
        assert init[k] == ps[k];
      }
    }
  }

  class QuantPeakData {
    var peaks: seq<QuantPeak>
    var scanNo: int
    var retentionTime: real
    var maxIntensity: real

    function Fields(): DataFields
      reads this
    {
      DataFields(scanNo, retentionTime, maxIntensity)
    }

    /** A fresh container: no peaks and the default scan, time and intensity. */
    constructor()
      ensures Fields() == DefaultDataFields && peaks == []
    {
      peaks := [];
      scanNo, retentionTime, maxIntensity := -1, -1.0, 0.0;
    }

    method SetMaxIntensity(x: real)
      modifies this
      ensures Fields() == old(Fields()).(maxIntensity := x) && peaks == old(peaks)
    {
      maxIntensity := x;
    }

    method SetScanNo(n: int)
      modifies this
      ensures Fields() == old(Fields()).(scanNo := n) && peaks == old(peaks)
    {
      scanNo := n;
    }

    method SetRetentionTime(t: real)
      modifies this
      ensures Fields() == old(Fields()).(retentionTime := t) && peaks == old(peaks)
    {
      retentionTime := t;
    }

    method SetPeaks(list: seq<QuantPeak>)
      modifies this
      ensures peaks == list && Fields() == old(Fields())
    {
      peaks := list;
    }

    /** add: the peak goes at the end; the earlier peaks stay as they were. */
    method Add(p: QuantPeak) returns (added: bool)
      modifies this
      ensures added && peaks == old(peaks) + [p] && Fields() == old(Fields())
    {
      peaks := peaks + [p];
      added := true;
    }

    /** generateAllMatches: every peak's matches, in peak order and not re-sorted; nothing is changed. */
    method GenerateAllMatches() returns (all: seq<QuantPeakMatch>)
      ensures all == AllMatches(peaks)
    {
      all := [];
      var k := 0;
      while k < |peaks|
        invariant 0 <= k <= |peaks|
        invariant all == AllMatches(peaks[..k])
      {
        var ms := peaks[k].matches;
        var j := 0;
        while j < |ms|
          invariant 0 <= j <= |ms|
          invariant all == AllMatches(peaks[..k]) + ms[..j]
        {
          all := all + [ms[j]];
          assert ms[..j + 1] == ms[..j] + [ms[j]];
          j := j + 1;
        }
        assert ms[..j] == ms;
        assert peaks[..k + 1][..k] == peaks[..k];
        k := k + 1;
      }
      assert peaks[..k] == peaks;
    }
  }
}
