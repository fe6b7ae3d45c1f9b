/**
 * The peak-list helpers of MzXmlReader that every scan builder uses:
 * findPeakInPeakList, getPrecursorPeak (and the copies of its body inside the
 * builders), getNewPrecursorPeak, getMostAbundantPeak, setPeakList (and its
 * inlined copies), getScan, and the walk down the levels that picks a parent.
 */
module PeakLists {
  import opened Wrappers
  import opened Numeric
  import opened Spectra
  import opened Records

  function Delta(p: Peak, target: real): real
  {
    Abs(p.mz - target)
  }

  /** A peak the nearest-peak scan may take: closer than `window`, and closer than the MAX_VALUE start. */
  predicate Candidate(ps: seq<Peak>, j: nat, target: real, window: real)
    requires j < |ps|
  {
    Delta(ps[j], target) < window && Delta(ps[j], target) < DoubleMaxValue
  }

  /**
   * The index the nearest-peak loop ends with after ps[0..n): a peak replaces
   * the current best only when strictly closer, so the earliest of equally
   * close peaks stays.
   */
  function Closest(ps: seq<Peak>, n: nat, target: real, window: real): (r: Option<nat>)
    requires n <= |ps|
    ensures r.Some? ==> r.value < n
  {
    if n == 0 then None
    else
      var prev := Closest(ps, n - 1, target, window);
      var best := if prev.Some? then Delta(ps[prev.value], target) else DoubleMaxValue;
      var d := Delta(ps[n - 1], target);
      if d < window && d < best then Some(n - 1) else prev
  }

  /** Nothing is found exactly when no peak is a candidate; otherwise the first of the closest candidates. */
  lemma {:induction false} ClosestSpec(ps: seq<Peak>, n: nat, target: real, window: real)
    requires n <= |ps|
    ensures var r := Closest(ps, n, target, window);
      (r.None? <==> forall j :: 0 <= j < n ==> !Candidate(ps, j, target, window)) &&
      (r.Some? ==> (
        Candidate(ps, r.value, target, window) &&
        (forall j :: 0 <= j < n && Candidate(ps, j, target, window) ==>
          Delta(ps[r.value], target) <= Delta(ps[j], target)) &&
        (forall j :: 0 <= j < r.value && Candidate(ps, j, target, window) ==>
          Delta(ps[r.value], target) < Delta(ps[j], target))))
  {
    if n > 0 {
      ClosestSpec(ps, n - 1, target, window);
      var prev := Closest(ps, n - 1, target, window);
      if prev.None? {
        assert forall j :: 0 <= j < n - 1 ==> !Candidate(ps, j, target, window);
        if !Candidate(ps, n - 1, target, window) {
          assert forall j :: 0 <= j < n ==> !Candidate(ps, j, target, window) by {
            forall j | 0 <= j < n ensures !Candidate(ps, j, target, window) {
              if j < n - 1 {
              }
            }
          }
        }
      }
    }
  }

  /** With findPeakInPeakList's window of 0.5 the MAX_VALUE start never matters. */
  lemma HalfWindowCandidate(ps: seq<Peak>, j: nat, target: real)
    requires j < |ps|
    ensures Candidate(ps, j, target, 0.5) <==> Delta(ps[j], target) < 0.5
  {
    SentinelBounds();
  }

  /** findPeakInPeakList: the position of the peak it returns, None for null. */
  method FindPeakInPeakList(peaks: seq<Peak>, list: seq<PeakRef>, target: real) returns (found: Option<nat>)
    requires forall k :: 0 <= k < |list| ==> list[k] < |peaks|
    ensures found == Closest(Deref(peaks, list), |list|, target, 0.5)
  {
    ghost var ps := Deref(peaks, list);
    var minDelta := DoubleMaxValue;
    found := None;
    var i := 0;
    while i < |list|
      invariant i <= |list|
      invariant found == Closest(ps, i, target, 0.5)
      invariant minDelta == if found.Some? then Delta(ps[found.value], target) else DoubleMaxValue
    {
      var delta := Abs(peaks[list[i]].mz - target);
      if delta < 0.5 && delta < minDelta {
        minDelta := delta;
        found := Some(i);
      }
      i := i + 1;
    }
  }

  /** The peak appended to a parent list that holds none near the precursor m/z. */
  function SynthesizedPrecursor(listSize: int, h: ScanHeader): (p: Peak)
    ensures p.id == listSize + 1 && p.mz == h.precursorMz && p.intensity == 0.0
    ensures p.charge == Some(h.precursorCharge)
  {
    NewPeak(listSize + 1, h.precursorMz, 0.0).(charge := Some(h.precursorCharge))
  }

  /** setIsPrecursor(true) and the three precursor fields copied from the child's header. */
  function MarkPrecursor(p: Peak, h: ScanHeader): Peak
  {
    p.(isPrecursor := true, precursorIntensity := Some(h.precursorIntensity),
       precursorCharge := Some(h.precursorCharge), precursorMz := Some(h.precursorMz))
  }

  /**
   * getPrecursorPeak on a present parent: the parent's closest peak within 0.5
   * of the precursor m/z, or a new zero-intensity peak appended to its list;
   * either way marked as a precursor of the child described by `h`.
   */
  function Anchor(heap: Heap, parent: ScanRef, h: ScanHeader): (r: (Heap, PeakRef))
    requires parent < |heap.scans| && HeapOk(heap)
    ensures |r.0.scans| == |heap.scans| && |heap.peaks| <= |r.0.peaks| && r.1 < |r.0.peaks| && HeapOk(r.0)
  {
    var list := heap.scans[parent].peaklist;
    var found := Closest(Deref(heap.peaks, list), |list|, h.precursorMz, 0.5);
    if found.Some? then
      var ref := list[found.value];
      var peaks := heap.peaks[ref := MarkPrecursor(heap.peaks[ref], h)];
      assert forall s :: 0 <= s < |heap.scans| ==> ScanRefsOk(peaks, heap.scans[s]) by {
        forall s | 0 <= s < |heap.scans| ensures ScanRefsOk(peaks, heap.scans[s]) {
          assert ScanRefsOk(heap.peaks, heap.scans[s]);
        }
      }
      (heap.(peaks := peaks), ref)
    else
      var ref := |heap.peaks|;
      var peaks := heap.peaks + [MarkPrecursor(SynthesizedPrecursor(|list|, h), h)];
      var scans := heap.scans[parent := heap.scans[parent].(peaklist := list + [ref])];
      assert forall s :: 0 <= s < |scans| ==> ScanRefsOk(peaks, scans[s]) by {
        forall s | 0 <= s < |scans| ensures ScanRefsOk(peaks, scans[s]) {
          assert ScanRefsOk(heap.peaks, heap.scans[s]);
        }
      }
      (Heap(peaks, scans), ref)
  }

  /**
   * What anchoring a precursor does: the anchored peak is in the parent's list
   * and carries the child's precursor m/z, intensity and charge; the list
   * grows, by one new zero-intensity peak numbered size + 1, exactly when no
   * peak lies within 0.5; no other scan and no other peak changes.
   */
  lemma AnchorSpec(heap: Heap, parent: ScanRef, h: ScanHeader)
    requires parent < |heap.scans| && HeapOk(heap)
    ensures var (heap', ref) := Anchor(heap, parent, h);
      var list := heap.scans[parent].peaklist;
      var list' := heap'.scans[parent].peaklist;
      ref in list' &&
      heap'.peaks[ref].isPrecursor &&
      heap'.peaks[ref].precursorMz == Some(h.precursorMz) &&
      heap'.peaks[ref].precursorIntensity == Some(h.precursorIntensity) &&
      heap'.peaks[ref].precursorCharge == Some(h.precursorCharge) &&
      ((exists k :: 0 <= k < |list| && Abs(heap.peaks[list[k]].mz - h.precursorMz) < 0.5) <==> list' == list) &&
      (list' != list ==>
        list' == list + [ref] && ref == |heap.peaks| &&
        heap'.peaks[ref].id == |list| + 1 && heap'.peaks[ref].mz == h.precursorMz &&
        heap'.peaks[ref].intensity == 0.0 && heap'.peaks[ref].charge == Some(h.precursorCharge)) &&
      (list' == list ==> |heap'.peaks| == |heap.peaks|) &&
      (forall q :: 0 <= q < |heap.peaks| && q != ref ==> heap'.peaks[q] == heap.peaks[q]) &&
      (forall s :: 0 <= s < |heap.scans| && s != parent ==> heap'.scans[s] == heap.scans[s]) &&
      heap'.scans[parent] == heap.scans[parent].(peaklist := list')
  {
    var list := heap.scans[parent].peaklist;
    var ps := Deref(heap.peaks, list);
    ClosestSpec(ps, |list|, h.precursorMz, 0.5);
    forall k | 0 <= k < |list| ensures Candidate(ps, k, h.precursorMz, 0.5) <==> Abs(heap.peaks[list[k]].mz - h.precursorMz) < 0.5 {
      HalfWindowCandidate(ps, k, h.precursorMz);
    }
    var found := Closest(ps, |list|, h.precursorMz, 0.5);
    if found.None? {
      assert |list + [|heap.peaks|]| != |list|;
    }
  }

  /** getPrecursorPeak: nothing when the parent is null, else `Anchor`. */
  function PrecursorPeak(heap: Heap, parent: Option<ScanRef>, h: ScanHeader): (r: (Heap, Option<PeakRef>))
    requires HeapOk(heap) && (parent.Some? ==> parent.value < |heap.scans|)
    ensures parent.None? ==> r == (heap, None)
    ensures parent.Some? ==> r.1.Some? && (r.0, r.1.value) == Anchor(heap, parent.value, h)
  {
    if parent.None? then (heap, None)
    else
      var (heap', ref) := Anchor(heap, parent.value, h);
      (heap', Some(ref))
  }

  method GetPrecursorPeak(heap: Heap, parent: Option<ScanRef>, h: ScanHeader) returns (heap': Heap, peak: Option<PeakRef>)
    requires HeapOk(heap) && (parent.Some? ==> parent.value < |heap.scans|)
    ensures (heap', peak) == PrecursorPeak(heap, parent, h)
  {
    if parent.None? {
      return heap, None;
    }
    var list := heap.scans[parent.value].peaklist;
    var found := FindPeakInPeakList(heap.peaks, list, h.precursorMz);
    var ref: PeakRef;
    var peaks := heap.peaks;
    var scans := heap.scans;
    if found.None? {
      ref := |peaks|;
      var p := SynthesizedPrecursor(|list|, h);
      peaks := peaks + [p];
      scans := scans[parent.value := scans[parent.value].(peaklist := list + [ref])];
      assert peaks[ref := MarkPrecursor(peaks[ref], h)] == heap.peaks + [MarkPrecursor(p, h)];
    } else {
      ref := list[found.value];
    }
    peaks := peaks[ref := MarkPrecursor(peaks[ref], h)];
    heap' := Heap(peaks, scans);
    peak := Some(ref);
  }

  /** getNewPrecursorPeak: a free-standing precursor peak built from a header alone. */
  function NewPrecursorPeak(h: ScanHeader, useTic: bool): (p: Peak)
    ensures p.isPrecursor && p.id == -1 && p.mz == h.precursorMz
    ensures p.intensity == (if useTic then h.totIonCurrent else h.precursorIntensity)
    ensures p.precursorIntensity == Some(h.precursorIntensity)
    ensures p.precursorCharge.None? <==> h.precursorCharge == -1
    ensures p.precursorCharge.Some? ==> p.precursorCharge.value == h.precursorCharge
  {
    NewPeak(-1, h.precursorMz, if useTic then h.totIonCurrent else h.precursorIntensity).(
      precursorCharge := if h.precursorCharge == -1 then None else Some(h.precursorCharge),
      precursorIntensity := Some(h.precursorIntensity),
      isPrecursor := true)
  }

  /** The running maximum of xs[0..n) from `floor`, replaced only by a strictly larger value. */
  function MaxFrom(xs: seq<real>, n: nat, floor: real): (m: real)
    requires n <= |xs|
    ensures m >= floor
  {
    if n == 0 then floor
    else
      var m := MaxFrom(xs, n - 1, floor);
      if xs[n - 1] > m then xs[n - 1] else m
  }

  lemma {:induction false} MaxFromSpec(xs: seq<real>, n: nat, floor: real)
    requires n <= |xs|
    ensures var m := MaxFrom(xs, n, floor);
      m >= floor && (forall j :: 0 <= j < n ==> xs[j] <= m) &&
      (m == floor || exists j :: 0 <= j < n && m == xs[j])
  {
    if n > 0 {
      MaxFromSpec(xs, n - 1, floor);
    }
  }

  /** getMostAbundantPeak: 0 without a peak array, else the largest intensity, never below MIN_VALUE. */
  function MostAbundant(raw: RawScan): (m: real)
    ensures raw.massIntensity.Some? ==> m >= DoubleMinValue
  {
    match raw.massIntensity
    case None => 0.0
    case Some(a) => MaxFrom(a.intensity, |a.intensity|, DoubleMinValue)
  }

  /** The most abundant intensity bounds every intensity of the scan, and is positive whenever there is an array. */
  lemma MostAbundantSpec(raw: RawScan)
    ensures raw.massIntensity.None? ==> MostAbundant(raw) == 0.0
    ensures raw.massIntensity.Some? ==>
      var a := raw.massIntensity.value;
      MostAbundant(raw) >= DoubleMinValue > 0.0 &&
      (forall j :: 0 <= j < |a.intensity| ==> a.intensity[j] <= MostAbundant(raw)) &&
      (MostAbundant(raw) == DoubleMinValue || exists j :: 0 <= j < |a.intensity| && MostAbundant(raw) == a.intensity[j])
  {
    SentinelBounds();
    if raw.massIntensity.Some? {
      var a := raw.massIntensity.value;
      MaxFromSpec(a.intensity, |a.intensity|, DoubleMinValue);
    }
  }

  method GetMostAbundantPeak(raw: RawScan) returns (m: real)
    ensures m == MostAbundant(raw)
  {
    if raw.massIntensity.None? {
      return 0.0;
    }
    var a := raw.massIntensity.value;
    m := DoubleMinValue;
    var j := 0;
    while j < |a.mz|
      invariant j <= |a.mz|
      invariant m == MaxFrom(a.intensity, j, DoubleMinValue)
    {
      if a.intensity[j] > m {
        m := a.intensity[j];
      }
      j := j + 1;
    }
  }

  /** getScan: null for a null scan; else the header's scan, parent the declared precursor or else `lastPrecursor`. */
  function ScanFor(raw: Option<RawScan>, lastPrecursor: int): (s: Option<Scan>)
    ensures s.None? <==> raw.None?
    ensures s.Some? ==> var h := raw.value.header;
      s.value.scanNo == h.num && s.value.msLevel == h.msLevel &&
      s.value.parentScan == Some(if h.precursorScanNum != -1 then h.precursorScanNum else lastPrecursor) &&
      s.value.mostAbundantPeak == Some(MostAbundant(raw.value)) &&
      s.value.peaklist == [] && s.value.subScans == [] && s.value.precursor.None?
  {
    if raw.None? then None
    else
      var h := raw.value.header;
      Some(ScanOfHeader(h, MostAbundant(raw.value)).(
        parentScan := Some(if h.precursorScanNum != -1 then h.precursorScanNum else lastPrecursor)))
  }

  method GetScan(raw: Option<RawScan>, lastPrecursor: int) returns (s: Option<Scan>)
    ensures s == ScanFor(raw, lastPrecursor)
  {
    if raw.None? {
      return None;
    }
    var m := GetMostAbundantPeak(raw.value);
    var h := raw.value.header;
    var parent := -1;
    if h.precursorScanNum != -1 {
      parent := h.precursorScanNum;
    } else {
      parent := lastPrecursor;
    }
    s := Some(ScanOfHeader(h, m).(parentScan := Some(parent)));
  }

  /**
   * The level whose last scan becomes the parent when the header names none:
   * from one below the scan's own level down, while a level > 1 has no scan yet.
   */
  function ParentLevel(lastOfLevel: map<int, int>, level: int): int
    decreases level
  {
    if level > 1 && level !in lastOfLevel then ParentLevel(lastOfLevel, level - 1) else level
  }

  /** The walk stops at the highest level in 2..level that has a scan, else at 1 (when it starts above 0). */
  lemma {:induction false} ParentLevelSpec(lastOfLevel: map<int, int>, level: int)
    ensures var p := ParentLevel(lastOfLevel, level);
      p <= level && (level >= 1 ==> p >= 1) &&
      (p > 1 ==> p in lastOfLevel) &&
      (forall l :: p < l <= level ==> l !in lastOfLevel)
    decreases level
  {
    if level > 1 && level !in lastOfLevel {
      ParentLevelSpec(lastOfLevel, level - 1);
    }
  }

  method FindParentLevel(lastOfLevel: map<int, int>, level: int) returns (p: int)
    ensures p == ParentLevel(lastOfLevel, level)
  {
    p := level;
    while p > 1 && p !in lastOfLevel
      invariant ParentLevel(lastOfLevel, p) == ParentLevel(lastOfLevel, level)
      decreases p
    {
      p := p - 1;
    }
  }
}
