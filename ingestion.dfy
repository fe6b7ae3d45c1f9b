/**
 * The peak loop of setPeakList and of its copies inside the scan builders:
 * from the parser's m/z and intensity rows it creates one Peak per
 * positive intensity, numbered by its position in the raw rows, and sets
 * the scan's totals and, when they are not positive, its m/z range.
 */
module Ingestion {
  import opened Wrappers
  import opened Numeric
  import opened Spectra
  import opened Records

  /** The state of the loop: peaks allocated so far, those added to the list, low/high m/z, intensity sum. */
  datatype Ingested = Ingested(peaks: seq<Peak>, added: seq<PeakRef>, low: real, high: real, total: real)

  /** The peak made from raw position j: id j + 1, relative intensity against the most abundant peak. */
  function PeakAt(a: MassIntensityList, mostAbundant: real, j: nat): (p: Peak)
    requires j < |a.mz| && mostAbundant > 0.0
    ensures p.id == j + 1 && p.mz == a.mz[j] && p.intensity == a.intensity[j] && !p.isPrecursor
  {
    NewPeak(j + 1, a.mz[j], a.intensity[j]).(relativeIntensity := Some(a.intensity[j] / mostAbundant))
  }

  /** The loop after raw positions 0..n-1 (n = the row length when it runs to the end). */
  function IngestUpTo(peaks0: seq<Peak>, a: MassIntensityList, mostAbundant: real, addPeaks: bool, n: nat): Ingested
    requires n <= |a.mz| && mostAbundant > 0.0
  {
    if n == 0 then Ingested(peaks0, [], DoubleMaxValue, DoubleMinValue, 0.0)
    else
      var st := IngestUpTo(peaks0, a, mostAbundant, addPeaks, n - 1);
      var j := n - 1;
      if a.intensity[j] <= 0.0 then st
      else
        var mz := a.mz[j];
        Ingested(st.peaks + [PeakAt(a, mostAbundant, j)],
          if addPeaks then st.added + [|st.peaks|] else st.added,
          if st.low > mz then mz else st.low,
          if st.high < mz then mz else st.high,
          st.total + a.intensity[j])
  }

  function SumIntensity(ps: seq<Peak>): real
  {
    if |ps| == 0 then 0.0 else SumIntensity(ps[..|ps| - 1]) + ps[|ps| - 1].intensity
  }

  /** Earlier allocations are kept: the loop only appends to the peak store. */
  lemma {:induction false} IngestKeepsStore(peaks0: seq<Peak>, a: MassIntensityList, mostAbundant: real, addPeaks: bool, n: nat)
    requires n <= |a.mz| && mostAbundant > 0.0
    ensures peaks0 <= IngestUpTo(peaks0, a, mostAbundant, addPeaks, n).peaks
    ensures |IngestUpTo(peaks0, a, mostAbundant, addPeaks, n).peaks| <= |peaks0| + n
  {
    if n > 0 {
      IngestKeepsStore(peaks0, a, mostAbundant, addPeaks, n - 1);
    }
  }

  /**
   * Every new peak is the one made from a raw position below n whose
   * intensity is positive (its id names the position), in raw order.
   */
  lemma {:induction false} IngestNewPeaks(peaks0: seq<Peak>, a: MassIntensityList, mostAbundant: real, addPeaks: bool, n: nat)
    requires n <= |a.mz| && mostAbundant > 0.0
    ensures var ps := IngestUpTo(peaks0, a, mostAbundant, addPeaks, n).peaks;
      (forall k :: |peaks0| <= k < |ps| ==>
        1 <= ps[k].id <= n && a.intensity[ps[k].id - 1] > 0.0 && ps[k] == PeakAt(a, mostAbundant, ps[k].id - 1)) &&
      (forall k, k' :: |peaks0| <= k < k' < |ps| ==> ps[k].id < ps[k'].id)
  {
    if n > 0 {
      IngestNewPeaks(peaks0, a, mostAbundant, addPeaks, n - 1);
      IngestKeepsStore(peaks0, a, mostAbundant, addPeaks, n - 1);
    }
  }

  /** No positive intensity is dropped: each one below n has its peak in the store, at k. */
  lemma {:induction false} IngestComplete(peaks0: seq<Peak>, a: MassIntensityList, mostAbundant: real, addPeaks: bool, n: nat, j: nat)
      returns (k: nat)
    requires n <= |a.mz| && mostAbundant > 0.0 && j < n && a.intensity[j] > 0.0
    ensures var ps := IngestUpTo(peaks0, a, mostAbundant, addPeaks, n).peaks;
      |peaks0| <= k < |ps| && ps[k] == PeakAt(a, mostAbundant, j)
  {
    IngestKeepsStore(peaks0, a, mostAbundant, addPeaks, n - 1);
    var prev := IngestUpTo(peaks0, a, mostAbundant, addPeaks, n - 1).peaks;
    if j == n - 1 {
      k := |prev|;
    } else {
      k := IngestComplete(peaks0, a, mostAbundant, addPeaks, n - 1, j);
    }
  }

  /**
   * The store `ps` from position `from` on is exactly what the peak loop
   * makes of raw positions 0 .. n - 1: one peak per positive intensity, in
   * raw order, each the peak made from its position.
   */
  ghost predicate PositivePeaks(ps: seq<Peak>, from: nat, a: MassIntensityList, mostAbundant: real, n: nat)
    requires n <= |a.mz| && mostAbundant > 0.0
  {
    (forall k :: from <= k < |ps| ==>
      1 <= ps[k].id <= n && a.intensity[ps[k].id - 1] > 0.0 && ps[k] == PeakAt(a, mostAbundant, ps[k].id - 1)) &&
    (forall k, k' :: from <= k < k' < |ps| ==> ps[k].id < ps[k'].id) &&
    (forall j :: 0 <= j < n && a.intensity[j] > 0.0 ==> exists k :: from <= k < |ps| && ps[k].id == j + 1)
  }

  /** The new part of the store is the positive peaks of raw positions below n. */
  lemma IngestMade(peaks0: seq<Peak>, a: MassIntensityList, mostAbundant: real, addPeaks: bool, n: nat)
    requires n <= |a.mz| && mostAbundant > 0.0
    ensures var ps := IngestUpTo(peaks0, a, mostAbundant, addPeaks, n).peaks;
      |peaks0| <= |ps| && PositivePeaks(ps, |peaks0|, a, mostAbundant, n)
  {
    IngestKeepsStore(peaks0, a, mostAbundant, addPeaks, n);
    IngestNewPeaks(peaks0, a, mostAbundant, addPeaks, n);
    var ps := IngestUpTo(peaks0, a, mostAbundant, addPeaks, n).peaks;
    forall j | 0 <= j < n && a.intensity[j] > 0.0
      ensures exists k :: |peaks0| <= k < |ps| && ps[k].id == j + 1
    {
      var q := IngestComplete(peaks0, a, mostAbundant, addPeaks, n, j);
      assert ps[q].id == j + 1;
    }
  }

  /** The list gains exactly the new peaks, in order, when peaks are added, and nothing otherwise. */
  lemma {:induction false} IngestAdded(peaks0: seq<Peak>, a: MassIntensityList, mostAbundant: real, addPeaks: bool, n: nat)
    requires n <= |a.mz| && mostAbundant > 0.0
    ensures var st := IngestUpTo(peaks0, a, mostAbundant, addPeaks, n);
      (addPeaks ==> |st.added| == |st.peaks| - |peaks0| && forall k :: 0 <= k < |st.added| ==> st.added[k] == |peaks0| + k) &&
      (!addPeaks ==> st.added == [])
  {
    if n > 0 {
      IngestAdded(peaks0, a, mostAbundant, addPeaks, n - 1);
      IngestKeepsStore(peaks0, a, mostAbundant, addPeaks, n - 1);
    }
  }

  /**
   * The low/high m/z bound every new peak and are attained by one, or are
   * still the MAX_VALUE / MIN_VALUE starts; with no new peak they are both starts.
   */
  lemma {:induction false} IngestBounds(peaks0: seq<Peak>, a: MassIntensityList, mostAbundant: real, addPeaks: bool, n: nat)
    requires n <= |a.mz| && mostAbundant > 0.0
    ensures var st := IngestUpTo(peaks0, a, mostAbundant, addPeaks, n);
      (forall k :: |peaks0| <= k < |st.peaks| ==> st.low <= st.peaks[k].mz <= st.high) &&
      (|st.peaks| == |peaks0| ==> st.low == DoubleMaxValue && st.high == DoubleMinValue) &&
      (st.low == DoubleMaxValue || exists k :: |peaks0| <= k < |st.peaks| && st.low == st.peaks[k].mz) &&
      (st.high == DoubleMinValue || exists k :: |peaks0| <= k < |st.peaks| && st.high == st.peaks[k].mz)
  {
    if n > 0 {
      IngestBounds(peaks0, a, mostAbundant, addPeaks, n - 1);
      IngestKeepsStore(peaks0, a, mostAbundant, addPeaks, n - 1);
      var st := IngestUpTo(peaks0, a, mostAbundant, addPeaks, n - 1);
      var st' := IngestUpTo(peaks0, a, mostAbundant, addPeaks, n);
      if a.intensity[n - 1] > 0.0 {
        var top := |st'.peaks| - 1;
        if st'.low != DoubleMaxValue && st'.low != st'.peaks[top].mz {
          var k :| |peaks0| <= k < |st.peaks| && st.low == st.peaks[k].mz;
          assert st'.low == st'.peaks[k].mz;
        }
        if st'.high != DoubleMinValue && st'.high != st'.peaks[top].mz {
          var k :| |peaks0| <= k < |st.peaks| && st.high == st.peaks[k].mz;
          assert st'.high == st'.peaks[k].mz;
        }
      }
    }
  }

  /** The total is the intensity sum of the new peaks. */
  lemma {:induction false} IngestTotal(peaks0: seq<Peak>, a: MassIntensityList, mostAbundant: real, addPeaks: bool, n: nat)
    requires n <= |a.mz| && mostAbundant > 0.0
    ensures var st := IngestUpTo(peaks0, a, mostAbundant, addPeaks, n);
      |peaks0| <= |st.peaks| && st.total == SumIntensity(st.peaks[|peaks0|..])
  {
    IngestKeepsStore(peaks0, a, mostAbundant, addPeaks, n);
    if n > 0 {
      IngestTotal(peaks0, a, mostAbundant, addPeaks, n - 1);
      IngestKeepsStore(peaks0, a, mostAbundant, addPeaks, n - 1);
      var st := IngestUpTo(peaks0, a, mostAbundant, addPeaks, n - 1);
      if a.intensity[n - 1] > 0.0 {
        var ps := st.peaks + [PeakAt(a, mostAbundant, n - 1)];
        assert ps[|peaks0|..][..|ps[|peaks0|..]| - 1] == st.peaks[|peaks0|..];
      }
    }
  }

  /** New refs are in range: the scan lists stay valid after the loop. */
  lemma IngestRefsOk(peaks0: seq<Peak>, a: MassIntensityList, mostAbundant: real, addPeaks: bool, n: nat)
    requires n <= |a.mz| && mostAbundant > 0.0
    ensures var st := IngestUpTo(peaks0, a, mostAbundant, addPeaks, n);
      |peaks0| <= |st.peaks| && forall k :: 0 <= k < |st.added| ==> st.added[k] < |st.peaks|
  {
    IngestKeepsStore(peaks0, a, mostAbundant, addPeaks, n);
    IngestAdded(peaks0, a, mostAbundant, addPeaks, n);
  }

  /** The first peak position in 0..n-1 at which the poll reports a cancellation. */
  function StopFrom(canceled: Poll -> bool, i: int, j: nat, n: nat): (r: Option<nat>)
    ensures r.Some? ==> j <= r.value < n && canceled(AtPeak(i, r.value))
    ensures r.Some? ==> forall j' :: j <= j' < r.value ==> !canceled(AtPeak(i, j'))
    ensures r.None? ==> forall j' :: j <= j' < n ==> !canceled(AtPeak(i, j'))
    decreases n - j
  {
    if j >= n then None
    else if canceled(AtPeak(i, j)) then Some(j)
    else StopFrom(canceled, i, j + 1, n)
  }

  /**
   * The peak loop, polling for cancellation at each position when `polls`;
   * a cancellation leaves the loop with what it has done so far.
   */
  method IngestPeaks(peaks0: seq<Peak>, a: MassIntensityList, mostAbundant: real, addPeaks: bool,
                     canceled: Poll -> bool, i: int, polls: bool) returns (st: Ingested, stopped: Option<nat>)
    requires mostAbundant > 0.0
    ensures stopped == if polls then StopFrom(canceled, i, 0, |a.mz|) else None
    ensures st == IngestUpTo(peaks0, a, mostAbundant, addPeaks, if stopped.Some? then stopped.value else |a.mz|)
  {
    st := Ingested(peaks0, [], DoubleMaxValue, DoubleMinValue, 0.0);
    var j := 0;
    while j < |a.mz|
      invariant j <= |a.mz|
      invariant st == IngestUpTo(peaks0, a, mostAbundant, addPeaks, j)
      invariant polls ==> StopFrom(canceled, i, 0, |a.mz|) == StopFrom(canceled, i, j, |a.mz|)
    {
      if polls && canceled(AtPeak(i, j)) {
        return st, Some(j);
      }
      if a.intensity[j] > 0.0 {
        var mz := a.mz[j];
        var p := NewPeak(j + 1, mz, a.intensity[j]);
        var low := st.low;
        var high := st.high;
        if low > mz {
          low := mz;
        }
        if high < mz {
          high := mz;
        }
        p := p.(relativeIntensity := Some(p.intensity / mostAbundant));
        var added := st.added;
        if addPeaks {
          added := added + [|st.peaks|];
        }
        st := Ingested(st.peaks + [p], added, low, high, st.total + p.intensity);
      }
      j := j + 1;
    }
    stopped := None;
  }

  /** The scan after a full loop: list extended, start/end replaced only when not positive, totals set. */
  function Finish(s: Scan, a: MassIntensityList, st: Ingested): (s': Scan)
    ensures s'.peaklist == s.peaklist + st.added
    ensures s'.scanStart == (if s.scanStart <= 0.0 then st.low else s.scanStart)
    ensures s'.scanEnd == (if s.scanEnd <= 0.0 then st.high else s.scanEnd)
    ensures s'.totalNumPeaks == Some(|a.mz|) && s'.totalIntensity == Some(st.total)
    ensures s' == s.(peaklist := s'.peaklist, scanStart := s'.scanStart, scanEnd := s'.scanEnd,
                     totalNumPeaks := s'.totalNumPeaks, totalIntensity := s'.totalIntensity)
  {
    s.(peaklist := s.peaklist + st.added,
       scanStart := if s.scanStart <= 0.0 then st.low else s.scanStart,
       scanEnd := if s.scanEnd <= 0.0 then st.high else s.scanEnd,
       totalNumPeaks := Some(|a.mz|),
       totalIntensity := Some(st.total))
  }

  /** A scan whose peaks can be loaded: it exists and its most abundant intensity is positive. */
  ghost predicate Loadable(heap: Heap, r: ScanRef)
  {
    r < |heap.scans| && heap.scans[r].mostAbundantPeak.Some? && heap.scans[r].mostAbundantPeak.value > 0.0
  }

  /**
   * The heap after loading a peak array into scan r, stopped at `stop` or run
   * to the end (then the scan is finished).
   */
  function LoadInto(heap: Heap, r: ScanRef, a: MassIntensityList, addPeaks: bool, stop: Option<nat>): (h': Heap)
    requires HeapOk(heap) && Loadable(heap, r)
    requires stop.Some? ==> stop.value <= |a.mz|
    ensures HeapOk(h') && |h'.scans| == |heap.scans| && |h'.peaks| >= |heap.peaks|
    ensures forall s :: 0 <= s < |heap.scans| && s != r ==> h'.scans[s] == heap.scans[s]
    ensures heap.peaks <= h'.peaks && heap.scans[r].peaklist <= h'.scans[r].peaklist
    ensures var s, s' := heap.scans[r], h'.scans[r];
      s'.scanNo == s.scanNo && s'.msLevel == s.msLevel && s'.parentScan == s.parentScan &&
      s'.mostAbundantPeak == s.mostAbundantPeak && s'.subScans == s.subScans && s'.precursor == s.precursor
  {
    var s := heap.scans[r];
    var m := s.mostAbundantPeak.value;
    var st := IngestUpTo(heap.peaks, a, m, addPeaks, if stop.Some? then stop.value else |a.mz|);
    IngestRefsOk(heap.peaks, a, m, addPeaks, if stop.Some? then stop.value else |a.mz|);
    IngestKeepsStore(heap.peaks, a, m, addPeaks, if stop.Some? then stop.value else |a.mz|);
    var s' := if stop.Some? then s.(peaklist := s.peaklist + st.added) else Finish(s, a, st);
    var h' := Heap(st.peaks, heap.scans[r := s']);
    assert HeapOk(h') by {
      forall q | 0 <= q < |h'.scans| ensures ScanRefsOk(h'.peaks, h'.scans[q]) {
        assert ScanRefsOk(heap.peaks, heap.scans[q]);
        if q == r {
          assert forall k :: 0 <= k < |s'.peaklist| ==> s'.peaklist[k] < |h'.peaks| by {
            assert s'.peaklist == s.peaklist + st.added;
          }
        }
      }
    }
    h'
  }

  /** Loading keeps every stored peak positive or a precursor: the new ones are all positive. */
  lemma LoadIntoPeaksOk(heap: Heap, r: ScanRef, a: MassIntensityList, addPeaks: bool, stop: Option<nat>)
    requires HeapOk(heap) && Loadable(heap, r) && PeaksOk(heap.peaks)
    requires stop.Some? ==> stop.value <= |a.mz|
    ensures PeaksOk(LoadInto(heap, r, a, addPeaks, stop).peaks)
  {
    var m := heap.scans[r].mostAbundantPeak.value;
    var n := if stop.Some? then stop.value else |a.mz|;
    IngestNewPeaks(heap.peaks, a, m, addPeaks, n);
    IngestKeepsStore(heap.peaks, a, m, addPeaks, n);
  }

  /** setPeakList: nothing for a null array; else the polled loop, stopping early on cancellation. */
  function PeakListSet(heap: Heap, r: ScanRef, arrays: Option<MassIntensityList>, addPeaks: bool,
                       canceled: Poll -> bool, i: int): (h': Heap)
    requires HeapOk(heap) && r < |heap.scans| && (arrays.Some? ==> Loadable(heap, r))
    ensures HeapOk(h') && |h'.scans| == |heap.scans|
  {
    if arrays.None? then heap
    else LoadInto(heap, r, arrays.value, addPeaks, StopFrom(canceled, i, 0, |arrays.value.mz|))
  }

  method SetPeakList(heap: Heap, r: ScanRef, arrays: Option<MassIntensityList>, addPeaks: bool,
                     canceled: Poll -> bool, i: int) returns (h': Heap)
    requires HeapOk(heap) && r < |heap.scans| && (arrays.Some? ==> Loadable(heap, r))
    ensures h' == PeakListSet(heap, r, arrays, addPeaks, canceled, i)
  {
    if arrays.None? {
      return heap;
    }
    var a := arrays.value;
    var s := heap.scans[r];
    var st, stopped := IngestPeaks(heap.peaks, a, s.mostAbundantPeak.value, addPeaks, canceled, i, true);
    if stopped.Some? {
      s := s.(peaklist := s.peaklist + st.added);
    } else {
      var start := s.scanStart;
      var end := s.scanEnd;
      if start <= 0.0 {
        start := st.low;
      }
      if end <= 0.0 {
        end := st.high;
      }
      s := s.(peaklist := s.peaklist + st.added, scanStart := start, scanEnd := end,
              totalNumPeaks := Some(|a.mz|), totalIntensity := Some(st.total));
    }
    h' := Heap(st.peaks, heap.scans[r := s]);
  }
}
