/**
 * addAllScansMSProfile: the single scan `parentScanNum` with its whole peak
 * list, or the empty list when the parser has no such scan, the scan has no
 * peak array, or the reader is canceled inside the peak loop.
 */
module MsProfile {
  import opened Wrappers
  import opened Numeric
  import opened Spectra
  import opened Records
  import opened PeakLists
  import opened Ingestion
  import opened Assembly

  /** The result of addAllScansMSProfile for scan number n. */
  function Profile(src: Source, canceled: Poll -> bool, n: int): (out: ScanList)
  {
    if n !in src.scans || src.scans[n].massIntensity.None? then EmptyScanList
    else
      var raw := src.scans[n];
      var (heap1, r) := NewScan(EmptyHeap, ScanOfHeader(raw.header, MostAbundant(raw)));
      match LoadPolled(heap1, r, raw, canceled, n)
      case None => EmptyScanList
      case Some(heap') => ScanList(heap'.scans, heap'.peaks)
  }

  /**
   * The list is empty exactly when scan n is absent, has no peak array, or a
   * poll inside its peak loop reports a cancellation.
   */
  lemma ProfileEmpty(src: Source, canceled: Poll -> bool, n: int)
    ensures var out := Profile(src, canceled, n);
      (out.scans == [] <==>
        n !in src.scans || src.scans[n].massIntensity.None? ||
        exists j :: 0 <= j < |src.scans[n].massIntensity.value.mz| && canceled(AtPeak(n, j))) &&
      (out.scans == [] ==> out == EmptyScanList)
  {
    if n in src.scans && src.scans[n].massIntensity.Some? {
      var a := src.scans[n].massIntensity.value;
      var stop := StopFrom(canceled, n, 0, |a.mz|);
      if exists j :: 0 <= j < |a.mz| && canceled(AtPeak(n, j)) {
        var j :| 0 <= j < |a.mz| && canceled(AtPeak(n, j));
        assert stop.Some?;
      }
    }
  }

  /** Otherwise the list holds one scan, the header's, with no parent and no precursor. */
  lemma ProfileScan(src: Source, canceled: Poll -> bool, n: int)
    requires n in src.scans && src.scans[n].massIntensity.Some?
    requires forall j :: 0 <= j < |src.scans[n].massIntensity.value.mz| ==> !canceled(AtPeak(n, j))
    ensures var out, raw := Profile(src, canceled, n), src.scans[n];
      var h := raw.header;
      ScanListOk(out) && |out.scans| == 1 &&
      var s := out.scans[0];
      s.scanNo == h.num && s.msLevel == h.msLevel && s.parentScan.None? && s.precursor.None? &&
      s.subScans == [] && s.polarity == PolarityOf(h.polarity) && s.retentionTime == h.retentionTime &&
      s.mostAbundantPeak == Some(MostAbundant(raw)) &&
      (h.lowMz > 0.0 ==> s.scanStart == h.lowMz) && (h.highMz > 0.0 ==> s.scanEnd == h.highMz)
  {
    var raw := src.scans[n];
    var heap1 := Heap([], [ScanOfHeader(raw.header, MostAbundant(raw))]);
    ProfileLoads(src, canceled, n);
    LoadAllTotals(heap1, 0, raw);
  }

  /**
   * ... whose peak list is every positive peak of the array, in raw order
   * (ids = raw position + 1).
   */
  lemma ProfilePeaks(src: Source, canceled: Poll -> bool, n: int)
    requires n in src.scans && src.scans[n].massIntensity.Some?
    requires forall j :: 0 <= j < |src.scans[n].massIntensity.value.mz| ==> !canceled(AtPeak(n, j))
    ensures var out, raw := Profile(src, canceled, n), src.scans[n];
      var h, a := raw.header, raw.massIntensity.value;
      |out.scans| == 1 && MostAbundant(raw) > 0.0 &&
      var s := out.scans[0];
      s.peaklist == Span(0, |out.peaks|) &&
      PositivePeaks(out.peaks, 0, a, MostAbundant(raw), |a.mz|)
  {
    var raw := src.scans[n];
    var heap1 := Heap([], [ScanOfHeader(raw.header, MostAbundant(raw))]);
    ProfileLoads(src, canceled, n);
    LoadAllPeaks(heap1, 0, raw);
    LoadAllList(heap1, 0, raw);
  }

  /**
   * ... its totals are the row length and the intensity sum of its peaks; a
   * non-positive low (high) m/z is replaced by a bound below (above) every
   * peak m/z.
   */
  lemma ProfileTotals(src: Source, canceled: Poll -> bool, n: int)
    requires n in src.scans && src.scans[n].massIntensity.Some?
    requires forall j :: 0 <= j < |src.scans[n].massIntensity.value.mz| ==> !canceled(AtPeak(n, j))
    ensures var out, raw := Profile(src, canceled, n), src.scans[n];
      var h, a := raw.header, raw.massIntensity.value;
      |out.scans| == 1 &&
      var s := out.scans[0];
      s.totalNumPeaks == Some(|a.mz|) && s.totalIntensity == Some(SumIntensity(out.peaks)) &&
      (h.lowMz <= 0.0 ==> forall k :: 0 <= k < |out.peaks| ==> s.scanStart <= out.peaks[k].mz) &&
      (h.highMz <= 0.0 ==> forall k :: 0 <= k < |out.peaks| ==> out.peaks[k].mz <= s.scanEnd)
  {
    var raw := src.scans[n];
    var heap1 := Heap([], [ScanOfHeader(raw.header, MostAbundant(raw))]);
    ProfileLoads(src, canceled, n);
    LoadAllTotals(heap1, 0, raw);
    var heap' := LoadAll(heap1, 0, raw);
    assert heap'.peaks[|heap1.peaks|..] == heap'.peaks;
  }

  /** Without a cancellation, the list is the one-scan store after the full peak loop. */
  lemma ProfileLoads(src: Source, canceled: Poll -> bool, n: int)
    requires n in src.scans && src.scans[n].massIntensity.Some?
    requires forall j :: 0 <= j < |src.scans[n].massIntensity.value.mz| ==> !canceled(AtPeak(n, j))
    ensures var raw := src.scans[n];
      var heap1 := Heap([], [ScanOfHeader(raw.header, MostAbundant(raw))]);
      var heap' := LoadAll(heap1, 0, raw);
      Profile(src, canceled, n) == ScanList(heap'.scans, heap'.peaks)
  {
    var raw := src.scans[n];
    var a := raw.massIntensity.value;
    var heap1 := Heap([], [ScanOfHeader(raw.header, MostAbundant(raw))]);
    assert EmptyHeap.scans + [ScanOfHeader(raw.header, MostAbundant(raw))] == heap1.scans;
    assert StopFrom(canceled, n, 0, |a.mz|).None?;
  }

  /** addAllScansMSProfile, with the peak loop written out. */
  method AddAllScansMsProfile(src: Source, canceled: Poll -> bool, n: int) returns (out: ScanList)
    ensures out == Profile(src, canceled, n)
  {
    var jrap := Rap(src, n);
    if jrap.None? {
      return EmptyScanList;
    }
    var raw := jrap.value;
    if raw.massIntensity.None? {
      return EmptyScanList;
    }
    var a := raw.massIntensity.value;
    var maxIntensity := GetMostAbundantPeak(raw);
    MostAbundantSpec(raw);
    var s := ScanOfHeader(raw.header, maxIntensity);
    var st, stopped := IngestPeaks([], a, maxIntensity, true, canceled, n, true);
    if stopped.Some? {
      return EmptyScanList;
    }
    var start := s.scanStart;
    var end := s.scanEnd;
    if start <= 0.0 {
      start := st.low;
    }
    if end <= 0.0 {
      end := st.high;
    }
    s := s.(peaklist := st.added, scanStart := start, scanEnd := end,
            totalNumPeaks := Some(|a.mz|), totalIntensity := Some(st.total));
    out := ScanList([s], st.peaks);
    var heap1 := Heap([], [ScanOfHeader(raw.header, maxIntensity)]);
    assert EmptyHeap.scans + [ScanOfHeader(raw.header, maxIntensity)] == heap1.scans;
    LoadAllIs(heap1, 0, raw);
    assert s == Finish(heap1.scans[0], a, st);
    assert heap1.scans[0 := s] == [s];
  }
}
