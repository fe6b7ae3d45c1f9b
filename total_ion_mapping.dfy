/**
 * addAllScansTIM: a file whose first scan is not MS1. A made-up MS1 scan
 * number 0 stands for the missing full scan; MS2 precursors are free-standing
 * peaks kept in the ms1 table by exact m/z, deeper precursors are anchored
 * in the parent's list; the made-up scan spans the positive scan ranges seen.
 * A file whose first scan is MS1 is read as direct infusion.
 */
module TotalIonMapping {
  import opened Wrappers
  import opened Numeric
  import opened Spectra
  import opened Records
  import opened ScanSource
  import opened PeakLists
  import opened Ingestion
  import opened Assembly
  import opened DirectInfusion

  /** The made-up full MS scan: number 0, level 1, range -1 .. -1, retention time 0. */
  const RootScan: Scan := Scan(0, 1, None, None, None, None, Some(0.0), -1.0, -1.0, None, None, None, [], [], None)

  /** The loop state: the stores, the last scan per header level, the tables, and the running scan range. */
  datatype TimState = TimState(
    heap: Heap,
    lastOfLevel: map<int, int>,
    byNumber: map<int, ScanRef>,
    ms1: map<real, PeakRef>,
    low: real,
    high: real)

  /** Before the first scan: the made-up scan stored at reference 0, filed under 0, the last of level 1. */
  const TimInit := TimState(Heap([], [RootScan]), map[1 := 0], map[0 := 0], map[], DoubleMaxValue, DoubleMinValue)

  ghost predicate TimShape(st: TimState)
  {
    HeapOk(st.heap) && TablesOk(st.heap, st.ms1, st.byNumber) && |st.heap.scans| >= 1
  }

  /** The parent number: the declared precursor, else the last scan one level down, else -1. */
  function TimParent(last: map<int, int>, h: ScanHeader): int
  {
    if h.precursorScanNum != -1 then h.precursorScanNum
    else if h.msLevel - 1 in last then last[h.msLevel - 1]
    else -1
  }

  /**
   * The intensity given to a precursor peak whose own is not positive: that
   * of the last positive raw peak below n within 0.5 of its m/z, else 1.0.
   */
  function BackupIntensity(a: MassIntensityList, mz: real, n: nat): real
    requires n <= |a.mz|
  {
    if n == 0 then 1.0
    else if a.intensity[n - 1] > 0.0 && Abs(mz - a.mz[n - 1]) < 0.5 then a.intensity[n - 1]
    else BackupIntensity(a, mz, n - 1)
  }

  /** The backup is positive: the last matching raw intensity, or 1.0 when none matches. */
  lemma {:induction false} BackupIntensitySpec(a: MassIntensityList, mz: real, n: nat)
    requires n <= |a.mz|
    ensures var b := BackupIntensity(a, mz, n);
      b > 0.0 &&
      ((forall j :: 0 <= j < n ==> !(a.intensity[j] > 0.0 && Abs(mz - a.mz[j]) < 0.5)) ==> b == 1.0) &&
      (b != 1.0 ==> exists j :: 0 <= j < n && a.intensity[j] > 0.0 && Abs(mz - a.mz[j]) < 0.5 && b == a.intensity[j] &&
                     forall j' :: j < j' < n ==> !(a.intensity[j'] > 0.0 && Abs(mz - a.mz[j']) < 0.5))
  {
    if n > 0 {
      BackupIntensitySpec(a, mz, n - 1);
    }
  }

  /** The MS2 precursor: the table's peak for the exact m/z, else a new free-standing one put in the table; then marked. */
  function Ms1Precursor(heap: Heap, h: ScanHeader, ms1: map<real, PeakRef>): (r: (Heap, PeakRef, map<real, PeakRef>))
    requires HeapOk(heap) && forall x :: x in ms1 ==> ms1[x] < |heap.peaks|
    ensures HeapOk(r.0) && r.0.scans == heap.scans && |r.0.peaks| >= |heap.peaks|
    ensures r.1 < |r.0.peaks| && forall x :: x in r.2 ==> r.2[x] < |r.0.peaks|
  {
    var (peaks, ref, ms1') :=
      if h.precursorMz in ms1 then (heap.peaks, ms1[h.precursorMz], ms1)
      else (heap.peaks + [NewPrecursorPeak(h, true)], |heap.peaks|, ms1[h.precursorMz := |heap.peaks|]);
    var peaks' := peaks[ref := MarkPrecursor(peaks[ref], h)];
    var heap' := Heap(peaks', heap.scans);
    assert HeapOk(heap') by {
      forall q | 0 <= q < |heap'.scans| ensures ScanRefsOk(heap'.peaks, heap'.scans[q]) {
        assert ScanRefsOk(heap.peaks, heap.scans[q]);
      }
    }
    (heap', ref, ms1')
  }

  /**
   * The TIM peak loop for scan r: every positive peak is added; the totals
   * are set; a precursor whose intensity is not positive gets the backup.
   */
  function TimLoad(heap: Heap, r: ScanRef, raw: RawScan): (h': Heap)
    requires HeapOk(heap) && r < |heap.scans| && heap.scans[r].mostAbundantPeak == Some(MostAbundant(raw))
    requires heap.scans[r].precursor.Some?
    ensures HeapOk(h') && |h'.scans| == |heap.scans| && |h'.peaks| >= |heap.peaks|
  {
    if raw.massIntensity.None? then heap
    else
      var a := raw.massIntensity.value;
      MostAbundantSpec(raw);
      var s := heap.scans[r];
      var st := IngestUpTo(heap.peaks, a, s.mostAbundantPeak.value, true, |a.mz|);
      IngestRefsOk(heap.peaks, a, s.mostAbundantPeak.value, true, |a.mz|);
      IngestKeepsStore(heap.peaks, a, s.mostAbundantPeak.value, true, |a.mz|);
      assert ScanRefsOk(heap.peaks, s);
      var pre := s.precursor.value;
      var p := heap.peaks[pre];
      var peaks := if p.intensity <= 0.0 then st.peaks[pre := p.(intensity := BackupIntensity(a, p.mz, |a.mz|))] else st.peaks;
      var s' := s.(peaklist := s.peaklist + st.added, totalNumPeaks := Some(|a.mz|), totalIntensity := Some(st.total));
      var h' := Heap(peaks, heap.scans[r := s']);
      assert HeapOk(h') by {
        forall q | 0 <= q < |h'.scans| ensures ScanRefsOk(h'.peaks, h'.scans[q]) {
          assert ScanRefsOk(heap.peaks, heap.scans[q]);
          if q == r {
            assert forall k :: 0 <= k < |s'.peaklist| ==> s'.peaklist[k] < |h'.peaks| by {
              assert s'.peaklist == s.peaklist + st.added;
            }
          }
        }
      }
      h'
  }

  /** One pass of the scan loop for scan number i; None is the exception that makes the builder return null. */
  function TimStep(st: TimState, src: Source, i: int): (r: Option<TimState>)
    requires TimShape(st)
    ensures r.Some? ==> TimShape(r.value)
  {
    if i !in src.scans then Some(st) else TimScan(st, src.scans[i])
  }

  /** A new scan from the header; the made-up scan takes the first polarity seen; then the precursor. */
  function TimScan(st: TimState, raw: RawScan): (r: Option<TimState>)
    requires TimShape(st)
    ensures r.Some? ==> TimShape(r.value)
  {
    var h := raw.header;
    var (heap1, r) := NewScan(st.heap, ScanOfHeader(h, MostAbundant(raw)));
    var last := st.lastOfLevel[h.msLevel := h.num];
    var root := heap1.scans[0];
    var heap2 := if root.polarity.None? && PolarityOf(h.polarity).Some?
      then UpdateScan(heap1, 0, root.(polarity := PolarityOf(h.polarity))) else heap1;
    var pn := TimParent(last, h);
    var heap3 := UpdateScan(heap2, r, heap2.scans[r].(parentScan := Some(pn)));
    assert forall x :: x in st.ms1 ==> st.ms1[x] < |st.heap.peaks|;
    assert forall n :: n in st.byNumber ==> st.byNumber[n] < |st.heap.scans|;
    if h.msLevel == 2 then
      var (heap4, ref, ms1') := Ms1Precursor(heap3, h, st.ms1);
      TimLink(st, heap4, r, ref, raw, last, ms1', pn)
    else if pn !in st.byNumber then None
    else
      var (heap4, ref) := Anchor(heap3, st.byNumber[pn], h);
      TimLink(st, heap4, r, ref, raw, last, st.ms1, pn)
  }

  /**
   * The rest of a pass: the precursor set, the peaks loaded, the scan filed
   * under its number, its number appended to the parent's sub-scans (failing
   * when the parent is not in the map), and the running range updated.
   */
  function TimLink(st: TimState, heap: Heap, r: ScanRef, ref: PeakRef, raw: RawScan, last: map<int, int>,
                   ms1: map<real, PeakRef>, pn: int): (res: Option<TimState>)
    requires HeapOk(heap) && r < |heap.scans| && ref < |heap.peaks| && heap.scans[r].mostAbundantPeak == Some(MostAbundant(raw))
    requires forall x :: x in ms1 ==> ms1[x] < |heap.peaks|
    requires forall n :: n in st.byNumber ==> st.byNumber[n] < |heap.scans|
    ensures res.Some? ==> TimShape(res.value)
  {
    var h := raw.header;
    var heap5 := WithPrecursor(heap, r, ref);
    var heap6 := TimLoad(heap5, r, raw);
    var byNumber := st.byNumber[h.num := r];
    if pn !in byNumber then None
    else
      var pr := byNumber[pn];
      var heap7 := UpdateScan(heap6, pr, heap6.scans[pr].(subScans := heap6.scans[pr].subScans + [h.num]));
      var low := if h.lowMz > 0.0 && h.lowMz < st.low then h.lowMz else st.low;
      var high := if h.highMz > st.high then h.highMz else st.high;
      var st' := TimState(heap7, last, byNumber, ms1, low, high);
      assert forall x :: x in ms1 ==> ms1[x] < |heap7.peaks|;
      Some(st')
  }

  /** The scan loop over numbers first .. n - 1, polling for cancellation at the top of every pass. */
  function TimRun(src: Source, canceled: Poll -> bool, first: int, n: int): (r: Run<TimState>)
    requires first <= n
    ensures r.Running? ==> TimShape(r.st)
    decreases n - first
  {
    if n == first then
      assert HeapOk(TimInit.heap) by {
        assert ScanRefsOk([], RootScan);
      }
      Running(TimInit)
    else
      match TimRun(src, canceled, first, n - 1)
      case Running(st) =>
        if canceled(AtScan(n - 1)) then Canceled
        else
          (match TimStep(st, src, n - 1)
           case None => Failed
           case Some(st') => Running(st'))
      case other => other
  }

  function TimScans(src: Source, canceled: Poll -> bool): (r: Run<TimState>)
    requires FirstScanNumber(src) != -1
    ensures r.Running? ==> TimShape(r.st)
  {
    FirstScanNumberSpec(src);
    TimRun(src, canceled, FirstScanNumber(src), src.maxScanNumber + 1)
  }

  /** After the loop the made-up scan spans the running range. */
  function TimClose(st: TimState): (heap: Heap)
    requires TimShape(st)
    ensures HeapOk(heap) && heap.peaks == st.heap.peaks && |heap.scans| == |st.heap.scans|
  {
    UpdateScan(st.heap, 0, st.heap.scans[0].(scanStart := st.low, scanEnd := st.high))
  }

  // ----- what the pieces do -----

  /**
   * The TIM peak loop adds the positive peaks to the scan's list and sets
   * its totals, leaving its range alone; the precursor's intensity becomes
   * the backup exactly when it is not positive and the scan has peak rows;
   * nothing else changes.
   */
  lemma TimLoadSpec(heap: Heap, r: ScanRef, raw: RawScan)
    requires HeapOk(heap) && r < |heap.scans| && heap.scans[r].mostAbundantPeak == Some(MostAbundant(raw))
    requires heap.scans[r].precursor.Some?
    ensures var h', s, pre := TimLoad(heap, r, raw), heap.scans[r], heap.scans[r].precursor.value;
      pre < |heap.peaks| &&
      (forall q :: 0 <= q < |heap.scans| && q != r ==> h'.scans[q] == heap.scans[q]) &&
      h'.scans[r] == s.(peaklist := h'.scans[r].peaklist, totalNumPeaks := h'.scans[r].totalNumPeaks,
                        totalIntensity := h'.scans[r].totalIntensity) &&
      (forall q :: 0 <= q < |heap.peaks| && q != pre ==> h'.peaks[q] == heap.peaks[q]) &&
      h'.peaks[pre] == heap.peaks[pre].(intensity := h'.peaks[pre].intensity) &&
      (raw.massIntensity.None? ==> h' == heap) &&
      (raw.massIntensity.Some? ==>
        var a := raw.massIntensity.value;
        var st := IngestUpTo(heap.peaks, a, s.mostAbundantPeak.value, true, |a.mz|);
        s.mostAbundantPeak.value > 0.0 &&
        h'.scans[r].peaklist == s.peaklist + st.added &&
        h'.scans[r].totalNumPeaks == Some(|a.mz|) && h'.scans[r].totalIntensity == Some(st.total) &&
        h'.peaks[pre].intensity ==
          (if heap.peaks[pre].intensity <= 0.0 then BackupIntensity(a, heap.peaks[pre].mz, |a.mz|)
           else heap.peaks[pre].intensity))
  {
    assert ScanRefsOk(heap.peaks, heap.scans[r]);
    if raw.massIntensity.Some? {
      var a := raw.massIntensity.value;
      MostAbundantSpec(raw);
      IngestKeepsStore(heap.peaks, a, heap.scans[r].mostAbundantPeak.value, true, |a.mz|);
    }
  }

  /** The MS2 precursor is the table's peak for the exact m/z, or a new one put there; it is marked; nothing else changes. */
  lemma Ms1PrecursorSpec(heap: Heap, h: ScanHeader, ms1: map<real, PeakRef>)
    requires HeapOk(heap) && forall x :: x in ms1 ==> ms1[x] < |heap.peaks|
    ensures var (heap', ref, ms1') := Ms1Precursor(heap, h, ms1);
      ms1' == ms1[h.precursorMz := ref] &&
      (h.precursorMz in ms1 ==> ref == ms1[h.precursorMz] && |heap'.peaks| == |heap.peaks|) &&
      (h.precursorMz !in ms1 ==> ref == |heap.peaks| && |heap'.peaks| == |heap.peaks| + 1 &&
                                 heap'.peaks[ref] == MarkPrecursor(NewPrecursorPeak(h, true), h)) &&
      heap'.peaks[ref].isPrecursor && heap'.peaks[ref].precursorMz == Some(h.precursorMz) &&
      heap'.peaks[ref].precursorIntensity == Some(h.precursorIntensity) &&
      heap'.peaks[ref].precursorCharge == Some(h.precursorCharge) &&
      (forall q :: 0 <= q < |heap.peaks| && q != ref ==> heap'.peaks[q] == heap.peaks[q])
  {
  }

  /**
   * The rest of a pass fails exactly when the parent number is not in the
   * map once the scan is filed; otherwise the scan gets its precursor and
   * peaks, the parent (possibly the scan itself) gains its number as a
   * sub-scan, the running range takes in the scan's positive low and its
   * high m/z, and no other scan changes.
   */
  lemma TimLinkSpec(st: TimState, heap: Heap, r: ScanRef, ref: PeakRef, raw: RawScan, last: map<int, int>,
                    ms1: map<real, PeakRef>, pn: int)
    requires HeapOk(heap) && r < |heap.scans| && ref < |heap.peaks| && heap.scans[r].mostAbundantPeak == Some(MostAbundant(raw))
    requires forall x :: x in ms1 ==> ms1[x] < |heap.peaks|
    requires forall n :: n in st.byNumber ==> st.byNumber[n] < |heap.scans|
    ensures var res, h := TimLink(st, heap, r, ref, raw, last, ms1, pn), raw.header;
      var byNumber := st.byNumber[h.num := r];
      (res.None? <==> pn !in byNumber) &&
      (res.Some? ==>
        var st', pr := res.value, byNumber[pn];
        st'.byNumber == byNumber && st'.lastOfLevel == last && st'.ms1 == ms1 &&
        st'.low == (if h.lowMz > 0.0 && h.lowMz < st.low then h.lowMz else st.low) &&
        st'.high == (if h.highMz > st.high then h.highMz else st.high) &&
        |st'.heap.scans| == |heap.scans| &&
        (forall q :: 0 <= q < |heap.scans| && q != r && q != pr ==> st'.heap.scans[q] == heap.scans[q]) &&
        (pr != r ==> st'.heap.scans[pr] == heap.scans[pr].(subScans := heap.scans[pr].subScans + [h.num])) &&
        st'.heap.scans[r] == heap.scans[r].(precursor := Some(ref), peaklist := st'.heap.scans[r].peaklist,
                                            totalNumPeaks := st'.heap.scans[r].totalNumPeaks,
                                            totalIntensity := st'.heap.scans[r].totalIntensity,
                                            subScans := st'.heap.scans[r].subScans) &&
        st'.heap.scans[r].subScans == (if pr == r then heap.scans[r].subScans + [h.num] else heap.scans[r].subScans) &&
        (forall q :: 0 <= q < |heap.peaks| && q != ref ==> st'.heap.peaks[q] == heap.peaks[q]) &&
        st'.heap.peaks[ref] == heap.peaks[ref].(intensity := st'.heap.peaks[ref].intensity) &&
        (raw.massIntensity.None? ==> st'.heap.peaks[ref] == heap.peaks[ref]) &&
        (raw.massIntensity.Some? ==>
          st'.heap.peaks[ref].intensity ==
            if heap.peaks[ref].intensity <= 0.0 then BackupIntensity(raw.massIntensity.value, heap.peaks[ref].mz, |raw.massIntensity.value.mz|)
            else heap.peaks[ref].intensity))
  {
    var h := raw.header;
    var heap5 := WithPrecursor(heap, r, ref);
    TimLoadSpec(heap5, r, raw);
  }

  /** Scan numbers, levels and header ranges of existing scans stay as they are. */
  ghost predicate RangesKept(heap: Heap, heap': Heap)
  {
    |heap.scans| <= |heap'.scans| &&
    forall q :: 0 <= q < |heap.scans| ==>
      heap'.scans[q].scanNo == heap.scans[q].scanNo && heap'.scans[q].msLevel == heap.scans[q].msLevel &&
      heap'.scans[q].scanStart == heap.scans[q].scanStart && heap'.scans[q].scanEnd == heap.scans[q].scanEnd
  }

  /** The header level walk does not look at the scan's own level. */
  lemma TimParentOwnLevel(last: map<int, int>, h: ScanHeader)
    ensures TimParent(last[h.msLevel := h.num], h) == TimParent(last, h)
  {
  }

  /**
   * A pass fails exactly when the parent number is not in the map: for MS2
   * only after the scan is filed (so a scan naming itself passes), for any
   * other level before.
   */
  lemma TimStepFails(st: TimState, src: Source, i: int)
    requires TimShape(st)
    ensures TimStep(st, src, i).None? <==>
      i in src.scans &&
      var h := src.scans[i].header;
      TimParent(st.lastOfLevel, h) !in st.byNumber && (h.msLevel != 2 || TimParent(st.lastOfLevel, h) != h.num)
  {
    if i in src.scans {
      var raw := src.scans[i];
      var h := raw.header;
      TimParentOwnLevel(st.lastOfLevel, h);
      TimScanParts(st, raw);
    }
  }

  /** The pieces of a pass, named: what TimScan hands to TimLink. */
  lemma TimScanParts(st: TimState, raw: RawScan)
    requires TimShape(st)
    ensures var h := raw.header;
      var r := |st.heap.scans|;
      var heap1 := Heap(st.heap.peaks, st.heap.scans + [ScanOfHeader(h, MostAbundant(raw))]);
      var root := heap1.scans[0];
      var scans2 := if root.polarity.None? && PolarityOf(h.polarity).Some?
        then heap1.scans[0 := root.(polarity := PolarityOf(h.polarity))] else heap1.scans;
      var last := st.lastOfLevel[h.msLevel := h.num];
      var pn := TimParent(last, h);
      var heap3 := Heap(st.heap.peaks, scans2[r := scans2[r].(parentScan := Some(pn))]);
      HeapOk(heap3) && r < |heap3.scans| && (forall x :: x in st.ms1 ==> st.ms1[x] < |heap3.peaks|) &&
      (forall n :: n in st.byNumber ==> st.byNumber[n] < r) &&
      heap3.scans[r].mostAbundantPeak == Some(MostAbundant(raw)) &&
      if h.msLevel == 2 then
        var (heap4, ref, ms1') := Ms1Precursor(heap3, h, st.ms1);
        TimScan(st, raw) == TimLink(st, heap4, r, ref, raw, last, ms1', pn)
      else if pn !in st.byNumber then TimScan(st, raw).None?
      else
        st.byNumber[pn] < |heap3.scans| &&
        var (heap4, ref) := Anchor(heap3, st.byNumber[pn], h);
        TimScan(st, raw) == TimLink(st, heap4, r, ref, raw, last, st.ms1, pn)
  {
    assert forall x :: x in st.ms1 ==> st.ms1[x] < |st.heap.peaks|;
    assert forall n :: n in st.byNumber ==> st.byNumber[n] < |st.heap.scans|;
  }

  /**
   * A pass that does not fail stores the scan from its header at the end,
   * with its header level and its parent number, files it under its number,
   * records it as the last of its level, appends its number to the parent's
   * sub-scans, gives the made-up scan the first polarity seen, takes its
   * range into the running range, and leaves every scan's number, level and
   * range as they were.
   */
  lemma TimStepLinks(st: TimState, src: Source, i: int)
    requires TimShape(st) && i in src.scans && TimStep(st, src, i).Some?
    ensures var st', h := TimStep(st, src, i).value, src.scans[i].header;
      var r := |st.heap.scans|;
      var pn := TimParent(st.lastOfLevel, h);
      var child' := st'.heap.scans[r];
      |st'.heap.scans| == r + 1 && RangesKept(st.heap, st'.heap) &&
      st'.byNumber == st.byNumber[h.num := r] && st'.lastOfLevel == st.lastOfLevel[h.msLevel := h.num] &&
      child'.scanNo == h.num && child'.msLevel == h.msLevel && child'.parentScan == Some(pn) &&
      child'.scanStart == h.lowMz && child'.scanEnd == h.highMz && child'.precursor.Some? &&
      pn in st'.byNumber &&
      (st'.byNumber[pn] != r ==>
         st'.heap.scans[st'.byNumber[pn]].subScans == st.heap.scans[st'.byNumber[pn]].subScans + [h.num]) &&
      (st'.byNumber[pn] == r ==> child'.subScans == [h.num]) &&
      st'.heap.scans[0].polarity ==
        (if st.heap.scans[0].polarity.None? then PolarityOf(h.polarity) else st.heap.scans[0].polarity) &&
      st'.low == (if h.lowMz > 0.0 && h.lowMz < st.low then h.lowMz else st.low) &&
      st'.high == (if h.highMz > st.high then h.highMz else st.high)
  {
    if src.scans[i].header.msLevel == 2 {
      TimStepLinksMs2(st, src, i);
    } else {
      TimStepLinksAnchored(st, src, i);
    }
  }

  /** What TimStepLinks states, as one predicate the two cases below establish. */
  ghost predicate Linked(st: TimState, src: Source, i: int)
    requires TimShape(st) && i in src.scans && TimStep(st, src, i).Some?
  {
    LinkedState(st, src.scans[i].header, TimStep(st, src, i).value)
  }

  /** The state after a pass over the scan with header `h`, as TimStepLinks describes it. */
  ghost predicate LinkedState(st: TimState, h: ScanHeader, st': TimState)
    requires TimShape(st) && TimShape(st')
  {
    var r := |st.heap.scans|;
    var pn := TimParent(st.lastOfLevel, h);
    |st'.heap.scans| == r + 1 && RangesKept(st.heap, st'.heap) &&
    var child' := st'.heap.scans[r];
    st'.byNumber == st.byNumber[h.num := r] && st'.lastOfLevel == st.lastOfLevel[h.msLevel := h.num] &&
    child'.scanNo == h.num && child'.msLevel == h.msLevel && child'.parentScan == Some(pn) &&
    child'.scanStart == h.lowMz && child'.scanEnd == h.highMz && child'.precursor.Some? &&
    pn in st'.byNumber &&
    (st'.byNumber[pn] != r ==>
       st'.heap.scans[st'.byNumber[pn]].subScans == st.heap.scans[st'.byNumber[pn]].subScans + [h.num]) &&
    (st'.byNumber[pn] == r ==> child'.subScans == [h.num]) &&
    st'.heap.scans[0].polarity ==
      (if st.heap.scans[0].polarity.None? then PolarityOf(h.polarity) else st.heap.scans[0].polarity) &&
    st'.low == (if h.lowMz > 0.0 && h.lowMz < st.low then h.lowMz else st.low) &&
    st'.high == (if h.highMz > st.high then h.highMz else st.high)
  }

  lemma TimStepLinksMs2(st: TimState, src: Source, i: int)
    requires TimShape(st) && i in src.scans && TimStep(st, src, i).Some? && src.scans[i].header.msLevel == 2
    ensures Linked(st, src, i)
  {
    var raw := src.scans[i];
    var h := raw.header;
    TimParentOwnLevel(st.lastOfLevel, h);
    TimScanParts(st, raw);
    var heap3 := TimHeap3(st, raw);
    Ms1PrecursorSpec(heap3, h, st.ms1);
    var (heap4, ref, ms1') := Ms1Precursor(heap3, h, st.ms1);
    var last := st.lastOfLevel[h.msLevel := h.num];
    assert TimStep(st, src, i) == TimLink(st, heap4, |st.heap.scans|, ref, raw, last, ms1', TimParent(last, h));
    TimLinkComposed(st, raw, heap4, ref, ms1');
  }

  lemma TimStepLinksAnchored(st: TimState, src: Source, i: int)
    requires TimShape(st) && i in src.scans && TimStep(st, src, i).Some? && src.scans[i].header.msLevel != 2
    ensures Linked(st, src, i)
  {
    var raw := src.scans[i];
    var h := raw.header;
    TimParentOwnLevel(st.lastOfLevel, h);
    TimScanParts(st, raw);
    var heap3 := TimHeap3(st, raw);
    var pn := TimParent(st.lastOfLevel[h.msLevel := h.num], h);
    AnchorOnlyLists(heap3, st.byNumber[pn], h);
    var (heap4, ref) := Anchor(heap3, st.byNumber[pn], h);
    var last := st.lastOfLevel[h.msLevel := h.num];
    assert TimStep(st, src, i) == TimLink(st, heap4, |st.heap.scans|, ref, raw, last, st.ms1, pn);
    TimLinkComposed(st, raw, heap4, ref, st.ms1);
  }

  /** Anchoring a precursor changes only peak lists. */
  lemma AnchorOnlyLists(heap: Heap, parent: ScanRef, h: ScanHeader)
    requires parent < |heap.scans| && HeapOk(heap)
    ensures OnlyLists(heap, Anchor(heap, parent, h).0)
  {
    AnchorSpec(heap, parent, h);
  }

  /** Only peak lists differ between the two heaps' scans. */
  ghost predicate OnlyLists(heap: Heap, heap': Heap)
  {
    |heap'.scans| == |heap.scans| &&
    forall q :: 0 <= q < |heap.scans| ==> heap'.scans[q] == heap.scans[q].(peaklist := heap'.scans[q].peaklist)
  }

  /** The heap TimScan hands to the precursor step: scan stored, made-up polarity set, parent number set. */
  function TimHeap3(st: TimState, raw: RawScan): (heap3: Heap)
    requires TimShape(st)
  {
    var h := raw.header;
    var r := |st.heap.scans|;
    var heap1 := Heap(st.heap.peaks, st.heap.scans + [ScanOfHeader(h, MostAbundant(raw))]);
    var root := heap1.scans[0];
    var scans2 := if root.polarity.None? && PolarityOf(h.polarity).Some?
      then heap1.scans[0 := root.(polarity := PolarityOf(h.polarity))] else heap1.scans;
    Heap(st.heap.peaks, scans2[r := scans2[r].(parentScan := Some(TimParent(st.lastOfLevel[h.msLevel := h.num], h)))])
  }

  /** TimLink applied after any precursor step that changes only peak lists. */
  lemma TimLinkComposed(st: TimState, raw: RawScan, heap4: Heap, ref: PeakRef, ms1': map<real, PeakRef>)
    requires TimShape(st) && HeapOk(heap4) && OnlyLists(TimHeap3(st, raw), heap4) && ref < |heap4.peaks|
    requires forall x :: x in ms1' ==> ms1'[x] < |heap4.peaks|
    requires var h := raw.header;
      TimLink(st, heap4, |st.heap.scans|, ref, raw, st.lastOfLevel[h.msLevel := h.num], ms1',
              TimParent(st.lastOfLevel[h.msLevel := h.num], h)).Some?
    ensures var h := raw.header;
      LinkedState(st, h, TimLink(st, heap4, |st.heap.scans|, ref, raw, st.lastOfLevel[h.msLevel := h.num], ms1',
                                 TimParent(st.lastOfLevel[h.msLevel := h.num], h)).value)
  {
    var h := raw.header;
    var r := |st.heap.scans|;
    var last := st.lastOfLevel[h.msLevel := h.num];
    TimParentOwnLevel(st.lastOfLevel, h);
    assert forall n :: n in st.byNumber ==> st.byNumber[n] < r;
    TimLinkSpec(st, heap4, r, ref, raw, last, ms1', TimParent(last, h));
  }

  /** What TimLink does to the precursor after a precursor step that changes only peak lists. */
  lemma TimLinkPrecursor(st: TimState, raw: RawScan, heap4: Heap, ref: PeakRef, ms1': map<real, PeakRef>)
    requires TimShape(st) && HeapOk(heap4) && OnlyLists(TimHeap3(st, raw), heap4) && ref < |heap4.peaks|
    requires forall x :: x in ms1' ==> ms1'[x] < |heap4.peaks|
    requires var h := raw.header;
      TimLink(st, heap4, |st.heap.scans|, ref, raw, st.lastOfLevel[h.msLevel := h.num], ms1',
              TimParent(st.lastOfLevel[h.msLevel := h.num], h)).Some?
    ensures var h := raw.header;
      var st' := TimLink(st, heap4, |st.heap.scans|, ref, raw, st.lastOfLevel[h.msLevel := h.num], ms1',
                         TimParent(st.lastOfLevel[h.msLevel := h.num], h)).value;
      var r := |st.heap.scans|;
      |st'.heap.scans| == r + 1 && |st'.heap.peaks| >= |heap4.peaks| &&
      st'.heap.scans[r].precursor == Some(ref) && st'.ms1 == ms1' &&
      (forall q :: 0 <= q < r ==> st'.heap.scans[q].peaklist == heap4.scans[q].peaklist) &&
      st'.heap.peaks[ref] == heap4.peaks[ref].(intensity := st'.heap.peaks[ref].intensity) &&
      (raw.massIntensity.Some? ==> st'.heap.peaks[ref].intensity > 0.0)
  {
    var h := raw.header;
    var r := |st.heap.scans|;
    var last := st.lastOfLevel[h.msLevel := h.num];
    assert forall n :: n in st.byNumber ==> st.byNumber[n] < r;
    TimLinkSpec(st, heap4, r, ref, raw, last, ms1', TimParent(last, h));
    if raw.massIntensity.Some? {
      var a := raw.massIntensity.value;
      BackupIntensitySpec(a, heap4.peaks[ref].mz, |a.mz|);
    }
  }

  /**
   * The precursor of an MS2 scan a pass stores carries its header's
   * precursor m/z, intensity and charge; it is the ms1 table's peak for the
   * exact m/z, a new free-standing one when the table had none. Once the
   * scan's peak rows are read, its intensity is positive.
   */
  lemma TimStepMs2Precursor(st: TimState, src: Source, i: int)
    requires TimShape(st) && i in src.scans && TimStep(st, src, i).Some? && src.scans[i].header.msLevel == 2
    ensures var st', h := TimStep(st, src, i).value, src.scans[i].header;
      var r := |st.heap.scans|;
      r < |st'.heap.scans| && st'.heap.scans[r].precursor.Some? &&
      var ref := st'.heap.scans[r].precursor.value;
      ref < |st'.heap.peaks| &&
      st'.heap.peaks[ref].isPrecursor && st'.heap.peaks[ref].precursorMz == Some(h.precursorMz) &&
      st'.heap.peaks[ref].precursorIntensity == Some(h.precursorIntensity) &&
      st'.heap.peaks[ref].precursorCharge == Some(h.precursorCharge) &&
      st'.ms1 == st.ms1[h.precursorMz := ref] &&
      (h.precursorMz in st.ms1 ==> ref == st.ms1[h.precursorMz]) &&
      (h.precursorMz !in st.ms1 ==> ref == |st.heap.peaks|) &&
      (src.scans[i].massIntensity.Some? ==> st'.heap.peaks[ref].intensity > 0.0)
  {
    var raw := src.scans[i];
    var h := raw.header;
    TimScanParts(st, raw);
    var heap3 := TimHeap3(st, raw);
    Ms1PrecursorSpec(heap3, h, st.ms1);
    var (heap4, ref, ms1') := Ms1Precursor(heap3, h, st.ms1);
    TimLinkPrecursor(st, raw, heap4, ref, ms1');
  }

  /**
   * The precursor of a scan of another level is anchored in the list of the
   * parent found before the scan was filed, and carries the header's
   * precursor m/z, intensity and charge; once the scan's peak rows are read,
   * its intensity is positive.
   */
  lemma TimStepAnchoredPrecursor(st: TimState, src: Source, i: int)
    requires TimShape(st) && i in src.scans && TimStep(st, src, i).Some? && src.scans[i].header.msLevel != 2
    ensures var st', h := TimStep(st, src, i).value, src.scans[i].header;
      var r := |st.heap.scans|;
      var pn := TimParent(st.lastOfLevel, h);
      r < |st'.heap.scans| && st'.heap.scans[r].precursor.Some? &&
      var ref := st'.heap.scans[r].precursor.value;
      ref < |st'.heap.peaks| &&
      st'.heap.peaks[ref].isPrecursor && st'.heap.peaks[ref].precursorMz == Some(h.precursorMz) &&
      st'.heap.peaks[ref].precursorIntensity == Some(h.precursorIntensity) &&
      st'.heap.peaks[ref].precursorCharge == Some(h.precursorCharge) &&
      st'.ms1 == st.ms1 && pn in st.byNumber && st.byNumber[pn] < r &&
      ref in st'.heap.scans[st.byNumber[pn]].peaklist &&
      (src.scans[i].massIntensity.Some? ==> st'.heap.peaks[ref].intensity > 0.0)
  {
    var raw := src.scans[i];
    var h := raw.header;
    TimParentOwnLevel(st.lastOfLevel, h);
    TimScanParts(st, raw);
    var heap3 := TimHeap3(st, raw);
    var pn := TimParent(st.lastOfLevel[h.msLevel := h.num], h);
    AnchorOnlyLists(heap3, st.byNumber[pn], h);
    var (heap4, ref) := Anchor(heap3, st.byNumber[pn], h);
    TimLinkPrecursor(st, raw, heap4, ref, st.ms1);
  }

  // ----- the loop invariant -----

  /**
   * The running range: low is at most every positive scan start seen and is
   * MAX_VALUE or one of them; high is at least every scan end seen and is
   * MIN_VALUE or one of them (the made-up scan at reference 0 not counted).
   */
  ghost predicate TimRangeOk(st: TimState)
  {
    var scans := st.heap.scans;
    (forall q :: 1 <= q < |scans| && scans[q].scanStart > 0.0 ==> st.low <= scans[q].scanStart) &&
    (forall q :: 1 <= q < |scans| ==> scans[q].scanEnd <= st.high) &&
    (st.low == DoubleMaxValue || exists q :: 1 <= q < |scans| && scans[q].scanStart > 0.0 && scans[q].scanStart == st.low) &&
    (st.high == DoubleMinValue || exists q :: 1 <= q < |scans| && scans[q].scanEnd == st.high)
  }

  /** No two m/z keys of the ms1 table share a peak. */
  ghost predicate Ms1Distinct(ms1: map<real, PeakRef>)
  {
    forall x, y :: x in ms1 && y in ms1 && x != y ==> ms1[x] != ms1[y]
  }

  /**
   * What the loop keeps: the shape, the map files each scan under its own
   * number, the running range, and the ms1 table holds each peak once.
   */
  ghost predicate TimOk(st: TimState)
  {
    TimShape(st) && (forall n :: n in st.byNumber ==> st.heap.scans[st.byNumber[n]].scanNo == n) && TimRangeOk(st) &&
    Ms1Distinct(st.ms1)
  }

  lemma TimInitOk()
    ensures TimOk(TimInit)
  {
    assert ScanRefsOk([], RootScan);
  }

  /** One pass keeps the invariant. */
  lemma TimStepOk(st: TimState, src: Source, i: int)
    requires TimOk(st) && TimStep(st, src, i).Some?
    ensures TimOk(TimStep(st, src, i).value)
  {
    if i in src.scans {
      if src.scans[i].header.msLevel == 2 {
        TimStepLinksMs2(st, src, i);
      } else {
        TimStepLinksAnchored(st, src, i);
      }
      TimStepMs1(st, src, i);
      TimOkFrom(st, src.scans[i].header, TimStep(st, src, i).value);
    }
  }

  /**
   * A pass keeps the ms1 table's peaks distinct: an MS2 scan either reuses
   * the peak already under its exact m/z or puts a new peak, which no key
   * held before; other levels leave the table alone.
   */
  lemma TimStepMs1(st: TimState, src: Source, i: int)
    requires TimShape(st) && Ms1Distinct(st.ms1) && i in src.scans && TimStep(st, src, i).Some?
    ensures Ms1Distinct(TimStep(st, src, i).value.ms1)
  {
    if src.scans[i].header.msLevel == 2 {
      TimStepMs2Precursor(st, src, i);
      assert forall x :: x in st.ms1 ==> st.ms1[x] < |st.heap.peaks|;
    } else {
      TimStepAnchoredPrecursor(st, src, i);
    }
  }

  /** A state a pass leaves as LinkedState describes keeps the invariant. */
  lemma TimOkFrom(st: TimState, h: ScanHeader, st': TimState)
    requires TimOk(st) && TimShape(st') && LinkedState(st, h, st') && Ms1Distinct(st'.ms1)
    ensures TimOk(st')
  {
    var r := |st.heap.scans|;
    assert forall n :: n in st.byNumber ==> st.byNumber[n] < r && st.heap.scans[st.byNumber[n]].scanNo == n;
    assert forall n :: n in st'.byNumber ==> st'.heap.scans[st'.byNumber[n]].scanNo == n;
    var scans, scans' := st.heap.scans, st'.heap.scans;
    assert forall q :: 1 <= q < |scans| ==> scans'[q].scanStart == scans[q].scanStart && scans'[q].scanEnd == scans[q].scanEnd;
    if st'.low != DoubleMaxValue && st'.low != h.lowMz {
      var q :| 1 <= q < |scans| && scans[q].scanStart > 0.0 && scans[q].scanStart == st.low;
      assert scans'[q].scanStart == st'.low;
    }
    if st'.high != DoubleMinValue && st'.high != h.highMz {
      var q :| 1 <= q < |scans| && scans[q].scanEnd == st.high;
      assert scans'[q].scanEnd == st'.high;
    }
  }

  lemma {:induction false} TimRunOk(src: Source, canceled: Poll -> bool, first: int, n: int)
    requires first <= n
    ensures TimRun(src, canceled, first, n).Running? ==> TimOk(TimRun(src, canceled, first, n).st)
    decreases n - first
  {
    if n == first {
      TimInitOk();
    } else {
      TimRunOk(src, canceled, first, n - 1);
      var prev := TimRun(src, canceled, first, n - 1);
      if prev.Running? && !canceled(AtScan(n - 1)) && TimStep(prev.st, src, n - 1).Some? {
        TimStepOk(prev.st, src, n - 1);
      }
    }
  }

  lemma {:induction false} TimRunStaysCanceled(src: Source, canceled: Poll -> bool, first: int, n: int, m: int)
    requires first <= n <= m && TimRun(src, canceled, first, n) == Canceled
    ensures TimRun(src, canceled, first, m) == Canceled
    decreases m - n
  {
    if m > n {
      TimRunStaysCanceled(src, canceled, first, n, m - 1);
    }
  }

  lemma {:induction false} TimRunStaysFailed(src: Source, canceled: Poll -> bool, first: int, n: int, m: int)
    requires first <= n <= m && TimRun(src, canceled, first, n) == Failed
    ensures TimRun(src, canceled, first, m) == Failed
    decreases m - n
  {
    if m > n {
      TimRunStaysFailed(src, canceled, first, n, m - 1);
    }
  }

  // ----- the result -----

  /**
   * What the builder returns when the loop completes and the closing loops
   * are not canceled: one scan per map entry under its number; MS1 scans
   * all carry every ms1 table peak, in iteration order, numbered 1 .. n;
   * the made-up scan, when it is still in the map, spans the running range.
   */
  lemma TimResultSpec(st: TimState, keys1: seq<real>, keys2: seq<int>, canceled: Poll -> bool)
    requires TimOk(st) && IsOrderOf(keys1, st.ms1.Keys) && IsOrderOf(keys2, st.byNumber.Keys)
    requires RefsIn(ValuesIn(st.ms1, keys1), |st.heap.peaks|) && RefsIn(ValuesIn(st.byNumber, keys2), |st.heap.scans|)
    requires !CanceledInMs1(canceled, |keys1|) && !CanceledInCollect(canceled, |keys2|)
    ensures var refs1, refs2 := ValuesIn(st.ms1, keys1), ValuesIn(st.byNumber, keys2);
      var out := Closing(TimClose(st), refs1, refs2, false, canceled);
      ScanListOk(out) && |out.scans| == |st.byNumber| &&
      (forall k :: 0 <= k < |out.scans| ==> out.scans[k].scanNo == keys2[k]) &&
      (forall k :: 0 <= k < |out.scans| && out.scans[k].msLevel == 1 ==> out.scans[k].peaklist == refs1) &&
      (forall k :: 0 <= k < |out.scans| && refs2[k] == 0 ==>
         out.scans[k].scanStart == st.low && out.scans[k].scanEnd == st.high) &&
      (forall k :: 0 <= k < |refs1| ==> out.peaks[refs1[k]].id == k + 1)
  {
    var refs1, refs2 := ValuesIn(st.ms1, keys1), ValuesIn(st.byNumber, keys2);
    var heap := TimClose(st);
    TimMs1List(st, keys1);
    ClosingSpec(heap, refs1, refs2, false, canceled);
    KeysCount(keys2, st.byNumber.Keys);
    TimCloseNumbers(st, keys2);
  }

  /**
   * Without the filter the MS1 list is the table's peaks in iteration
   * order; as the table holds each peak once, they are numbered 1 .. n.
   */
  lemma TimMs1List(st: TimState, keys1: seq<real>)
    requires TimOk(st) && IsOrderOf(keys1, st.ms1.Keys) && RefsIn(ValuesIn(st.ms1, keys1), |st.heap.peaks|)
    ensures var refs1 := ValuesIn(st.ms1, keys1);
      var n := Renumber(TimClose(st).peaks, refs1, false);
      n.list == refs1 &&
      forall k :: 0 <= k < |refs1| ==> n.peaks[refs1[k]].id == k + 1
  {
    var refs1 := ValuesIn(st.ms1, keys1);
    RenumberListComplete(st.heap.peaks, refs1, false);
    RenumberIds(st.heap.peaks, refs1, false);
    Ms1ValuesOnce(st.ms1, keys1);
  }

  /** Read in any key order, a table that holds each peak once lists no peak twice. */
  lemma Ms1ValuesOnce(ms1: map<real, PeakRef>, keys1: seq<real>)
    requires Ms1Distinct(ms1) && IsOrderOf(keys1, ms1.Keys)
    ensures forall k :: 0 <= k < |keys1| ==> ValuesIn(ms1, keys1)[k] !in ValuesIn(ms1, keys1)[k + 1..]
  {
    var refs1 := ValuesIn(ms1, keys1);
    forall k | 0 <= k < |keys1| ensures refs1[k] !in refs1[k + 1..] {
      assert forall j :: k < j < |keys1| ==> keys1[k] != keys1[j] && refs1[j] != refs1[k];
    }
  }

  /** After closing, the scan map still files each scan under its number, and the made-up scan spans the range. */
  lemma TimCloseNumbers(st: TimState, keys2: seq<int>)
    requires TimOk(st) && IsOrderOf(keys2, st.byNumber.Keys) && RefsIn(ValuesIn(st.byNumber, keys2), |st.heap.scans|)
    ensures var heap, refs2 := TimClose(st), ValuesIn(st.byNumber, keys2);
      (forall k :: 0 <= k < |keys2| ==> heap.scans[refs2[k]].scanNo == keys2[k]) &&
      heap.scans[0].scanStart == st.low && heap.scans[0].scanEnd == st.high
  {
    assert forall n :: n in st.byNumber ==> st.heap.scans[st.byNumber[n]].scanNo == n;
  }

  /**
   * addAllScansTIM's result: the empty list for a file with no scan; direct
   * infusion's result when the first scan is MS1; null when the scan loop
   * fails; the empty list when canceled; otherwise the closing phase, with
   * no filter, over the tables' iteration orders `keys1` and `keys2`.
   */
  ghost predicate TimOutcome(src: Source, canceled: Poll -> bool, out: Option<ScanList>, keys1: seq<real>, keys2: seq<int>)
  {
    FirstScanNumberSpec(src);
    if FirstScanNumber(src) == -1 then out == Some(EmptyScanList)
    else if src.scans[FirstScanNumber(src)].header.msLevel == 1 then DiOutcome(src, canceled, out, keys1, keys2)
    else
      match TimScans(src, canceled)
      case Failed => out.None?
      case Canceled => out == Some(EmptyScanList)
      case Running(st) =>
        IsOrderOf(keys1, st.ms1.Keys) && IsOrderOf(keys2, st.byNumber.Keys) &&
        RefsIn(ValuesIn(st.ms1, keys1), |st.heap.peaks|) && RefsIn(ValuesIn(st.byNumber, keys2), |st.heap.scans|) &&
        out == Some(Closing(TimClose(st), ValuesIn(st.ms1, keys1), ValuesIn(st.byNumber, keys2), false, canceled))
  }

  // ----- the source's loops -----

  /**
   * The TIM peak loop over the rows: positive peaks allocated and listed,
   * their intensities summed, and, while the precursor's intensity is not
   * positive, the backup taken from the last row within 0.5 of its m/z.
   */
  method TimPeakLoop(peaks0: seq<Peak>, a: MassIntensityList, mostAbundant: real, pre: Peak)
      returns (st: Ingested, backup: real)
    requires mostAbundant > 0.0
    ensures var spec := IngestUpTo(peaks0, a, mostAbundant, true, |a.mz|);
      st.peaks == spec.peaks && st.added == spec.added && st.total == spec.total
    ensures pre.intensity <= 0.0 ==> backup == BackupIntensity(a, pre.mz, |a.mz|)
  {
    SentinelBounds();
    var minDelta := DoubleMaxValue;
    backup := 1.0;
    st := Ingested(peaks0, [], DoubleMaxValue, DoubleMinValue, 0.0);
    var j := 0;
    while j < |a.mz|
      invariant j <= |a.mz|
      invariant var spec := IngestUpTo(peaks0, a, mostAbundant, true, j);
        st.peaks == spec.peaks && st.added == spec.added && st.total == spec.total
      invariant pre.intensity <= 0.0 ==> backup == BackupIntensity(a, pre.mz, j)
    {
      if a.intensity[j] > 0.0 {
        var p := NewPeak(j + 1, a.mz[j], a.intensity[j]);
        p := p.(relativeIntensity := Some(p.intensity / mostAbundant));
        st := st.(peaks := st.peaks + [p], added := st.added + [|st.peaks|], total := st.total + p.intensity);
        if pre.intensity <= 0.0 {
          var delta := Abs(pre.mz - p.mz);
          if delta < 0.5 && delta < minDelta {
            backup := p.intensity;
          }
        }
      }
      j := j + 1;
    }
  }

  method LoadTimPeaks(heap: Heap, r: ScanRef, raw: RawScan) returns (h': Heap)
    requires HeapOk(heap) && r < |heap.scans| && heap.scans[r].mostAbundantPeak == Some(MostAbundant(raw))
    requires heap.scans[r].precursor.Some?
    ensures h' == TimLoad(heap, r, raw)
  {
    if raw.massIntensity.None? {
      return heap;
    }
    var a := raw.massIntensity.value;
    var s := heap.scans[r];
    assert ScanRefsOk(heap.peaks, s);
    var pre := s.precursor.value;
    var st, backup := TimPeakLoop(heap.peaks, a, s.mostAbundantPeak.value, heap.peaks[pre]);
    IngestKeepsStore(heap.peaks, a, s.mostAbundantPeak.value, true, |a.mz|);
    var peaks := st.peaks;
    if heap.peaks[pre].intensity <= 0.0 {
      peaks := peaks[pre := peaks[pre].(intensity := backup)];
    }
    s := s.(peaklist := s.peaklist + st.added, totalNumPeaks := Some(|a.mz|), totalIntensity := Some(st.total));
    h' := Heap(peaks, heap.scans[r := s]);
  }

  /** One pass of the TIM scan loop, as the source writes it. */
  method ReadScanTim(st: TimState, src: Source, i: int) returns (r: Option<TimState>)
    requires TimShape(st)
    ensures r == TimStep(st, src, i)
  {
    var raw := Rap(src, i);
    if raw.None? {
      return Some(st);
    }
    var h := raw.value.header;
    TimScanParts(st, raw.value);
    var heap, ref, last, pn := OpenTim(st, raw.value);
    ghost var heap3 := heap;
    var ms1 := st.ms1;
    var peak: PeakRef;
    if h.msLevel == 2 {
      var precursor := Ms1Precursor(heap, h, ms1);
      heap, peak, ms1 := precursor.0, precursor.1, precursor.2;
    } else {
      if pn !in st.byNumber {
        return None;
      }
      var anchored;
      heap, anchored := GetPrecursorPeak(heap, Some(st.byNumber[pn]), h);
      peak := anchored.value;
    }
    assert |heap.scans| == |heap3.scans| && |heap3.peaks| <= |heap.peaks|;
    r := LinkTim(st, heap, ref, peak, raw.value, last, ms1, pn);
  }

  /** The start of a TIM pass: the scan stored, the made-up scan's polarity, the parent number. */
  method OpenTim(st: TimState, raw: RawScan) returns (heap: Heap, ref: ScanRef, last: map<int, int>, pn: int)
    requires TimShape(st)
    ensures heap == TimHeap3(st, raw) && ref == |st.heap.scans|
    ensures last == st.lastOfLevel[raw.header.msLevel := raw.header.num] && pn == TimParent(last, raw.header)
  {
    var h := raw.header;
    var maxIntensity := GetMostAbundantPeak(raw);
    var created := NewScan(st.heap, ScanOfHeader(h, maxIntensity));
    heap, ref := created.0, created.1;
    last := st.lastOfLevel[h.msLevel := h.num];
    var polarity := PolarityOf(h.polarity);
    if polarity.Some? && heap.scans[0].polarity.None? {
      heap := UpdateScan(heap, 0, heap.scans[0].(polarity := polarity));
    }
    pn := -1;
    if h.precursorScanNum != -1 {
      pn := h.precursorScanNum;
    } else if h.msLevel - 1 in last {
      pn := last[h.msLevel - 1];
    }
    heap := UpdateScan(heap, ref, heap.scans[ref].(parentScan := Some(pn)));
  }

  /** The rest of a TIM pass, as the source writes it. */
  method LinkTim(st: TimState, heap: Heap, r: ScanRef, ref: PeakRef, raw: RawScan, last: map<int, int>,
                 ms1: map<real, PeakRef>, pn: int) returns (res: Option<TimState>)
    requires HeapOk(heap) && r < |heap.scans| && ref < |heap.peaks| && heap.scans[r].mostAbundantPeak == Some(MostAbundant(raw))
    requires forall x :: x in ms1 ==> ms1[x] < |heap.peaks|
    requires forall n :: n in st.byNumber ==> st.byNumber[n] < |heap.scans|
    ensures res == TimLink(st, heap, r, ref, raw, last, ms1, pn)
  {
    var h := raw.header;
    var heap' := WithPrecursor(heap, r, ref);
    heap' := LoadTimPeaks(heap', r, raw);
    var byNumber := st.byNumber[h.num := r];
    if pn !in byNumber {
      return None;
    }
    var parent := heap'.scans[byNumber[pn]];
    heap' := UpdateScan(heap', byNumber[pn], parent.(subScans := parent.subScans + [h.num]));
    var low, high := st.low, st.high;
    if h.lowMz > 0.0 && h.lowMz < low {
      low := h.lowMz;
    }
    if h.highMz > high {
      high := h.highMz;
    }
    res := Some(TimState(heap', last, byNumber, ms1, low, high));
  }

  /** addAllScansTIM. */
  method AddAllScansTim(src: Source, canceled: Poll -> bool)
      returns (out: Option<ScanList>, ghost keys1: seq<real>, ghost keys2: seq<int>)
    ensures TimOutcome(src, canceled, out, keys1, keys2)
  {
    keys1, keys2 := [], [];
    var first := GetFirstScanNumber(src);
    FirstScanNumberSpec(src);
    if first == -1 {
      return Some(EmptyScanList), keys1, keys2;
    }
    if src.scans[first].header.msLevel == 1 {
      out, keys1, keys2 := AddAllScansDirectInfusion(src, canceled);
      return;
    }
    var run := TimLoop(src, canceled, first);
    if run.Canceled? {
      return Some(EmptyScanList), keys1, keys2;
    } else if run.Failed? {
      return None, keys1, keys2;
    }
    var st := run.st;
    var root := st.heap.scans[0];
    var heap := UpdateScan(st.heap, 0, root.(scanStart := st.low, scanEnd := st.high));
    assert forall x :: x in st.ms1 ==> st.ms1[x] < |st.heap.peaks|;
    assert forall n :: n in st.byNumber ==> st.byNumber[n] < |st.heap.scans|;
    var list;
    list, keys1, keys2 := Finalize(heap, st.ms1, st.byNumber, false, canceled);
    out := Some(list);
  }

  /** The TIM scan loop from the first scan to the last number. */
  method TimLoop(src: Source, canceled: Poll -> bool, first: int) returns (run: Run<TimState>)
    requires first <= src.maxScanNumber + 1
    ensures run == TimRun(src, canceled, first, src.maxScanNumber + 1)
  {
    run := Running(TimInit);
    var i := first;
    while i <= src.maxScanNumber && run.Running?
      invariant first <= i <= src.maxScanNumber + 1
      invariant run == TimRun(src, canceled, first, i)
      decreases src.maxScanNumber - i
    {
      if canceled(AtScan(i)) {
        run := Canceled;
      } else {
        var next := ReadScanTim(run.st, src, i);
        run := if next.None? then Failed else Running(next.value);
      }
      i := i + 1;
    }
    if run.Canceled? {
      TimRunStaysCanceled(src, canceled, first, i, src.maxScanNumber + 1);
    } else if run.Failed? {
      TimRunStaysFailed(src, canceled, first, i, src.maxScanNumber + 1);
    }
  }
}
