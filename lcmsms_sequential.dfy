/**
 * addAllScansLCMSMS(parser, parentScanNum): the scans from `parentScanNum`
 * to the end of the file, in number order. A scan above the requested
 * scan's level is hung under the scan its header names as precursor, or
 * under the last scan of the highest lower level seen; a scan whose parent
 * is not in the map is dropped. The sibling cutoff that would stop at the
 * next scan of the requested level is commented out in the source, so the
 * loop always runs to the last scan number.
 */
module LcMsMsSequential {
  import opened Wrappers
  import opened Spectra
  import opened Records
  import opened ScanSource
  import opened PeakLists
  import opened Ingestion
  import opened Assembly
  import opened DirectInfusion

  /**
   * The loop state: the scan store, the last scan number seen at each
   * header level, the scan map by number, the ms1 table by precursor m/z,
   * and whether the requested scan number has been reached.
   */
  datatype LsState = LsState(
    heap: Heap,
    lastOfLevel: map<int, int>,
    byNumber: map<int, ScanRef>,
    ms1: map<real, PeakRef>,
    found: bool)

  const LsInit := LsState(EmptyHeap, map[], map[], map[], false)

  ghost predicate LsShape(st: LsState)
  {
    HeapOk(st.heap) && TablesOk(st.heap, st.ms1, st.byNumber)
  }

  /**
   * What the loop keeps: every stored peak is positive or a precursor, the
   * map files each scan under its own number, every ms1 table peak is marked
   * and carries a precursor intensity.
   */
  ghost predicate LsOk(st: LsState)
  {
    LsShape(st) && PeaksOk(st.heap.peaks) &&
    (forall n :: n in st.byNumber ==> st.heap.scans[st.byNumber[n]].scanNo == n) &&
    (forall x :: x in st.ms1 ==> Ms1Kept(st.heap.peaks[st.ms1[x]]))
  }

  /** The same tables, as the direct-infusion loop holds them. */
  function AsDi(st: LsState): DiState
  {
    DiState(st.heap, st.lastOfLevel, st.byNumber, st.ms1, [])
  }

  /**
   * One pass of the scan loop for number i, with `plevel` the level of the
   * requested scan `pnum`: nothing happens before `pnum` is reached or for an
   * absent number.
   */
  function LsStep(st: LsState, src: Source, canceled: Poll -> bool, pnum: int, plevel: int, i: int): (r: Run<LsState>)
    requires LsShape(st)
    ensures r.Running? ==> LsShape(r.st)
  {
    var st0 := if i == pnum then st.(found := true) else st;
    if !st0.found || i !in src.scans then Running(st0)
    else LsScan(st0, src.scans[i], canceled, plevel, i)
  }

  /** A present scan: a new scan from the header, recorded as the last of its level, then filed or hung. */
  function LsScan(st: LsState, raw: RawScan, canceled: Poll -> bool, plevel: int, i: int): (r: Run<LsState>)
    requires LsShape(st)
    ensures r.Running? ==> LsShape(r.st)
  {
    var h := raw.header;
    var (heap1, r) := NewScan(st.heap, ScanOfHeader(h, MostAbundant(raw)));
    assert forall n :: n in st.byNumber ==> st.byNumber[n] < |st.heap.scans|;
    var st1 := st.(heap := heap1, lastOfLevel := st.lastOfLevel[h.msLevel := h.num]);
    if h.msLevel <= plevel then LsLoad(st1, r, raw, canceled, i)
    else
      var pn := DiParent(st1.lastOfLevel, h);
      if pn.None? then Failed else LsHang(st1, r, raw, pn.value, canceled, i)
  }

  /** An MSn scan r with parent number pn: dropped when the parent is not in the map, else attached, filed and loaded. */
  function LsHang(st: LsState, r: ScanRef, raw: RawScan, pn: int, canceled: Poll -> bool, i: int): (res: Run<LsState>)
    requires LsShape(st) && r < |st.heap.scans| && st.heap.scans[r].mostAbundantPeak == Some(MostAbundant(raw))
    ensures res.Running? ==> LsShape(res.st)
    ensures !res.Failed?
  {
    var heap2 := UpdateScan(st.heap, r, st.heap.scans[r].(parentScan := Some(pn)));
    assert forall n :: n in st.byNumber ==> st.byNumber[n] < |st.heap.scans|;
    assert forall x :: x in st.ms1 ==> st.ms1[x] < |st.heap.peaks|;
    if pn !in st.byNumber then Running(st.(heap := heap2))
    else
      var (heap3, ms1') := Attach(heap2, r, st.byNumber[pn], raw.header, st.ms1);
      LsLoad(st.(heap := heap3, ms1 := ms1'), r, raw, canceled, i)
  }

  /** Scan r is filed under its number, then its peaks are loaded with polling. */
  function LsLoad(st: LsState, r: ScanRef, raw: RawScan, canceled: Poll -> bool, i: int): (res: Run<LsState>)
    requires LsShape(st) && r < |st.heap.scans| && st.heap.scans[r].mostAbundantPeak == Some(MostAbundant(raw))
    ensures res.Running? ==> LsShape(res.st)
    ensures !res.Failed?
  {
    assert forall n :: n in st.byNumber ==> st.byNumber[n] < |st.heap.scans|;
    assert forall x :: x in st.ms1 ==> st.ms1[x] < |st.heap.peaks|;
    match LoadPolled(st.heap, r, raw, canceled, i)
    case None => Canceled
    case Some(heap') => Running(st.(heap := heap', byNumber := st.byNumber[raw.header.num := r]))
  }

  /** The scan loop over numbers first .. n - 1, polling for cancellation at the top of every pass. */
  function LsRun(src: Source, canceled: Poll -> bool, pnum: int, plevel: int, first: int, n: int): (r: Run<LsState>)
    requires first <= n
    ensures r.Running? ==> LsShape(r.st)
    decreases n - first
  {
    if n == first then Running(LsInit)
    else
      match LsRun(src, canceled, pnum, plevel, first, n - 1)
      case Running(st) =>
        if canceled(AtScan(n - 1)) then Canceled else LsStep(st, src, canceled, pnum, plevel, n - 1)
      case other => other
  }

  // ----- what one pass does -----

  /** Before the requested number is reached the loop reads nothing. */
  lemma {:induction false} LsRunBeforeParent(src: Source, canceled: Poll -> bool, pnum: int, plevel: int, first: int, n: int)
    requires first <= n && !(first <= pnum < n)
    ensures LsRun(src, canceled, pnum, plevel, first, n) == Running(LsInit) ||
            LsRun(src, canceled, pnum, plevel, first, n) == Canceled
    decreases n - first
  {
    if n > first {
      LsRunBeforeParent(src, canceled, pnum, plevel, first, n - 1);
    }
  }

  /** Once the requested number is passed, `found` stays set. */
  lemma {:induction false} LsRunFound(src: Source, canceled: Poll -> bool, pnum: int, plevel: int, first: int, n: int)
    requires first <= pnum < n && LsRun(src, canceled, pnum, plevel, first, n).Running?
    ensures LsRun(src, canceled, pnum, plevel, first, n).st.found
    decreases n - first
  {
    if n - 1 > pnum {
      LsRunFound(src, canceled, pnum, plevel, first, n - 1);
    }
  }

  /**
   * The builder fails exactly on a scan above the requested level, reached
   * after the requested number, whose header names no precursor and for
   * which the level walk finds no scan: none of levels 1 .. n - 1 seen for an
   * MSn header, level n - 1 not seen for a header of level n <= 1.
   */
  lemma LsStepFails(st: LsState, src: Source, canceled: Poll -> bool, pnum: int, plevel: int, i: int)
    requires LsShape(st)
    ensures LsStep(st, src, canceled, pnum, plevel, i).Failed? <==>
      (st.found || i == pnum) && i in src.scans &&
      var h := src.scans[i].header;
      var lowest := if h.msLevel > 1 then 1 else h.msLevel - 1;
      h.msLevel > plevel && h.precursorScanNum == -1 &&
      forall l :: lowest <= l < h.msLevel ==> l !in st.lastOfLevel
  {
    if (st.found || i == pnum) && i in src.scans {
      var h := src.scans[i].header;
      if h.msLevel > plevel {
        if h.msLevel > 1 {
          DiParentSpec(st.lastOfLevel, h);
        } else {
          var last' := st.lastOfLevel[h.msLevel := h.num];
          ParentLevelSpec(last', h.msLevel - 1);
          assert ParentLevel(last', h.msLevel - 1) == h.msLevel - 1;
          assert (h.msLevel - 1 in last') <==> (h.msLevel - 1 in st.lastOfLevel);
        }
      }
    }
  }

  /** A pass is canceled only inside the peak loop of scan i. */
  lemma LsStepCanceled(st: LsState, src: Source, canceled: Poll -> bool, pnum: int, plevel: int, i: int)
    requires LsShape(st) && LsStep(st, src, canceled, pnum, plevel, i).Canceled?
    ensures i in src.scans && src.scans[i].massIntensity.Some? &&
      exists j :: 0 <= j < |src.scans[i].massIntensity.value.mz| && canceled(AtPeak(i, j))
  {
  }

  /** A scan at or below the requested level is filed under its number with no parent, and loaded. */
  lemma LsStepRoot(st: LsState, src: Source, canceled: Poll -> bool, pnum: int, plevel: int, i: int)
    requires LsShape(st) && (st.found || i == pnum) && i in src.scans && src.scans[i].header.msLevel <= plevel
    requires LsStep(st, src, canceled, pnum, plevel, i).Running?
    ensures var st', h := LsStep(st, src, canceled, pnum, plevel, i).st, src.scans[i].header;
      var r := |st.heap.scans|;
      |st'.heap.scans| == r + 1 && st'.byNumber == st.byNumber[h.num := r] &&
      st'.lastOfLevel == st.lastOfLevel[h.msLevel := h.num] && st'.ms1 == st.ms1 && st'.found &&
      st'.heap.scans[r].scanNo == h.num && st'.heap.scans[r].msLevel == h.msLevel &&
      st'.heap.scans[r].parentScan.None? && st'.heap.scans[r].precursor.None? &&
      st'.heap.scans[..r] == st.heap.scans && st.heap.peaks <= st'.heap.peaks
  {
    var raw := src.scans[i];
    var st0 := st.(found := true);
    var (heap1, r) := NewScan(st0.heap, ScanOfHeader(raw.header, MostAbundant(raw)));
    var heap' := LoadAll(heap1, r, raw);
    assert heap'.scans[..r] == st.heap.scans;
  }

  /** A scan above the requested level whose parent is not in the map is dropped: only the level table changes. */
  lemma LsStepDropped(st: LsState, src: Source, canceled: Poll -> bool, pnum: int, plevel: int, i: int)
    requires LsShape(st) && (st.found || i == pnum) && i in src.scans && src.scans[i].header.msLevel > plevel
    requires var h := src.scans[i].header;
      var pn := DiParent(st.lastOfLevel[h.msLevel := h.num], h);
      pn.Some? && pn.value !in st.byNumber
    ensures var st', h := LsStep(st, src, canceled, pnum, plevel, i), src.scans[i].header;
      st'.Running? && st'.st.byNumber == st.byNumber && st'.st.ms1 == st.ms1 &&
      st'.st.lastOfLevel == st.lastOfLevel[h.msLevel := h.num] &&
      st'.st.heap.peaks == st.heap.peaks && st'.st.heap.scans[..|st.heap.scans|] == st.heap.scans &&
      forall n :: n in st'.st.byNumber ==> st'.st.byNumber[n] < |st.heap.scans|
  {
    assert forall n :: n in st.byNumber ==> st.byNumber[n] < |st.heap.scans|;
    var st' := LsStep(st, src, canceled, pnum, plevel, i).st;
    assert st'.heap.scans[..|st.heap.scans|] == st.heap.scans;
  }

  /**
   * A scan above the requested level whose parent is in the map: its level
   * becomes the parent's plus one, its precursor is a marked peak of the
   * parent's list with its precursor m/z, the parent gains its number as a
   * sub-scan, the ms1 table gains that peak for an MS2 header, and it is
   * filed under its number.
   */
  lemma LsStepAttached(st: LsState, src: Source, canceled: Poll -> bool, pnum: int, plevel: int, i: int)
    requires LsOk(st) && (st.found || i == pnum) && i in src.scans && src.scans[i].header.msLevel > plevel
    requires var h := src.scans[i].header;
      var pn := DiParent(st.lastOfLevel[h.msLevel := h.num], h);
      pn.Some? && pn.value in st.byNumber
    requires LsStep(st, src, canceled, pnum, plevel, i).Running?
    ensures var st', h := LsStep(st, src, canceled, pnum, plevel, i).st, src.scans[i].header;
      var pn := DiParent(st.lastOfLevel[h.msLevel := h.num], h).value;
      var r, pr := |st.heap.scans|, st.byNumber[pn];
      var child := st'.heap.scans[r];
      r < |st'.heap.scans| && pr < r && st'.heap.scans[pr].scanNo == pn &&
      child.scanNo == h.num && child.parentScan == Some(pn) && child.precursor.Some? &&
      child.precursor.value < |st'.heap.peaks| &&
      st'.heap.peaks[child.precursor.value].isPrecursor &&
      st'.heap.peaks[child.precursor.value].precursorMz == Some(h.precursorMz) &&
      child.msLevel == st.heap.scans[pr].msLevel + 1 &&
      st'.heap.scans[pr].subScans == st.heap.scans[pr].subScans + [h.num] &&
      st'.byNumber == st.byNumber[h.num := r] &&
      st'.ms1 == (if h.msLevel == 2 then st.ms1[h.precursorMz := child.precursor.value] else st.ms1)
  {
    var raw := src.scans[i];
    var h := raw.header;
    var st0 := if i == pnum then st.(found := true) else st;
    var (heap1, r) := NewScan(st0.heap, ScanOfHeader(h, MostAbundant(raw)));
    var st1 := st0.(heap := heap1, lastOfLevel := st0.lastOfLevel[h.msLevel := h.num]);
    var pn := DiParent(st1.lastOfLevel, h).value;
    assert forall n :: n in st.byNumber ==> st.byNumber[n] < |st.heap.scans| && st.heap.scans[st.byNumber[n]].scanNo == n;
    assert LsShape(st1);
    assert heap1.scans[..r] == st.heap.scans;
    assert LsStep(st, src, canceled, pnum, plevel, i) == LsHang(st1, r, raw, pn, canceled, i);
    LsHangAttached(st1, r, raw, pn, canceled, i);
  }

  /** The attaching branch of LsHang, for a parent filed before the child. */
  lemma LsHangAttached(st: LsState, r: ScanRef, raw: RawScan, pn: int, canceled: Poll -> bool, i: int)
    requires LsShape(st) && r < |st.heap.scans| && st.heap.scans[r].mostAbundantPeak == Some(MostAbundant(raw))
    requires pn in st.byNumber && st.byNumber[pn] < r && st.heap.scans[st.byNumber[pn]].scanNo == pn
    requires LsHang(st, r, raw, pn, canceled, i).Running?
    ensures var st', h := LsHang(st, r, raw, pn, canceled, i).st, raw.header;
      var pr := st.byNumber[pn];
      var child := st'.heap.scans[r];
      r < |st'.heap.scans| && st'.heap.scans[pr].scanNo == pn &&
      child.scanNo == st.heap.scans[r].scanNo && child.parentScan == Some(pn) && child.precursor.Some? &&
      child.precursor.value < |st'.heap.peaks| &&
      st'.heap.peaks[child.precursor.value].isPrecursor &&
      st'.heap.peaks[child.precursor.value].precursorMz == Some(h.precursorMz) &&
      child.msLevel == st.heap.scans[pr].msLevel + 1 &&
      st'.heap.scans[pr].subScans == st.heap.scans[pr].subScans + [h.num] &&
      st'.byNumber == st.byNumber[h.num := r] &&
      st'.ms1 == (if h.msLevel == 2 then st.ms1[h.precursorMz := child.precursor.value] else st.ms1)
  {
    var h := raw.header;
    var heap2 := UpdateScan(st.heap, r, st.heap.scans[r].(parentScan := Some(pn)));
    var pr := st.byNumber[pn];
    AttachSpec(heap2, r, pr, h, st.ms1);
    var (heap3, ms1') := Attach(heap2, r, pr, h, st.ms1);
    var heap' := LoadAll(heap3, r, raw);
    assert heap2.scans[pr].scanNo == pn;
    assert heap'.scans[r].precursor == heap3.scans[r].precursor;
  }


  // ----- what the loop keeps -----

  /** Storing the header's scan keeps the invariant; the map does not file it yet. */
  lemma LsStoredOk(st: LsState, raw: RawScan)
    requires LsOk(st)
    ensures var h := raw.header;
      var (heap1, r) := NewScan(st.heap, ScanOfHeader(h, MostAbundant(raw)));
      var st1 := st.(heap := heap1, lastOfLevel := st.lastOfLevel[h.msLevel := h.num]);
      LsOk(st1) && SameScans(st.heap, heap1) && r == |st.heap.scans| && r < |heap1.scans| &&
      heap1.scans[r].scanNo == h.num && heap1.scans[r].mostAbundantPeak == Some(MostAbundant(raw))
  {
    var h := raw.header;
    var (heap1, r) := NewScan(st.heap, ScanOfHeader(h, MostAbundant(raw)));
    assert forall n :: n in st.byNumber ==> st.byNumber[n] < |st.heap.scans| && st.heap.scans[st.byNumber[n]].scanNo == n;
    assert forall x :: x in st.ms1 ==> st.ms1[x] < |st.heap.peaks| && Ms1Kept(st.heap.peaks[st.ms1[x]]);
    assert forall n :: n in st.byNumber ==> heap1.scans[st.byNumber[n]].scanNo == n;
  }

  /** Filing and loading scan r keeps the invariant when r carries the header's number. */
  lemma LsLoadOk(st: LsState, r: ScanRef, raw: RawScan, canceled: Poll -> bool, i: int)
    requires LsOk(st) && r < |st.heap.scans| && st.heap.scans[r].mostAbundantPeak == Some(MostAbundant(raw))
    requires st.heap.scans[r].scanNo == raw.header.num
    requires LsLoad(st, r, raw, canceled, i).Running?
    ensures var st' := LsLoad(st, r, raw, canceled, i).st;
      LsOk(st') && SameScans(st.heap, st'.heap)
  {
    var heap' := LoadAll(st.heap, r, raw);
    LoadAllPeaksOk(st.heap, r, raw);
    assert forall x :: x in st.ms1 ==> st.ms1[x] < |st.heap.peaks| && Ms1Kept(st.heap.peaks[st.ms1[x]]);
    LoadAllKeepsTable(st.heap, r, raw, st.ms1);
    assert forall n :: n in st.byNumber ==> st.byNumber[n] < |st.heap.scans| && st.heap.scans[st.byNumber[n]].scanNo == n;
    assert forall n :: n in st.byNumber ==> heap'.scans[st.byNumber[n]].scanNo == n;
  }

  /** Hanging scan r keeps the invariant, whether the parent is filed or not. */
  lemma LsHangOk(st: LsState, r: ScanRef, raw: RawScan, pn: int, canceled: Poll -> bool, i: int)
    requires LsOk(st) && r < |st.heap.scans| && st.heap.scans[r].mostAbundantPeak == Some(MostAbundant(raw))
    requires st.heap.scans[r].scanNo == raw.header.num
    requires LsHang(st, r, raw, pn, canceled, i).Running?
    ensures var st' := LsHang(st, r, raw, pn, canceled, i).st;
      LsOk(st') && SameScans(st.heap, st'.heap)
  {
    var heap2 := UpdateScan(st.heap, r, st.heap.scans[r].(parentScan := Some(pn)));
    assert SameScans(st.heap, heap2);
    if pn in st.byNumber {
      LsAttachOk(st, heap2, r, raw, st.byNumber[pn], canceled, i);
    } else {
      assert forall x :: x in st.ms1 ==> st.ms1[x] < |st.heap.peaks| && Ms1Kept(st.heap.peaks[st.ms1[x]]);
      assert forall n :: n in st.byNumber ==> st.byNumber[n] < |st.heap.scans| && st.heap.scans[st.byNumber[n]].scanNo == n;
      assert forall n :: n in st.byNumber ==> heap2.scans[st.byNumber[n]].scanNo == n;
    }
  }

  /** The attaching branch of LsHang, from the heap with the parent number set. */
  lemma LsAttachOk(st: LsState, heap2: Heap, r: ScanRef, raw: RawScan, pr: ScanRef, canceled: Poll -> bool, i: int)
    requires LsOk(st) && HeapOk(heap2) && r < |st.heap.scans| && pr < |st.heap.scans|
    requires heap2.peaks == st.heap.peaks && SameScans(st.heap, heap2) && |heap2.scans| == |st.heap.scans|
    requires heap2.scans[r].mostAbundantPeak == Some(MostAbundant(raw)) && heap2.scans[r].scanNo == raw.header.num
    requires forall x :: x in st.ms1 ==> st.ms1[x] < |heap2.peaks|
    ensures var (heap3, ms1') := Attach(heap2, r, pr, raw.header, st.ms1);
      var res := LsLoad(st.(heap := heap3, ms1 := ms1'), r, raw, canceled, i);
      res.Running? ==> LsOk(res.st) && SameScans(st.heap, res.st.heap)
  {
    DiAttachOk(AsDi(st), heap2, r, raw, pr);
    var (heap3, ms1') := Attach(heap2, r, pr, raw.header, st.ms1);
    AttachSpec(heap2, r, pr, raw.header, st.ms1);
    LsLoadFromDi(st, st.(heap := heap3, ms1 := ms1'), r, raw, canceled, i);
  }

  /** Loading the attached scan with polling: what holds of the unpolled load holds of the state it gives. */
  lemma LsLoadFromDi(st: LsState, st1: LsState, r: ScanRef, raw: RawScan, canceled: Poll -> bool, i: int)
    requires LsShape(st1) && r < |st1.heap.scans| && st1.heap.scans[r].mostAbundantPeak == Some(MostAbundant(raw))
    requires st1.heap.scans[r].scanNo == raw.header.num
    requires var d := AsDi(st1).(heap := LoadAll(st1.heap, r, raw)); DiOk(d) && SameScans(st.heap, d.heap)
    ensures var res := LsLoad(st1, r, raw, canceled, i);
      res.Running? ==> LsOk(res.st) && SameScans(st.heap, res.st.heap)
  {
    var heap' := LoadAll(st1.heap, r, raw);
    assert heap'.scans[r].scanNo == raw.header.num;
  }

  /** One pass keeps the invariant and every scan's number. */
  lemma LsStepOk(st: LsState, src: Source, canceled: Poll -> bool, pnum: int, plevel: int, i: int)
    requires LsOk(st) && LsStep(st, src, canceled, pnum, plevel, i).Running?
    ensures var st' := LsStep(st, src, canceled, pnum, plevel, i).st;
      LsOk(st') && SameScans(st.heap, st'.heap)
  {
    var st0 := if i == pnum then st.(found := true) else st;
    if st0.found && i in src.scans {
      var raw := src.scans[i];
      var h := raw.header;
      LsStoredOk(st0, raw);
      var (heap1, r) := NewScan(st0.heap, ScanOfHeader(h, MostAbundant(raw)));
      var st1 := st0.(heap := heap1, lastOfLevel := st0.lastOfLevel[h.msLevel := h.num]);
      if h.msLevel <= plevel {
        LsLoadOk(st1, r, raw, canceled, i);
      } else {
        LsHangOk(st1, r, raw, DiParent(st1.lastOfLevel, h).value, canceled, i);
      }
    }
  }

  /** The invariant holds all along the scan loop. */
  lemma {:induction false} LsRunOk(src: Source, canceled: Poll -> bool, pnum: int, plevel: int, first: int, n: int)
    requires first <= n
    ensures var run := LsRun(src, canceled, pnum, plevel, first, n);
      run.Running? ==> LsOk(run.st)
    decreases n - first
  {
    if n > first {
      LsRunOk(src, canceled, pnum, plevel, first, n - 1);
      var prev := LsRun(src, canceled, pnum, plevel, first, n - 1);
      if prev.Running? && !canceled(AtScan(n - 1)) && LsStep(prev.st, src, canceled, pnum, plevel, n - 1).Running? {
        LsStepOk(prev.st, src, canceled, pnum, plevel, n - 1);
      }
    }
  }

  /** An ended loop stays ended. */
  lemma {:induction false} LsRunStaysCanceled(src: Source, canceled: Poll -> bool, pnum: int, plevel: int, first: int, n: int, m: int)
    requires first <= n <= m && LsRun(src, canceled, pnum, plevel, first, n) == Canceled
    ensures LsRun(src, canceled, pnum, plevel, first, m) == Canceled
    decreases m - n
  {
    if m > n {
      LsRunStaysCanceled(src, canceled, pnum, plevel, first, n, m - 1);
    }
  }

  lemma {:induction false} LsRunStaysFailed(src: Source, canceled: Poll -> bool, pnum: int, plevel: int, first: int, n: int, m: int)
    requires first <= n <= m && LsRun(src, canceled, pnum, plevel, first, n) == Failed
    ensures LsRun(src, canceled, pnum, plevel, first, m) == Failed
    decreases m - n
  {
    if m > n {
      LsRunStaysFailed(src, canceled, pnum, plevel, first, n, m - 1);
    }
  }

  /** A pass never takes a number out of the map. */
  lemma LsStepKeepsKeys(st: LsState, src: Source, canceled: Poll -> bool, pnum: int, plevel: int, i: int)
    requires LsShape(st)
    ensures var r := LsStep(st, src, canceled, pnum, plevel, i);
      r.Running? ==> st.byNumber.Keys <= r.st.byNumber.Keys
  {
  }

  /** The pass over the requested number files it at the root, unless canceled. */
  lemma LsStepFilesParent(st: LsState, src: Source, canceled: Poll -> bool, pnum: int, plevel: int)
    requires LsShape(st) && pnum in src.scans && plevel == src.scans[pnum].header.msLevel
    ensures var r := LsStep(st, src, canceled, pnum, plevel, pnum);
      r.Running? || r.Canceled?
    ensures var r := LsStep(st, src, canceled, pnum, plevel, pnum);
      r.Running? ==> r.st.found && src.scans[pnum].header.num in r.st.byNumber
  {
  }

  /** From the requested number on, its header's number stays filed. */
  lemma {:induction false} LsRunHasParent(src: Source, canceled: Poll -> bool, pnum: int, first: int, n: int)
    requires pnum in src.scans && first <= pnum < n
    ensures var run := LsRun(src, canceled, pnum, src.scans[pnum].header.msLevel, first, n);
      run.Running? ==> src.scans[pnum].header.num in run.st.byNumber
    decreases n - first
  {
    if n - 1 == pnum {
      LsFilesParentAt(src, canceled, pnum, first);
    } else {
      LsRunHasParent(src, canceled, pnum, first, n - 1);
      LsKeepsParent(src, canceled, pnum, first, n);
    }
  }

  /** The pass over the requested number files its header's number, unless the loop has stopped. */
  lemma LsFilesParentAt(src: Source, canceled: Poll -> bool, pnum: int, first: int)
    requires pnum in src.scans && first <= pnum
    ensures var run := LsRun(src, canceled, pnum, src.scans[pnum].header.msLevel, first, pnum + 1);
      run.Running? ==> src.scans[pnum].header.num in run.st.byNumber
  {
    var plevel := src.scans[pnum].header.msLevel;
    var prev := LsRun(src, canceled, pnum, plevel, first, pnum);
    if prev.Running? && !canceled(AtScan(pnum)) {
      LsStepFilesParent(prev.st, src, canceled, pnum, plevel);
    }
  }

  /** A later pass keeps the requested scan's number filed. */
  lemma LsKeepsParent(src: Source, canceled: Poll -> bool, pnum: int, first: int, n: int)
    requires pnum in src.scans && first <= pnum < n - 1
    requires var run := LsRun(src, canceled, pnum, src.scans[pnum].header.msLevel, first, n - 1);
      run.Running? ==> src.scans[pnum].header.num in run.st.byNumber
    ensures var run := LsRun(src, canceled, pnum, src.scans[pnum].header.msLevel, first, n);
      run.Running? ==> src.scans[pnum].header.num in run.st.byNumber
  {
    var plevel := src.scans[pnum].header.msLevel;
    var prev := LsRun(src, canceled, pnum, plevel, first, n - 1);
    if prev.Running? && !canceled(AtScan(n - 1)) {
      assert LsRun(src, canceled, pnum, plevel, first, n) == LsStep(prev.st, src, canceled, pnum, plevel, n - 1);
      LsStepKeepsKeys(prev.st, src, canceled, pnum, plevel, n - 1);
    } else {
      assert !LsRun(src, canceled, pnum, plevel, first, n).Running?;
    }
  }

  // ----- the result -----

  /** The scan loop over the whole file, for a requested scan that exists in a file with a scan. */
  function LsScans(src: Source, canceled: Poll -> bool, pnum: int): (r: Run<LsState>)
    requires pnum in src.scans && FirstScanNumber(src) != -1
    ensures r.Running? ==> LsShape(r.st)
  {
    FirstScanNumberSpec(src);
    LsRun(src, canceled, pnum, src.scans[pnum].header.msLevel, FirstScanNumber(src), src.maxScanNumber + 1)
  }

  /**
   * A completed loop that reached the requested scan holds it in the map, and
   * a requested number outside the file's range leaves nothing to return.
   */
  lemma LsScansParent(src: Source, canceled: Poll -> bool, pnum: int)
    requires pnum in src.scans && FirstScanNumber(src) != -1
    ensures var run := LsScans(src, canceled, pnum);
      (1 <= pnum <= src.maxScanNumber && run.Running? ==> src.scans[pnum].header.num in run.st.byNumber) &&
      (!(1 <= pnum <= src.maxScanNumber) ==> run == Running(LsInit) || run == Canceled)
  {
    FirstScanNumberSpec(src);
    var first := FirstScanNumber(src);
    var plevel := src.scans[pnum].header.msLevel;
    if 1 <= pnum <= src.maxScanNumber {
      LsRunHasParent(src, canceled, pnum, first, src.maxScanNumber + 1);
    } else {
      LsRunBeforeParent(src, canceled, pnum, plevel, first, src.maxScanNumber + 1);
    }
  }

  /**
   * What the builder returns when the scan loop completes and the closing
   * loops are not canceled: one scan per map entry, in the map's order; MS1
   * scans all carry the ms1 table's peaks, each listed peak's id one past
   * its last position in the list (1 .. n when no peak repeats); other scans
   * are the stored ones.
   */
  lemma LsResultSpec(st: LsState, keys1: seq<real>, keys2: seq<int>, canceled: Poll -> bool)
    requires LsOk(st) && IsOrderOf(keys1, st.ms1.Keys) && IsOrderOf(keys2, st.byNumber.Keys)
    requires RefsIn(ValuesIn(st.ms1, keys1), |st.heap.peaks|) && RefsIn(ValuesIn(st.byNumber, keys2), |st.heap.scans|)
    requires !CanceledInMs1(canceled, |keys1|) && !CanceledInCollect(canceled, |keys2|)
    ensures var refs1, refs2 := ValuesIn(st.ms1, keys1), ValuesIn(st.byNumber, keys2);
      var out := Closing(st.heap, refs1, refs2, true, canceled);
      ScanListOk(out) && |out.scans| == |st.byNumber| &&
      (forall k :: 0 <= k < |out.scans| ==> out.scans[k].scanNo == keys2[k]) &&
      (forall k :: 0 <= k < |out.scans| && out.scans[k].msLevel == 1 ==> out.scans[k].peaklist == refs1) &&
      (forall k :: 0 <= k < |out.scans| && out.scans[k].msLevel != 1 ==> out.scans[k] == st.heap.scans[refs2[k]]) &&
      (forall k :: 0 <= k < |refs1| && refs1[k] !in refs1[k + 1..] ==> out.peaks[refs1[k]].id == k + 1)
  {
    DiResultSpec(AsDi(st), keys1, keys2, canceled);
  }

  /**
   * addAllScansLCMSMS(parser, parentScanNum)'s result: null when the
   * requested scan does not exist; the empty list for a file with no scan;
   * null when the scan loop fails; the empty list when canceled; otherwise
   * the closing phase, with the filter, over the tables' orders.
   */
  ghost predicate LsOutcome(src: Source, canceled: Poll -> bool, pnum: int, out: Option<ScanList>, keys1: seq<real>, keys2: seq<int>)
  {
    if pnum !in src.scans then out.None?
    else if FirstScanNumber(src) == -1 then out == Some(EmptyScanList)
    else
      match LsScans(src, canceled, pnum)
      case Failed => out.None?
      case Canceled => out == Some(EmptyScanList)
      case Running(st) =>
        IsOrderOf(keys1, st.ms1.Keys) && IsOrderOf(keys2, st.byNumber.Keys) &&
        RefsIn(ValuesIn(st.ms1, keys1), |st.heap.peaks|) && RefsIn(ValuesIn(st.byNumber, keys2), |st.heap.scans|) &&
        out == Some(Closing(st.heap, ValuesIn(st.ms1, keys1), ValuesIn(st.byNumber, keys2), true, canceled))
  }

  /** One pass of the scan loop, as the source writes it. */
  method LsReadScan(st: LsState, src: Source, canceled: Poll -> bool, pnum: int, plevel: int, i: int) returns (r: Run<LsState>)
    requires LsShape(st)
    ensures r == LsStep(st, src, canceled, pnum, plevel, i)
  {
    var found := st.found;
    if i == pnum {
      found := true;
    }
    if !found {
      return Running(st);
    }
    var raw := Rap(src, i);
    if raw.None? {
      return Running(st.(found := found));
    }
    var h := raw.value.header;
    var maxIntensity := GetMostAbundantPeak(raw.value);
    var created := NewScan(st.heap, ScanOfHeader(h, maxIntensity));
    var heap, ref := created.0, created.1;
    var st1 := st.(heap := heap, lastOfLevel := st.lastOfLevel[h.msLevel := h.num], found := found);
    if h.msLevel > plevel {
      var pn := h.precursorScanNum;
      if pn == -1 {
        var level := FindParentLevel(st1.lastOfLevel, h.msLevel - 1);
        if level !in st1.lastOfLevel {
          return Failed;
        }
        pn := st1.lastOfLevel[level];
      }
      r := HangOne(st1, ref, raw.value, pn, canceled, i);
    } else {
      r := LoadOne(st1, ref, raw.value, canceled, i);
    }
  }

  /** An MSn scan with parent number `pn`, dropped or attached and loaded, as the source writes it. */
  method HangOne(st: LsState, ref: ScanRef, raw: RawScan, pn: int, canceled: Poll -> bool, i: int) returns (r: Run<LsState>)
    requires LsShape(st) && ref < |st.heap.scans| && st.heap.scans[ref].mostAbundantPeak == Some(MostAbundant(raw))
    ensures r == LsHang(st, ref, raw, pn, canceled, i)
  {
    assert forall n :: n in st.byNumber ==> st.byNumber[n] < |st.heap.scans|;
    assert forall x :: x in st.ms1 ==> st.ms1[x] < |st.heap.peaks|;
    var heap := UpdateScan(st.heap, ref, st.heap.scans[ref].(parentScan := Some(pn)));
    if pn !in st.byNumber {
      return Running(st.(heap := heap));
    }
    var attached := Attach(heap, ref, st.byNumber[pn], raw.header, st.ms1);
    r := LoadOne(st.(heap := attached.0, ms1 := attached.1), ref, raw, canceled, i);
  }

  /** Scan `ref` filed under its number and its peaks loaded with polling, as the source writes it. */
  method LoadOne(st: LsState, ref: ScanRef, raw: RawScan, canceled: Poll -> bool, i: int) returns (r: Run<LsState>)
    requires LsShape(st) && ref < |st.heap.scans| && st.heap.scans[ref].mostAbundantPeak == Some(MostAbundant(raw))
    ensures r == LsLoad(st, ref, raw, canceled, i)
  {
    var byNumber := st.byNumber[raw.header.num := ref];
    var loaded := LoadPeaksPolled(st.heap, ref, raw, canceled, i);
    if loaded.None? {
      return Canceled;
    }
    r := Running(st.(heap := loaded.value, byNumber := byNumber));
  }

  /** The scan loop from `first` to the last scan number, as the source writes it. */
  method LsLoop(src: Source, canceled: Poll -> bool, pnum: int, plevel: int, first: int) returns (r: Run<LsState>)
    requires first <= src.maxScanNumber + 1
    ensures r == LsRun(src, canceled, pnum, plevel, first, src.maxScanNumber + 1)
  {
    r := Running(LsInit);
    var i := first;
    while i <= src.maxScanNumber && r.Running?
      invariant first <= i <= src.maxScanNumber + 1
      invariant r == LsRun(src, canceled, pnum, plevel, first, i)
      decreases src.maxScanNumber - i
    {
      if canceled(AtScan(i)) {
        r := Canceled;
      } else {
        r := LsReadScan(r.st, src, canceled, pnum, plevel, i);
      }
      i := i + 1;
    }
    if r.Canceled? {
      LsRunStaysCanceled(src, canceled, pnum, plevel, first, i, src.maxScanNumber + 1);
    } else if r.Failed? {
      LsRunStaysFailed(src, canceled, pnum, plevel, first, i, src.maxScanNumber + 1);
    }
  }

  method AddAllScansLcMsMs(src: Source, canceled: Poll -> bool, pnum: int)
      returns (out: Option<ScanList>, ghost keys1: seq<real>, ghost keys2: seq<int>)
    ensures LsOutcome(src, canceled, pnum, out, keys1, keys2)
  {
    keys1, keys2 := [], [];
    var parent := Rap(src, pnum);
    if parent.None? {
      return None, keys1, keys2;
    }
    var plevel := parent.value.header.msLevel;
    var first := GetFirstScanNumber(src);
    if first == -1 {
      return Some(EmptyScanList), keys1, keys2;
    }
    FirstScanNumberSpec(src);
    var run := LsLoop(src, canceled, pnum, plevel, first);
    assert run == LsScans(src, canceled, pnum);
    match run {
      case Failed => return None, keys1, keys2;
      case Canceled => return Some(EmptyScanList), keys1, keys2;
      case Running(st) =>
        var list;
        list, keys1, keys2 := Finalize(st.heap, st.ms1, st.byNumber, true, canceled);
        out := Some(list);
    }
  }
}
