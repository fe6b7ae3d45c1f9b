/**
 * getScanData(parser, msLevel, parentScanNum, scanNum): the generic
 * selector path. The loop walks every scan number, skips numbers outside
 * the selection (only `scanNum` when one is given; only `parentScanNum` ..
 * `parentScanNum + 1000` when a parent is given), hangs each scan under the
 * scan its header, the level table or the requested parent names, and
 * keeps in the result the scans the selectors pick, with their peaks. A
 * file whose first scan is above MS1 gets a made-up MS1 scan number 0 at the
 * head of the result.
 *
 * The parent reference is a variable of the loop, not of the pass: a scan
 * whose parent number is -1 is still anchored on the parent the previous
 * pass left behind, exactly as the source does.
 */
module ScanData {
  import opened Wrappers
  import opened Numeric
  import opened Spectra
  import opened Records
  import opened ScanSource
  import opened PeakLists
  import opened Ingestion
  import opened Assembly

  /** The selectors of readMzXmlFile; -1 switches one off. */
  datatype Selection = Selection(msLevel: int, parentScanNum: int, scanNum: int)

  /**
   * The made-up MS1 scan: number 0, level 1, no polarity, retention time 0.
   * Its range is set from the anchored precursor m/z values once the loop
   * ends, so the range written here is never returned.
   */
  const DataRoot: Scan := Scan(0, 1, None, None, None, None, Some(0.0), 0.0, 0.0, None, None, None, [], [], None)

  /**
   * The loop state: the scan store, the result list, the last loop number per
   * header level, the scan map by number, iLastPossiblePrecursorMSLevel,
   * iMinMSLevel, the parent variable, the m/z range of anchored precursors,
   * and whether the made-up scan exists (it is then scan 0 of the store).
   */
  datatype GsState = GsState(
    heap: Heap,
    result: seq<ScanRef>,
    lastOfLevel: map<int, int>,
    byNumber: map<int, ScanRef>,
    lastPossible: int,
    minLevel: int,
    parent: Option<ScanRef>,
    low: real,
    high: real,
    root: bool)

  /** Before the first pass, given the level of the first scan. */
  function GsInit(level: int): (st: GsState)
  {
    if level > 1 then
      GsState(Heap([], [DataRoot]), [0], map[1 := 0], map[0 := 0], 1, level, None, DoubleMaxValue, DoubleMinValue, true)
    else
      GsState(EmptyHeap, [], map[], map[], level, level, None, DoubleMaxValue, DoubleMinValue, false)
  }

  /** Every reference the state holds names a stored scan. */
  ghost predicate GsShape(st: GsState)
  {
    HeapOk(st.heap) &&
    (forall n :: n in st.byNumber ==> st.byNumber[n] < |st.heap.scans|) &&
    RefsIn(st.result, |st.heap.scans|) &&
    (st.parent.Some? ==> st.parent.value < |st.heap.scans|) &&
    (st.root ==> |st.heap.scans| > 0)
  }

  /** The numbers the selectors let the loop read. */
  predicate InWindow(sel: Selection, i: int)
  {
    !(sel.scanNum != -1 && i != sel.scanNum) &&
    !(sel.parentScanNum != -1 && (i < sel.parentScanNum || i > sel.parentScanNum + 1000))
  }

  /** The possible-precursor level after seeing a scan of level `cur`. */
  function LastPossible(lastPossible: int, minLevel: int, cur: int): int
  {
    if lastPossible < cur - 1 then cur - 1
    else if lastPossible == cur && cur - 1 >= minLevel then cur - 1
    else lastPossible
  }

  /**
   * The precursor number: the header's, else the last scan one level down
   * when the scan is above the possible-precursor level, else the requested
   * parent for an MSn scan, else -1.
   */
  function PrecursorNum(lastOfLevel: map<int, int>, sel: Selection, h: ScanHeader, lastPossible: int): int
  {
    if h.precursorScanNum != -1 then h.precursorScanNum
    else if h.msLevel > lastPossible && h.msLevel - 1 in lastOfLevel then lastOfLevel[h.msLevel - 1]
    else if sel.parentScanNum != -1 && h.msLevel > 1 then sel.parentScanNum
    else -1
  }

  /** Whether pass i puts its scan into the result (and loads its peaks). */
  predicate Selected(sel: Selection, i: int, pre: int, cur: int)
  {
    i == sel.scanNum || i == sel.parentScanNum ||
    (pre != -1 && pre == sel.parentScanNum) ||
    (sel.scanNum == -1 && sel.parentScanNum == -1 && cur == sel.msLevel)
  }

  /** Peaks are stored in a scan's list whenever a scan or a parent is selected. */
  function AddsPeaks(sel: Selection): bool
  {
    sel.scanNum != -1 || sel.parentScanNum != -1
  }

  /**
   * Looking up the parent number `pre`: -1 keeps the parent variable; a filed
   * number gives its scan; a number the file holds gives a new scan built from
   * it (filed under its own number); otherwise the made-up scan, whose level
   * becomes the possible-precursor level. None: there is no made-up scan
   * either, and the pass ends in the null dereference the per-scan catch
   * swallows.
   */
  function GsResolve(st: GsState, src: Source, pre: int): (r: Option<GsState>)
    requires GsShape(st)
    ensures r.Some? ==> GsShape(r.value) && r.value.result == st.result && r.value.heap.peaks == st.heap.peaks
    ensures r.Some? ==> st.heap.scans <= r.value.heap.scans && |r.value.heap.scans| <= |st.heap.scans| + 1
  {
    if pre == -1 then Some(st)
    else if pre in st.byNumber then Some(st.(parent := Some(st.byNumber[pre])))
    else if pre in src.scans then
      var fetched := ScanFor(Some(src.scans[pre]), -1).value;
      var (heap1, pr) := NewScan(st.heap, fetched);
      Some(st.(heap := heap1, parent := Some(pr), byNumber := st.byNumber[fetched.scanNo := pr]))
    else if st.root then
      Some(st.(parent := Some(0), lastPossible := st.heap.scans[0].msLevel,
               byNumber := st.byNumber[st.heap.scans[0].scanNo := 0]))
    else None
  }

  /**
   * Scan r above the possible-precursor level, with a parent: its precursor
   * is anchored in the parent's list, the parent gains loop number i as a
   * sub-scan, the made-up scan takes r's polarity if it has none yet, and
   * the range widens to the anchored peak's m/z.
   */
  function GsAnchor(st: GsState, r: ScanRef, h: ScanHeader, i: int): (st': GsState)
    requires GsShape(st) && r < |st.heap.scans| && st.parent.Some? && st.parent.value < r
    ensures GsShape(st') && |st'.heap.scans| == |st.heap.scans| && |st.heap.peaks| <= |st'.heap.peaks|
    ensures st'.result == st.result && st'.byNumber == st.byNumber && st'.parent == st.parent && st'.root == st.root
    ensures st'.lastOfLevel == st.lastOfLevel && st'.lastPossible == st.lastPossible && st'.minLevel == st.minLevel
    ensures st'.heap.scans[r] == st.heap.scans[r].(precursor := st'.heap.scans[r].precursor)
  {
    var p := st.parent.value;
    var (heap2, ref) := Anchor(st.heap, p, h);
    AnchorSpec(st.heap, p, h);
    var heap3 := WithPrecursor(heap2, r, ref);
    var heap4 := UpdateScan(heap3, p, heap3.scans[p].(subScans := heap3.scans[p].subScans + [i]));
    var heap5 :=
      if st.root && heap4.scans[0].polarity.None? && heap4.scans[r].polarity.Some? then
        UpdateScan(heap4, 0, heap4.scans[0].(polarity := heap4.scans[r].polarity))
      else heap4;
    var mz := heap5.peaks[ref].mz;
    st.(heap := heap5, high := if mz > st.high then mz else st.high, low := if mz < st.low then mz else st.low)
  }

  /** Scan s is stored, filed under its number and recorded as the last of level `cur` (loop number i). */
  function GsFile(st: GsState, s: Scan, cur: int, i: int): (st': GsState)
    requires GsShape(st) && s.peaklist == [] && s.precursor.None?
    ensures GsShape(st') && st'.heap.scans == st.heap.scans + [s] && st'.heap.peaks == st.heap.peaks
    ensures st' == st.(heap := st'.heap, lastOfLevel := st.lastOfLevel[cur := i],
                       byNumber := st.byNumber[s.scanNo := |st.heap.scans|])
  {
    var (heap1, r) := NewScan(st.heap, s);
    assert forall n :: n in st.byNumber ==> st.byNumber[n] < |st.heap.scans|;
    st.(heap := heap1, lastOfLevel := st.lastOfLevel[cur := i], byNumber := st.byNumber[s.scanNo := r])
  }

  /** A selected scan r has its peaks loaded, polling, and joins the result. */
  function GsSelect(st: GsState, r: ScanRef, raw: RawScan, sel: Selection, canceled: Poll -> bool, i: int): (st': GsState)
    requires GsShape(st) && r < |st.heap.scans| && st.heap.scans[r].mostAbundantPeak == Some(MostAbundant(raw))
    ensures GsShape(st') && st'.result == st.result + [r]
  {
    MostAbundantSpec(raw);
    var heap' := PeakListSet(st.heap, r, raw.massIntensity, AddsPeaks(sel), canceled, i);
    assert forall n :: n in st.byNumber ==> st.byNumber[n] < |st.heap.scans|;
    st.(heap := heap', result := st.result + [r])
  }

  /**
   * The rest of a pass once the parent is resolved: scan s is filed,
   * anchored when it is above the possible-precursor level and a parent is
   * set, and, when selected, loaded and added to the result.
   */
  function GsPlace(st: GsState, sel: Selection, canceled: Poll -> bool, i: int, raw: RawScan, s: Scan, pre: int): (st': GsState)
    requires GsShape(st) && s.peaklist == [] && s.precursor.None? && s.mostAbundantPeak == Some(MostAbundant(raw))
    ensures GsShape(st')
  {
    var cur := raw.header.msLevel;
    var r := |st.heap.scans|;
    var st1 := GsFile(st, s, cur, i);
    var st2 := if cur > st.lastPossible && st.parent.Some? then GsAnchor(st1, r, raw.header, i) else st1;
    var st3 := if Selected(sel, i, pre, cur) then GsSelect(st2, r, raw, sel, canceled, i) else st2;
    st3.(minLevel := if cur < st3.minLevel then cur else st3.minLevel)
  }

  /** One pass of the scan loop for number i. */
  function GsStep(st: GsState, src: Source, sel: Selection, canceled: Poll -> bool, i: int): (st': GsState)
    requires GsShape(st)
    ensures GsShape(st')
  {
    if !InWindow(sel, i) || i !in src.scans then st
    else
      var raw := src.scans[i];
      var h := raw.header;
      var lp := LastPossible(st.lastPossible, st.minLevel, h.msLevel);
      var pre := PrecursorNum(st.lastOfLevel, sel, h, lp);
      var s := ScanFor(Some(raw), pre).value;
      match GsResolve(st.(lastPossible := lp), src, pre)
      case None => st.(lastPossible := lp, parent := None)
      case Some(st1) => GsPlace(st1, sel, canceled, i, raw, s, pre)
  }

  /** The scan loop over numbers first .. n - 1, polling for cancellation at the top of every pass; None: canceled. */
  function GsRun(src: Source, sel: Selection, canceled: Poll -> bool, first: int, n: int): (r: Option<GsState>)
    requires first in src.scans && first <= n
    ensures r.Some? ==> GsShape(r.value)
    decreases n - first
  {
    if n == first then
      assert HeapOk(Heap([], [DataRoot])) by {
        assert ScanRefsOk([], DataRoot);
      }
      Some(GsInit(src.scans[first].header.msLevel))
    else
      match GsRun(src, sel, canceled, first, n - 1)
      case None => None
      case Some(st) => if canceled(AtScan(n - 1)) then None else Some(GsStep(st, src, sel, canceled, n - 1))
  }

  /** After the loop the made-up scan spans the anchored precursor range. */
  function GsClose(st: GsState): (heap: Heap)
    requires GsShape(st)
    ensures HeapOk(heap) && heap.peaks == st.heap.peaks && |heap.scans| == |st.heap.scans|
  {
    if st.root then UpdateScan(st.heap, 0, st.heap.scans[0].(scanStart := st.low, scanEnd := st.high))
    else st.heap
  }

  /** The result list: the scans of `result`, read after closing. */
  function GsResult(st: GsState): (out: ScanList)
    requires GsShape(st)
    ensures ScanListOk(out) && |out.scans| == |st.result|
  {
    var heap := GsClose(st);
    var out := ScanList(seq(|st.result|, k requires 0 <= k < |st.result| => heap.scans[st.result[k]]), heap.peaks);
    assert ScanListOk(out) by {
      forall k | 0 <= k < |out.scans| ensures ScanRefsOk(out.peaks, out.scans[k]) {
        assert ScanRefsOk(heap.peaks, heap.scans[st.result[k]]);
      }
    }
    out
  }

  /** getScanData: the empty list for a file with no scan or a canceled loop, else the result list. */
  function ScanDataOf(src: Source, sel: Selection, canceled: Poll -> bool): (out: ScanList)
  {
    var first := FirstScanNumber(src);
    if first == -1 then EmptyScanList
    else
      FirstScanNumberSpec(src);
      match GsRun(src, sel, canceled, first, src.maxScanNumber + 1)
      case None => EmptyScanList
      case Some(st) => GsResult(st)
  }

  /** A canceled loop stays canceled. */
  lemma {:induction false} GsRunStaysCanceled(src: Source, sel: Selection, canceled: Poll -> bool, first: int, n: int, m: int)
    requires first in src.scans && first <= n <= m && GsRun(src, sel, canceled, first, n).None?
    ensures GsRun(src, sel, canceled, first, m).None?
    decreases m - n
  {
    if m > n {
      GsRunStaysCanceled(src, sel, canceled, first, n, m - 1);
    }
  }

  // ----- what one pass does -----

  /** Numbers, levels and parent numbers of stored scans never change; the store only grows. */
  ghost predicate SameHeaders(heap: Heap, heap': Heap)
  {
    |heap.scans| <= |heap'.scans| &&
    forall q :: 0 <= q < |heap.scans| ==>
      heap'.scans[q].scanNo == heap.scans[q].scanNo && heap'.scans[q].msLevel == heap.scans[q].msLevel &&
      heap'.scans[q].parentScan == heap.scans[q].parentScan
  }

  /**
   * The lookup of parent number `pre` fails exactly when the number is
   * neither -1, nor filed, nor in the file, and no made-up scan exists; -1
   * leaves the state alone; otherwise the parent variable names a scan that
   * carries the looked-up number (or is the made-up scan).
   */
  lemma GsResolveSpec(st: GsState, src: Source, pre: int)
    requires GsShape(st)
    ensures var r := GsResolve(st, src, pre);
      (r.None? <==> pre != -1 && pre !in st.byNumber && pre !in src.scans && !st.root) &&
      (pre == -1 ==> r == Some(st)) &&
      (r.Some? ==> SameHeaders(st.heap, r.value.heap) && r.value.root == st.root &&
                   r.value.lastOfLevel == st.lastOfLevel && r.value.minLevel == st.minLevel) &&
      (r.Some? && pre != -1 ==>
         r.value.parent.Some? &&
         (pre in st.byNumber ==> r.value.parent == Some(st.byNumber[pre])) &&
         (pre !in st.byNumber && pre in src.scans ==>
            r.value.heap.scans[r.value.parent.value].scanNo == src.scans[pre].header.num) &&
         (pre !in st.byNumber && pre !in src.scans ==>
            r.value.parent == Some(0) && r.value.lastPossible == st.heap.scans[0].msLevel))
  {
  }

  /**
   * Anchoring scan r: its precursor is a marked peak of the parent's list
   * carrying the header's precursor m/z, the parent's sub-scans gain loop
   * number i, the range covers that peak's m/z, and no stored number, level
   * or parent number changes.
   */
  lemma GsAnchorSpec(st: GsState, r: ScanRef, h: ScanHeader, i: int)
    requires GsShape(st) && r < |st.heap.scans| && st.parent.Some? && st.parent.value < r
    ensures var st', p := GsAnchor(st, r, h, i), st.parent.value;
      var c := st'.heap.scans[r];
      SameHeaders(st.heap, st'.heap) &&
      (PeaksOk(st.heap.peaks) ==> PeaksOk(st'.heap.peaks)) &&
      c.precursor.Some? && c.precursor.value < |st'.heap.peaks| &&
      c.precursor.value in st'.heap.scans[p].peaklist &&
      st'.heap.peaks[c.precursor.value].isPrecursor &&
      st'.heap.peaks[c.precursor.value].precursorMz == Some(h.precursorMz) &&
      st'.heap.scans[p].subScans == st.heap.scans[p].subScans + [i] &&
      st'.low <= st'.heap.peaks[c.precursor.value].mz <= st'.high
  {
    var p := st.parent.value;
    AnchorSpec(st.heap, p, h);
    var (heap2, ref) := Anchor(st.heap, p, h);
    var heap3 := WithPrecursor(heap2, r, ref);
    var heap4 := UpdateScan(heap3, p, heap3.scans[p].(subScans := heap3.scans[p].subScans + [i]));
    var heap5 :=
      if st.root && heap4.scans[0].polarity.None? && heap4.scans[r].polarity.Some? then
        UpdateScan(heap4, 0, heap4.scans[0].(polarity := heap4.scans[r].polarity))
      else heap4;
    assert GsAnchor(st, r, h, i).heap == heap5;
    assert heap5.peaks == heap2.peaks;
    assert heap5.scans[r].precursor == Some(ref);
    assert heap5.scans[p].peaklist == heap2.scans[p].peaklist;
    assert heap5.scans[p].subScans == st.heap.scans[p].subScans + [i];
    assert SameHeaders(st.heap, heap5) by {
      forall q | 0 <= q < |st.heap.scans|
        ensures heap5.scans[q].scanNo == st.heap.scans[q].scanNo && heap5.scans[q].msLevel == st.heap.scans[q].msLevel &&
                heap5.scans[q].parentScan == st.heap.scans[q].parentScan
      {
        assert heap2.scans[q].scanNo == st.heap.scans[q].scanNo && heap2.scans[q].msLevel == st.heap.scans[q].msLevel &&
               heap2.scans[q].parentScan == st.heap.scans[q].parentScan;
      }
    }
    assert PeaksOk(st.heap.peaks) ==> PeaksOk(heap2.peaks) by {
      if PeaksOk(st.heap.peaks) {
        forall q | 0 <= q < |heap2.peaks| ensures heap2.peaks[q].intensity > 0.0 || heap2.peaks[q].isPrecursor {
          if q != ref {
            assert heap2.peaks[q] == st.heap.peaks[q];
          }
        }
      }
    }
  }

  /** Loading a selected scan keeps every stored number, level and parent number, and every peak positive or marked. */
  lemma GsSelectSpec(st: GsState, r: ScanRef, raw: RawScan, sel: Selection, canceled: Poll -> bool, i: int)
    requires GsShape(st) && r < |st.heap.scans| && st.heap.scans[r].mostAbundantPeak == Some(MostAbundant(raw))
    ensures var st' := GsSelect(st, r, raw, sel, canceled, i);
      SameHeaders(st.heap, st'.heap) && |st'.heap.scans| == |st.heap.scans| &&
      (PeaksOk(st.heap.peaks) ==> PeaksOk(st'.heap.peaks)) &&
      st'.heap.scans[r].precursor == st.heap.scans[r].precursor &&
      st' == st.(heap := st'.heap, result := st.result + [r])
  {
    MostAbundantSpec(raw);
    if raw.massIntensity.Some? {
      var a := raw.massIntensity.value;
      var stop := StopFrom(canceled, i, 0, |a.mz|);
      if PeaksOk(st.heap.peaks) {
        LoadIntoPeaksOk(st.heap, r, a, AddsPeaks(sel), stop);
      }
    }
  }

  /**
   * After the parent lookup: the new scan r = |store| keeps the number,
   * level and parent number of `s`; it joins the result exactly when the
   * pass is selected; when it is above the possible-precursor level and a
   * parent is set it is anchored on that parent, otherwise it has no
   * precursor.
   */
  lemma GsPlaceSpec(st: GsState, sel: Selection, canceled: Poll -> bool, i: int, raw: RawScan, s: Scan, pre: int)
    requires GsShape(st) && s.peaklist == [] && s.precursor.None? && s.mostAbundantPeak == Some(MostAbundant(raw))
    ensures var st', r := GsPlace(st, sel, canceled, i, raw, s, pre), |st.heap.scans|;
      SameHeaders(st.heap, st'.heap) && |st'.heap.scans| == r + 1 &&
      st'.heap.scans[r].scanNo == s.scanNo && st'.heap.scans[r].msLevel == s.msLevel &&
      st'.heap.scans[r].parentScan == s.parentScan &&
      (PeaksOk(st.heap.peaks) ==> PeaksOk(st'.heap.peaks)) &&
      st'.result == (if Selected(sel, i, pre, raw.header.msLevel) then st.result + [r] else st.result) &&
      st'.root == st.root && st'.lastOfLevel == st.lastOfLevel[raw.header.msLevel := i] &&
      st'.byNumber == st.byNumber[s.scanNo := r] &&
      (!(raw.header.msLevel > st.lastPossible && st.parent.Some?) ==> st'.heap.scans[r].precursor.None?)
  {
    var cur := raw.header.msLevel;
    var r := |st.heap.scans|;
    var st1 := GsFile(st, s, cur, i);
    var st2 := if cur > st.lastPossible && st.parent.Some? then GsAnchor(st1, r, raw.header, i) else st1;
    GsFiledSpec(st, i, raw, s);
    if Selected(sel, i, pre, cur) {
      GsSelectSpec(st2, r, raw, sel, canceled, i);
      SameHeadersTrans(st.heap, st2.heap, GsSelect(st2, r, raw, sel, canceled, i).heap);
    }
  }

  /** The part of GsPlace before selection: the scan filed and, when due, anchored. */
  lemma GsFiledSpec(st: GsState, i: int, raw: RawScan, s: Scan)
    requires GsShape(st) && s.peaklist == [] && s.precursor.None? && s.mostAbundantPeak == Some(MostAbundant(raw))
    ensures var cur, r := raw.header.msLevel, |st.heap.scans|;
      var st1 := GsFile(st, s, cur, i);
      var st2 := if cur > st.lastPossible && st.parent.Some? then GsAnchor(st1, r, raw.header, i) else st1;
      GsShape(st2) && SameHeaders(st.heap, st2.heap) && |st2.heap.scans| == r + 1 &&
      st2.heap.scans[r].scanNo == s.scanNo && st2.heap.scans[r].msLevel == s.msLevel &&
      st2.heap.scans[r].parentScan == s.parentScan &&
      st2.heap.scans[r].mostAbundantPeak == Some(MostAbundant(raw)) &&
      (PeaksOk(st.heap.peaks) ==> PeaksOk(st2.heap.peaks)) &&
      st2.result == st.result && st2.root == st.root && st2.lastOfLevel == st.lastOfLevel[cur := i] &&
      st2.byNumber == st.byNumber[s.scanNo := r] &&
      (!(cur > st.lastPossible && st.parent.Some?) ==> st2.heap.scans[r].precursor.None?)
  {
    var cur := raw.header.msLevel;
    var r := |st.heap.scans|;
    var st1 := GsFile(st, s, cur, i);
    assert SameHeaders(st.heap, st1.heap);
    if cur > st.lastPossible && st.parent.Some? {
      GsAnchorSpec(st1, r, raw.header, i);
      SameHeadersTrans(st.heap, st1.heap, GsAnchor(st1, r, raw.header, i).heap);
    }
  }

  lemma SameHeadersTrans(a: Heap, b: Heap, c: Heap)
    requires SameHeaders(a, b) && SameHeaders(b, c)
    ensures SameHeaders(a, c)
  {
  }

  /**
   * The stale parent: a scan whose precursor number comes out as -1 but
   * whose level is above the possible-precursor level is still anchored,
   * on the parent the previous pass left in the variable, while its own
   * parent number says -1.
   */
  lemma GsStepStaleParent(st: GsState, src: Source, sel: Selection, canceled: Poll -> bool, i: int)
    requires GsShape(st) && InWindow(sel, i) && i in src.scans && st.parent.Some?
    requires var h := src.scans[i].header;
      var lp := LastPossible(st.lastPossible, st.minLevel, h.msLevel);
      PrecursorNum(st.lastOfLevel, sel, h, lp) == -1 && h.msLevel > lp
    ensures var st', r, p := GsStep(st, src, sel, canceled, i), |st.heap.scans|, st.parent.value;
      r < |st'.heap.scans| && st'.heap.scans[r].parentScan == Some(-1) &&
      st'.heap.scans[r].precursor.Some? &&
      st'.heap.scans[r].precursor.value in st'.heap.scans[p].peaklist &&
      st'.heap.scans[p].subScans == st.heap.scans[p].subScans + [i]
  {
    var raw := src.scans[i];
    var h := raw.header;
    var lp := LastPossible(st.lastPossible, st.minLevel, h.msLevel);
    var st0 := st.(lastPossible := lp);
    var s := ScanFor(Some(raw), -1).value;
    var r := |st.heap.scans|;
    var p := st.parent.value;
    var st1 := GsFile(st0, s, h.msLevel, i);
    GsAnchorSpec(st1, r, h, i);
    var st2 := GsAnchor(st1, r, h, i);
    assert st2.heap.scans[r].mostAbundantPeak == Some(MostAbundant(raw));
    if Selected(sel, i, -1, h.msLevel) {
      MostAbundantSpec(raw);
      var st3 := GsSelect(st2, r, raw, sel, canceled, i);
      assert st3.heap.scans[r].precursor == st2.heap.scans[r].precursor;
      assert st3.heap.scans[p] == st2.heap.scans[p];
    }
  }

  /**
   * One pass: outside the window, or for a number the file lacks, nothing
   * changes. Otherwise the possible-precursor level is updated first; a
   * parent number that cannot be looked up ends the pass with the parent
   * variable cleared and nothing stored; else a new scan carrying the
   * header's number and level and the chosen parent number is stored, and
   * it joins the result exactly when the selectors pick it.
   */
  lemma GsStepSpec(st: GsState, src: Source, sel: Selection, canceled: Poll -> bool, i: int)
    requires GsShape(st)
    ensures var st' := GsStep(st, src, sel, canceled, i);
      (!InWindow(sel, i) || i !in src.scans ==> st' == st) &&
      (InWindow(sel, i) && i in src.scans ==>
        var h := src.scans[i].header;
        var lp := LastPossible(st.lastPossible, st.minLevel, h.msLevel);
        var pre := PrecursorNum(st.lastOfLevel, sel, h, lp);
        var res := GsResolve(st.(lastPossible := lp), src, pre);
        (res.None? ==> st' == st.(lastPossible := lp, parent := None)) &&
        (res.Some? ==>
          var r := |res.value.heap.scans|;
          r < |st'.heap.scans| && st'.heap.scans[r].scanNo == h.num && st'.heap.scans[r].msLevel == h.msLevel &&
          st'.heap.scans[r].parentScan == Some(pre) &&
          st'.result == if Selected(sel, i, pre, h.msLevel) then st.result + [r] else st.result))
  {
    if InWindow(sel, i) && i in src.scans {
      var raw := src.scans[i];
      var h := raw.header;
      var lp := LastPossible(st.lastPossible, st.minLevel, h.msLevel);
      var pre := PrecursorNum(st.lastOfLevel, sel, h, lp);
      var res := GsResolve(st.(lastPossible := lp), src, pre);
      if res.Some? {
        GsPlaceSpec(res.value, sel, canceled, i, raw, ScanFor(Some(raw), pre).value, pre);
      }
    }
  }

  // ----- what the loop keeps -----

  /**
   * What the loop keeps: every stored peak positive or marked; the result
   * lists each scan at most once, in storing order; the made-up scan keeps
   * number 0 and level 1 and heads the result.
   */
  ghost predicate GsOk(st: GsState)
  {
    GsShape(st) && PeaksOk(st.heap.peaks) &&
    (forall a, b :: 0 <= a < b < |st.result| ==> st.result[a] < st.result[b]) &&
    (st.root ==> st.heap.scans[0].scanNo == 0 && st.heap.scans[0].msLevel == 1 && |st.result| > 0 && st.result[0] == 0)
  }

  /** Every result scan other than the made-up one carries the number and level of a header read in the window. */
  ghost predicate GsPicked(st: GsState, src: Source, sel: Selection)
  {
    GsShape(st) &&
    forall k :: 0 <= k < |st.result| && !(st.root && k == 0) ==> ReadIn(st.heap.scans[st.result[k]], src, sel)
  }

  /** Scan s carries the number and level of a header read in the selectors' window. */
  ghost predicate ReadIn(s: Scan, src: Source, sel: Selection)
  {
    exists i :: i in src.scans && InWindow(sel, i) &&
      s.scanNo == src.scans[i].header.num && s.msLevel == src.scans[i].header.msLevel
  }

  /** A change that keeps the result, the flag, the stored headers and positive-or-marked peaks keeps both properties. */
  lemma GsKeepsOk(st: GsState, st': GsState, src: Source, sel: Selection)
    requires GsOk(st) && GsPicked(st, src, sel) && GsShape(st') && PeaksOk(st'.heap.peaks)
    requires SameHeaders(st.heap, st'.heap) && st'.result == st.result && st'.root == st.root
    ensures GsOk(st')
    ensures GsPicked(st', src, sel)
  {
    forall k | 0 <= k < |st'.result| && !(st'.root && k == 0)
      ensures ReadIn(st'.heap.scans[st'.result[k]], src, sel)
    {
      var j :| j in src.scans && InWindow(sel, j) &&
        st.heap.scans[st.result[k]].scanNo == src.scans[j].header.num &&
        st.heap.scans[st.result[k]].msLevel == src.scans[j].header.msLevel;
      assert st.result[k] < |st.heap.scans|;
      assert st'.heap.scans[st'.result[k]].scanNo == src.scans[j].header.num;
      assert st'.heap.scans[st'.result[k]].msLevel == src.scans[j].header.msLevel;
    }
  }

  /** Placing the scan of an in-window pass i keeps both properties; the result grows by at most that scan. */
  lemma GsPlaceOk(st: GsState, src: Source, sel: Selection, canceled: Poll -> bool, i: int, s: Scan, pre: int)
    requires GsOk(st) && GsPicked(st, src, sel) && i in src.scans && InWindow(sel, i)
    requires s == ScanFor(Some(src.scans[i]), pre).value
    ensures var st' := GsPlace(st, sel, canceled, i, src.scans[i], s, pre);
      GsOk(st') && GsPicked(st', src, sel) && st'.root == st.root &&
      st.result <= st'.result && |st'.result| <= |st.result| + 1
  {
    var raw := src.scans[i];
    GsPlaceSpec(st, sel, canceled, i, raw, s, pre);
    var st' := GsPlace(st, sel, canceled, i, raw, s, pre);
    var r := |st.heap.scans|;
    forall k | 0 <= k < |st'.result| && !(st'.root && k == 0)
      ensures ReadIn(st'.heap.scans[st'.result[k]], src, sel)
    {
      if k < |st.result| {
        var j :| j in src.scans && InWindow(sel, j) &&
          st.heap.scans[st.result[k]].scanNo == src.scans[j].header.num &&
          st.heap.scans[st.result[k]].msLevel == src.scans[j].header.msLevel;
        assert st'.heap.scans[st'.result[k]].scanNo == src.scans[j].header.num;
      } else {
        assert st'.result[k] == r;
        assert st'.heap.scans[r].scanNo == src.scans[i].header.num;
      }
    }
    assert forall a :: 0 <= a < |st.result| ==> st.result[a] < r;
  }

  /**
   * One pass keeps the invariant and the picked property; the result only
   * grows (by the pass's own scan, when one is added); the made-up flag is
   * unchanged.
   */
  lemma GsStepOk(st: GsState, src: Source, sel: Selection, canceled: Poll -> bool, i: int)
    requires GsOk(st) && GsPicked(st, src, sel)
    ensures var st' := GsStep(st, src, sel, canceled, i);
      GsOk(st') && GsPicked(st', src, sel) && st'.root == st.root &&
      st.result <= st'.result && |st'.result| <= |st.result| + 1
  {
    if InWindow(sel, i) && i in src.scans {
      var raw := src.scans[i];
      var h := raw.header;
      var lp := LastPossible(st.lastPossible, st.minLevel, h.msLevel);
      var pre := PrecursorNum(st.lastOfLevel, sel, h, lp);
      var s := ScanFor(Some(raw), pre).value;
      var st0 := st.(lastPossible := lp);
      GsResolveSpec(st0, src, pre);
      var res := GsResolve(st0, src, pre);
      if res.Some? {
        GsKeepsOk(st, res.value, src, sel);
        GsPlaceOk(res.value, src, sel, canceled, i, s, pre);
      } else {
        GsKeepsOk(st, st.(lastPossible := lp, parent := None), src, sel);
      }
    }
  }

  /** The invariant holds all along the scan loop, and the made-up scan exists exactly when the first scan is above MS1. */
  lemma {:induction false} GsRunOk(src: Source, sel: Selection, canceled: Poll -> bool, first: int, n: int)
    requires first in src.scans && first <= n
    ensures var run := GsRun(src, sel, canceled, first, n);
      run.Some? ==> GsOk(run.value) && GsPicked(run.value, src, sel) &&
                    run.value.root == (src.scans[first].header.msLevel > 1)
    decreases n - first
  {
    if n == first {
      assert HeapOk(Heap([], [DataRoot])) by {
        assert ScanRefsOk([], DataRoot);
      }
    } else {
      GsRunOk(src, sel, canceled, first, n - 1);
      var prev := GsRun(src, sel, canceled, first, n - 1);
      if prev.Some? {
        GsStepOk(prev.value, src, sel, canceled, n - 1);
      }
    }
  }

  // ----- the selectors -----

  /** A run that is not canceled at n was not canceled before. */
  lemma {:induction false} GsRunLive(src: Source, sel: Selection, canceled: Poll -> bool, first: int, m: int, n: int)
    requires first in src.scans && first <= m <= n && GsRun(src, sel, canceled, first, n).Some?
    ensures GsRun(src, sel, canceled, first, m).Some?
  {
    if GsRun(src, sel, canceled, first, m).None? {
      GsRunStaysCanceled(src, sel, canceled, first, m, n);
    }
  }

  /** Numbers outside the window, or not in the file, change nothing. */
  lemma {:induction false} GsRunIdle(src: Source, sel: Selection, canceled: Poll -> bool, first: int, m: int, n: int)
    requires first in src.scans && first <= m <= n
    requires forall i :: m <= i < n ==> !InWindow(sel, i) || i !in src.scans
    ensures GsRun(src, sel, canceled, first, n).Some? ==> GsRun(src, sel, canceled, first, n) == GsRun(src, sel, canceled, first, m)
    decreases n - m
  {
    if n > m {
      GsRunIdle(src, sel, canceled, first, m, n - 1);
      var prev := GsRun(src, sel, canceled, first, n - 1);
      if prev.Some? && !canceled(AtScan(n - 1)) {
        assert GsStep(prev.value, src, sel, canceled, n - 1) == prev.value;
        assert GsRun(src, sel, canceled, first, n) == prev;
      } else {
        assert GsRun(src, sel, canceled, first, n).None?;
      }
    }
  }

  /**
   * With a scan number selected, the only pass that reads anything is the
   * one for that number: the loop ends in the initial state followed by that
   * one pass, or in the initial state when the number is outside the file.
   */
  lemma GsRunScanNum(src: Source, sel: Selection, canceled: Poll -> bool, first: int)
    requires first in src.scans && first <= src.maxScanNumber + 1 && sel.scanNum != -1
    ensures var run, init := GsRun(src, sel, canceled, first, src.maxScanNumber + 1), GsInit(src.scans[first].header.msLevel);
      run.Some? ==>
        run.value == if first <= sel.scanNum <= src.maxScanNumber then GsStep(init, src, sel, canceled, sel.scanNum) else init
  {
    var n := src.maxScanNumber + 1;
    if GsRun(src, sel, canceled, first, n).Some? {
      if first <= sel.scanNum <= src.maxScanNumber {
        GsRunLive(src, sel, canceled, first, sel.scanNum + 1, n);
        GsRunIdle(src, sel, canceled, first, first, sel.scanNum);
        GsRunIdle(src, sel, canceled, first, sel.scanNum + 1, n);
      } else {
        GsRunIdle(src, sel, canceled, first, first, n);
      }
    }
  }

  /**
   * With a parent selected, nothing before the parent number and nothing
   * more than 1000 numbers after it is read: the loop's state is the initial
   * one up to the parent, and the state at parentScanNum + 1001 at the end.
   */
  lemma GsRunParentWindow(src: Source, sel: Selection, canceled: Poll -> bool, first: int)
    requires first in src.scans && first <= sel.parentScanNum && sel.parentScanNum + 1001 <= src.maxScanNumber + 1
    requires sel.parentScanNum != -1
    ensures var run := GsRun(src, sel, canceled, first, src.maxScanNumber + 1);
      run.Some? ==>
        GsRun(src, sel, canceled, first, sel.parentScanNum) == Some(GsInit(src.scans[first].header.msLevel)) &&
        run == GsRun(src, sel, canceled, first, sel.parentScanNum + 1001)
  {
    var n := src.maxScanNumber + 1;
    var p := sel.parentScanNum;
    if GsRun(src, sel, canceled, first, n).Some? {
      GsRunIdle(src, sel, canceled, first, p + 1001, n);
      GsRunBeforeWindow(src, sel, canceled, first, n);
    }
  }

  /** A loop that is not canceled has read nothing before the parent number. */
  lemma GsRunBeforeWindow(src: Source, sel: Selection, canceled: Poll -> bool, first: int, n: int)
    requires first in src.scans && first <= sel.parentScanNum <= n && sel.parentScanNum != -1
    requires GsRun(src, sel, canceled, first, n).Some?
    ensures GsRun(src, sel, canceled, first, sel.parentScanNum) == Some(GsInit(src.scans[first].header.msLevel))
  {
    var p := sel.parentScanNum;
    GsRunLive(src, sel, canceled, first, p, n);
    GsRunIdle(src, sel, canceled, first, first, p);
    assert GsRun(src, sel, canceled, first, first) == Some(GsInit(src.scans[first].header.msLevel));
  }

  // ----- the result -----

  /**
   * The result list of a finished loop: the made-up scan heads it, with
   * number 0, level 1, no parent and the anchored precursor range; every
   * other scan was read in the window.
   */
  lemma GsResultSpec(st: GsState, src: Source, sel: Selection)
    requires GsOk(st) && GsPicked(st, src, sel) && (st.root ==> st.heap.scans[0].parentScan.None?)
    ensures var out := GsResult(st);
      |out.scans| == |st.result| &&
      (st.root ==> |out.scans| > 0 && out.scans[0].scanNo == 0 && out.scans[0].msLevel == 1 &&
                   out.scans[0].parentScan.None? &&
                   out.scans[0].scanStart == st.low && out.scans[0].scanEnd == st.high) &&
      (forall k :: 0 <= k < |out.scans| && !(st.root && k == 0) ==> ReadIn(out.scans[k], src, sel))
  {
    var heap := GsClose(st);
    var out := GsResult(st);
    forall k | 0 <= k < |out.scans| && !(st.root && k == 0)
      ensures ReadIn(out.scans[k], src, sel)
    {
      assert ReadIn(st.heap.scans[st.result[k]], src, sel);
      assert out.scans[k] == heap.scans[st.result[k]];
      assert out.scans[k].scanNo == st.heap.scans[st.result[k]].scanNo;
      assert out.scans[k].msLevel == st.heap.scans[st.result[k]].msLevel;
    }
  }

  /**
   * getScanData's result: empty when the loop is canceled; otherwise, when
   * the first scan is above MS1 it starts with the made-up scan, number 0,
   * level 1, no parent, spanning the anchored precursor range; every other
   * scan carries the number and level of a header read inside the
   * selectors' window.
   */
  lemma ScanDataSpec(src: Source, sel: Selection, canceled: Poll -> bool)
    requires FirstScanNumber(src) != -1
    ensures FirstScanNumber(src) in src.scans && FirstScanNumber(src) <= src.maxScanNumber
    ensures var first := FirstScanNumber(src);
      var run := GsRun(src, sel, canceled, first, src.maxScanNumber + 1);
      var out := ScanDataOf(src, sel, canceled);
      (run.None? ==> out == EmptyScanList) &&
      (run.Some? ==>
        var root := src.scans[first].header.msLevel > 1;
        |out.scans| == |run.value.result| &&
        (root ==> |out.scans| > 0 && out.scans[0].scanNo == 0 && out.scans[0].msLevel == 1 &&
                  out.scans[0].parentScan.None? &&
                  out.scans[0].scanStart == run.value.low && out.scans[0].scanEnd == run.value.high) &&
        (forall k :: 0 <= k < |out.scans| && !(root && k == 0) ==> ReadIn(out.scans[k], src, sel)))
  {
    FirstScanNumberSpec(src);
    var first := FirstScanNumber(src);
    var n := src.maxScanNumber + 1;
    var run := GsRun(src, sel, canceled, first, n);
    if run.Some? {
      var st := run.value;
      assert GsOk(st) && GsPicked(st, src, sel) && st.root == (src.scans[first].header.msLevel > 1) by {
        GsRunOk(src, sel, canceled, first, n);
      }
      assert st.root ==> st.heap.scans[0].parentScan.None? by {
        GsRootParent(src, sel, canceled, first, n);
      }
      GsResultSpec(st, src, sel);
      var out := ScanDataOf(src, sel, canceled);
      assert out == GsResult(st);
      forall k | 0 <= k < |out.scans| && !(st.root && k == 0) ensures ReadIn(out.scans[k], src, sel) {
      }
    }
  }

  /** getScanData's scans refer only to peaks it returns. */
  lemma ScanDataRefsOk(src: Source, sel: Selection, canceled: Poll -> bool)
    ensures ScanListOk(ScanDataOf(src, sel, canceled))
  {
  }

  /** The made-up scan never has a parent number: no pass changes it. */
  lemma {:induction false} GsRootParent(src: Source, sel: Selection, canceled: Poll -> bool, first: int, n: int)
    requires first in src.scans && first <= n
    ensures var run := GsRun(src, sel, canceled, first, n);
      run.Some? && run.value.root ==> run.value.heap.scans[0].parentScan.None?
    decreases n - first
  {
    if n > first {
      GsRootParent(src, sel, canceled, first, n - 1);
      var prev := GsRun(src, sel, canceled, first, n - 1);
      if prev.Some? && !canceled(AtScan(n - 1)) {
        GsStepHeaders(prev.value, src, sel, canceled, n - 1);
        assert GsRun(src, sel, canceled, first, n) == Some(GsStep(prev.value, src, sel, canceled, n - 1));
      } else {
        assert GsRun(src, sel, canceled, first, n).None?;
      }
    }
  }

  /** A pass keeps every stored number, level and parent number. */
  lemma GsStepHeaders(st: GsState, src: Source, sel: Selection, canceled: Poll -> bool, i: int)
    requires GsShape(st)
    ensures SameHeaders(st.heap, GsStep(st, src, sel, canceled, i).heap)
    ensures GsStep(st, src, sel, canceled, i).root == st.root
  {
    if InWindow(sel, i) && i in src.scans {
      var raw := src.scans[i];
      var h := raw.header;
      var lp := LastPossible(st.lastPossible, st.minLevel, h.msLevel);
      var pre := PrecursorNum(st.lastOfLevel, sel, h, lp);
      GsResolveSpec(st.(lastPossible := lp), src, pre);
      var res := GsResolve(st.(lastPossible := lp), src, pre);
      if res.Some? {
        GsPlaceSpec(res.value, sel, canceled, i, raw, ScanFor(Some(raw), pre).value, pre);
      }
    }
  }

  // ----- the source's loop, written out -----

  /** The parent lookup of one pass, as the source writes it. */
  method ResolveParent(st: GsState, src: Source, pre: int) returns (r: Option<GsState>)
    requires GsShape(st)
    ensures r == GsResolve(st, src, pre)
  {
    if pre == -1 {
      return Some(st);
    }
    if pre in st.byNumber {
      return Some(st.(parent := Some(st.byNumber[pre])));
    }
    var fetched := GetScan(Rap(src, pre), -1);
    if fetched.None? {
      if !st.root {
        return None;
      }
      var rootScan := st.heap.scans[0];
      return Some(st.(parent := Some(0), lastPossible := rootScan.msLevel, byNumber := st.byNumber[rootScan.scanNo := 0]));
    }
    var created := NewScan(st.heap, fetched.value);
    r := Some(st.(heap := created.0, parent := Some(created.1), byNumber := st.byNumber[fetched.value.scanNo := created.1]));
  }

  /** The anchoring branch of one pass, as the source writes it. */
  method AnchorPass(st: GsState, r: ScanRef, h: ScanHeader, i: int) returns (st': GsState)
    requires GsShape(st) && r < |st.heap.scans| && st.parent.Some? && st.parent.value < r
    ensures st' == GsAnchor(st, r, h, i)
  {
    var p := st.parent.value;
    var heap, peak := GetPrecursorPeak(st.heap, Some(p), h);
    var ref := peak.value;
    heap := WithPrecursor(heap, r, ref);
    heap := UpdateScan(heap, p, heap.scans[p].(subScans := heap.scans[p].subScans + [i]));
    var mz := heap.peaks[ref].mz;
    var low, high := st.low, st.high;
    if mz > high {
      high := mz;
    }
    if mz < low {
      low := mz;
    }
    if st.root && heap.scans[0].polarity.None? && heap.scans[r].polarity.Some? {
      heap := UpdateScan(heap, 0, heap.scans[0].(polarity := heap.scans[r].polarity));
    }
    st' := st.(heap := heap, low := low, high := high);
  }

  /** Filing, anchoring and selecting the scan of one pass, as the source writes it. */
  method PlacePass(st: GsState, sel: Selection, canceled: Poll -> bool, i: int, raw: RawScan, s: Scan, pre: int) returns (st': GsState)
    requires GsShape(st) && s.peaklist == [] && s.precursor.None? && s.mostAbundantPeak == Some(MostAbundant(raw))
    ensures st' == GsPlace(st, sel, canceled, i, raw, s, pre)
  {
    var cur := raw.header.msLevel;
    var r := |st.heap.scans|;
    var created := NewScan(st.heap, s);
    st' := st.(heap := created.0, lastOfLevel := st.lastOfLevel[cur := i], byNumber := st.byNumber[s.scanNo := r]);
    assert st' == GsFile(st, s, cur, i);
    if cur > st.lastPossible && st.parent.Some? {
      st' := AnchorPass(st', r, raw.header, i);
    }
    if Selected(sel, i, pre, cur) {
      MostAbundantSpec(raw);
      var heap := SetPeakList(st'.heap, r, raw.massIntensity, AddsPeaks(sel), canceled, i);
      st' := st'.(heap := heap, result := st'.result + [r]);
    }
    if cur < st'.minLevel {
      st' := st'.(minLevel := cur);
    }
  }

  /** The update of iLastPossiblePrecursorMSLevel, as the source writes it. */
  method PossibleLevel(lastPossible: int, minLevel: int, cur: int) returns (lp: int)
    ensures lp == LastPossible(lastPossible, minLevel, cur)
  {
    lp := lastPossible;
    if lp < cur - 1 {
      lp := cur - 1;
    } else if lp == cur && cur - 1 >= minLevel {
      lp := cur - 1;
    }
  }

  /** The choice of precursorScanNum, as the source writes it. */
  method PrecursorNumber(lastOfLevel: map<int, int>, sel: Selection, h: ScanHeader, lp: int) returns (pre: int)
    ensures pre == PrecursorNum(lastOfLevel, sel, h, lp)
  {
    pre := -1;
    if h.precursorScanNum != -1 {
      pre := h.precursorScanNum;
    } else if h.msLevel > lp && h.msLevel - 1 in lastOfLevel {
      pre := lastOfLevel[h.msLevel - 1];
    } else if sel.parentScanNum != -1 && h.msLevel > 1 {
      pre := sel.parentScanNum;
    }
  }

  /** One pass of the scan loop, as the source writes it. */
  method ReadScanData(st: GsState, src: Source, sel: Selection, canceled: Poll -> bool, i: int) returns (st': GsState)
    requires GsShape(st)
    ensures st' == GsStep(st, src, sel, canceled, i)
  {
    if sel.scanNum != -1 && i != sel.scanNum {
      return st;
    }
    if sel.parentScanNum != -1 && (i < sel.parentScanNum || i > sel.parentScanNum + 1000) {
      return st;
    }
    var jrap := Rap(src, i);
    if jrap.None? {
      return st;
    }
    var raw := jrap.value;
    var lp := PossibleLevel(st.lastPossible, st.minLevel, raw.header.msLevel);
    var pre := PrecursorNumber(st.lastOfLevel, sel, raw.header, lp);
    var s := GetScan(jrap, pre);
    var msScan := s.value;
    var resolved := ResolveParent(st.(lastPossible := lp), src, msScan.parentScan.value);
    if resolved.None? {
      return st.(lastPossible := lp, parent := None);
    }
    st' := PlacePass(resolved.value, sel, canceled, i, raw, msScan, pre);
  }

  /** One more pass of the scan loop: canceled by the poll at its top, else one more step. */
  lemma GsRunNext(src: Source, sel: Selection, canceled: Poll -> bool, first: int, i: int, st: GsState)
    requires first in src.scans && first <= i && GsRun(src, sel, canceled, first, i) == Some(st)
    ensures GsShape(st)
    ensures GsRun(src, sel, canceled, first, i + 1) ==
      if canceled(AtScan(i)) then None else Some(GsStep(st, src, sel, canceled, i))
  {
  }

  /** The scan loop from the first scan to the last scan number, as the source writes it. */
  method DataLoop(src: Source, sel: Selection, canceled: Poll -> bool, first: int, init: GsState) returns (r: Option<GsState>)
    requires first in src.scans && first <= src.maxScanNumber + 1
    requires init == GsInit(src.scans[first].header.msLevel)
    ensures r == GsRun(src, sel, canceled, first, src.maxScanNumber + 1)
  {
    r := Some(init);
    var i := first;
    while i <= src.maxScanNumber && r.Some?
      invariant first <= i <= src.maxScanNumber + 1
      invariant r == GsRun(src, sel, canceled, first, i)
      decreases src.maxScanNumber - i
    {
      r := DataPass(src, sel, canceled, first, i, r.value);
      i := i + 1;
    }
    GsRunEnd(src, sel, canceled, first, i, r);
  }

  /** Where the scan loop stops: past the last scan number, or canceled, which stays canceled. */
  lemma GsRunEnd(src: Source, sel: Selection, canceled: Poll -> bool, first: int, i: int, r: Option<GsState>)
    requires first in src.scans && first <= i <= src.maxScanNumber + 1
    requires r == GsRun(src, sel, canceled, first, i) && (i == src.maxScanNumber + 1 || r.None?)
    ensures r == GsRun(src, sel, canceled, first, src.maxScanNumber + 1)
  {
    if r.None? {
      GsRunStaysCanceled(src, sel, canceled, first, i, src.maxScanNumber + 1);
    }
  }

  /** One pass of that loop: the poll at its top, then the scan's step. */
  method DataPass(src: Source, sel: Selection, canceled: Poll -> bool, first: int, i: int, st: GsState) returns (r: Option<GsState>)
    requires first in src.scans && first <= i && GsRun(src, sel, canceled, first, i) == Some(st)
    ensures r == GsRun(src, sel, canceled, first, i + 1)
  {
    GsRunNext(src, sel, canceled, first, i, st);
    if canceled(AtScan(i)) {
      r := None;
    } else {
      var next := ReadScanData(st, src, sel, canceled, i);
      r := Some(next);
    }
  }

  /** getScanData, with its scan loop written out. */
  method GetScanData(src: Source, sel: Selection, canceled: Poll -> bool) returns (out: ScanList)
    ensures out == ScanDataOf(src, sel, canceled)
  {
    var first := GetFirstScanNumber(src);
    if first == -1 {
      return EmptyScanList;
    }
    FirstScanNumberSpec(src);
    var level := Rap(src, first).value.header.msLevel;
    var st := GsState(EmptyHeap, [], map[], map[], level, level, None, DoubleMaxValue, DoubleMinValue, false);
    if level > 1 {
      var root := DataRoot;
      st := st.(heap := Heap([], [root]), byNumber := map[root.scanNo := 0], lastPossible := 1,
                lastOfLevel := map[1 := 0], result := [0], root := true);
    }
    var run := DataLoop(src, sel, canceled, first, st);
    if run.None? {
      return EmptyScanList;
    }
    st := run.value;
    var heap := st.heap;
    if st.root {
      heap := UpdateScan(heap, 0, heap.scans[0].(scanStart := st.low, scanEnd := st.high));
    }
    assert heap == GsClose(st);
    out := ScanList(seq(|st.result|, k requires 0 <= k < |st.result| => heap.scans[st.result[k]]), heap.peaks);
    assert out == GsResult(st);
  }
}
