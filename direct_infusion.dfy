/**
 * addAllScansDirectInfusion: every scan of the file in number order; an
 * MSn scan is hung under the scan its header names as precursor, or under
 * the last scan of the highest lower level seen so far; a scan whose parent
 * is not in the map is kept but gets no peaks and its parent number is
 * listed as skipped. MS1 scans end up carrying only the precursor peaks.
 */
module DirectInfusion {
  import opened Wrappers
  import opened Spectra
  import opened Records
  import opened ScanSource
  import opened PeakLists
  import opened Assembly

  /**
   * The loop state: the scan store, the last scan number seen at each
   * header level, the scan map by number, the ms1 table by precursor m/z,
   * and the parent numbers of the skipped scans.
   */
  datatype DiState = DiState(
    heap: Heap,
    lastOfLevel: map<int, int>,
    byNumber: map<int, ScanRef>,
    ms1: map<real, PeakRef>,
    skipped: seq<int>)

  const DiInit := DiState(EmptyHeap, map[], map[], map[], [])

  /** The references the state holds are in range. */
  ghost predicate DiShape(st: DiState)
  {
    HeapOk(st.heap) && TablesOk(st.heap, st.ms1, st.byNumber)
  }

  /**
   * What the loop keeps: the shape; every stored peak is positive or a
   * precursor; the map files each scan under its own number; every ms1
   * table peak is marked and carries a precursor intensity.
   */
  ghost predicate DiOk(st: DiState)
  {
    DiShape(st) && PeaksOk(st.heap.peaks) &&
    (forall n :: n in st.byNumber ==> st.heap.scans[st.byNumber[n]].scanNo == n) &&
    (forall x :: x in st.ms1 ==> Ms1Kept(st.heap.peaks[st.ms1[x]]))
  }

  /** The parent number of an MSn header, or None when the level walk ends on a level with no scan. */
  function DiParent(last: map<int, int>, h: ScanHeader): Option<int>
  {
    if h.precursorScanNum != -1 then Some(h.precursorScanNum)
    else
      var pl := ParentLevel(last, h.msLevel - 1);
      if pl in last then Some(last[pl]) else None
  }

  /** One pass of the scan loop for scan number i; None is the exception that makes the builder return null. */
  function DiStep(st: DiState, src: Source, i: int): (r: Option<DiState>)
    requires DiShape(st)
    ensures r.Some? ==> DiShape(r.value)
  {
    if i !in src.scans then Some(st) else DiScan(st, src.scans[i])
  }

  /** A present scan: stored, then loaded or, for MSn, hung under its parent. */
  function DiScan(st: DiState, raw: RawScan): (r: Option<DiState>)
    requires DiShape(st)
    ensures r.Some? ==> DiShape(r.value)
  {
    var h := raw.header;
    var st1 := DiStored(st, raw);
    var r := |st.heap.scans|;
    if h.msLevel <= 1 then Some(st1.(heap := LoadAll(st1.heap, r, raw)))
    else
      var pn := DiParent(st1.lastOfLevel, h);
      if pn.None? then None else Some(DiHang(st1, r, raw, pn.value))
  }

  /** A new scan from the header, filed under its number and recorded as the last of its header level. */
  function DiStored(st: DiState, raw: RawScan): (st1: DiState)
    requires DiShape(st)
    ensures DiShape(st1) && |st1.heap.scans| == |st.heap.scans| + 1
    ensures st1.heap.scans[|st.heap.scans|].mostAbundantPeak == Some(MostAbundant(raw))
  {
    var h := raw.header;
    var (heap1, r) := NewScan(st.heap, ScanOfHeader(h, MostAbundant(raw)));
    var st1 := st.(heap := heap1, lastOfLevel := st.lastOfLevel[h.msLevel := h.num], byNumber := st.byNumber[h.num := r]);
    assert DiShape(st1) by {
      assert forall n :: n in st.byNumber ==> st.byNumber[n] < |st.heap.scans|;
      assert forall x :: x in st.ms1 ==> st.ms1[x] < |st.heap.peaks|;
    }
    st1
  }

  /** An MSn scan r with parent number pn: skipped when the parent is not in the map, else attached and loaded. */
  function DiHang(st: DiState, r: ScanRef, raw: RawScan, pn: int): (st': DiState)
    requires DiShape(st) && r < |st.heap.scans| && st.heap.scans[r].mostAbundantPeak == Some(MostAbundant(raw))
    ensures DiShape(st')
  {
    var heap2 := UpdateScan(st.heap, r, st.heap.scans[r].(parentScan := Some(pn)));
    assert forall n :: n in st.byNumber ==> st.byNumber[n] < |st.heap.scans|;
    assert forall x :: x in st.ms1 ==> st.ms1[x] < |st.heap.peaks|;
    if pn !in st.byNumber then st.(heap := heap2, skipped := st.skipped + [pn])
    else
      var (heap3, ms1') := Attach(heap2, r, st.byNumber[pn], raw.header, st.ms1);
      var heap' := LoadAll(heap3, r, raw);
      st.(heap := heap', ms1 := ms1')
  }

  /** The scan loop over numbers first .. n - 1, polling for cancellation at the top of every pass. */
  function DiRun(src: Source, canceled: Poll -> bool, first: int, n: int): (r: Run<DiState>)
    requires first <= n
    ensures r.Running? ==> DiShape(r.st)
    decreases n - first
  {
    if n == first then Running(DiInit)
    else
      match DiRun(src, canceled, first, n - 1)
      case Running(st) =>
        if canceled(AtScan(n - 1)) then Canceled
        else
          (match DiStep(st, src, n - 1)
           case None => Failed
           case Some(st') => Running(st'))
      case other => other
  }

  /** The scan loop over the whole file, when it has a scan. */
  function DiScans(src: Source, canceled: Poll -> bool): (r: Run<DiState>)
    requires FirstScanNumber(src) != -1
    ensures r.Running? ==> DiShape(r.st)
  {
    FirstScanNumberSpec(src);
    DiRun(src, canceled, FirstScanNumber(src), src.maxScanNumber + 1)
  }

  // ----- what one pass does -----

  /** An absent scan number is passed over. */
  lemma DiStepAbsent(st: DiState, src: Source, i: int)
    requires DiShape(st) && i !in src.scans
    ensures DiStep(st, src, i) == Some(st)
  {
  }

  /** Storing a scan keeps the invariant; the new scan is the header's, with nothing hung or loaded yet. */
  lemma DiStoredSpec(st: DiState, raw: RawScan)
    requires DiOk(st)
    ensures var st1, h := DiStored(st, raw), raw.header;
      DiOk(st1) && SameScans(st.heap, st1.heap) &&
      st1 == st.(heap := Heap(st.heap.peaks, st.heap.scans + [ScanOfHeader(h, MostAbundant(raw))]),
                 lastOfLevel := st.lastOfLevel[h.msLevel := h.num],
                 byNumber := st.byNumber[h.num := |st.heap.scans|])
  {
    var st1 := DiStored(st, raw);
    assert forall n :: n in st.byNumber ==> st.byNumber[n] < |st.heap.scans| && st.heap.scans[st.byNumber[n]].scanNo == n;
    assert forall x :: x in st.ms1 ==> Ms1Kept(st.heap.peaks[st.ms1[x]]);
    assert forall n :: n in st1.byNumber ==> st1.heap.scans[st1.byNumber[n]].scanNo == n;
  }

  /**
   * The parent number of an MSn header: the declared precursor, else the
   * last scan of the highest level below n that has one; there is none
   * exactly when no level from 1 to n - 1 has a scan yet.
   */
  lemma DiParentSpec(last: map<int, int>, h: ScanHeader)
    requires h.msLevel > 1
    ensures var pn := DiParent(last[h.msLevel := h.num], h);
      (h.precursorScanNum != -1 ==> pn == Some(h.precursorScanNum)) &&
      (h.precursorScanNum == -1 && pn.None? <==>
        h.precursorScanNum == -1 && forall l :: 1 <= l < h.msLevel ==> l !in last) &&
      (h.precursorScanNum == -1 && pn.Some? ==>
        exists l :: 1 <= l < h.msLevel && l in last && pn.value == last[l] &&
                    forall l' :: l < l' < h.msLevel ==> l' !in last)
  {
    var last' := last[h.msLevel := h.num];
    ParentLevelSpec(last', h.msLevel - 1);
    var pl := ParentLevel(last', h.msLevel - 1);
    if h.precursorScanNum == -1 {
      if pl in last' {
        assert 1 <= pl < h.msLevel && pl in last && last'[pl] == last[pl];
        forall l' | pl < l' < h.msLevel ensures l' !in last {
          assert l' !in last';
        }
      } else {
        assert pl == 1;
        forall l | 1 <= l < h.msLevel ensures l !in last {
          assert l !in last';
        }
      }
    }
  }

  /** The builder fails exactly on an MSn header naming no precursor before any scan of levels 1 .. n - 1. */
  lemma DiStepFails(st: DiState, src: Source, i: int)
    requires DiShape(st)
    ensures DiStep(st, src, i).None? <==>
      i in src.scans && src.scans[i].header.msLevel > 1 && src.scans[i].header.precursorScanNum == -1 &&
      forall l :: 1 <= l < src.scans[i].header.msLevel ==> l !in st.lastOfLevel
  {
    if i in src.scans && src.scans[i].header.msLevel > 1 {
      DiParentSpec(st.lastOfLevel, src.scans[i].header);
    }
  }

  /** A present MSn scan that does not fail is hung under the parent DiParent names. */
  lemma DiStepHangs(st: DiState, src: Source, i: int)
    requires DiShape(st) && i in src.scans && src.scans[i].header.msLevel > 1 && DiStep(st, src, i).Some?
    ensures var h := src.scans[i].header;
      var st1 := DiStored(st, src.scans[i]);
      DiParent(st1.lastOfLevel, h).Some? &&
      DiStep(st, src, i) == Some(DiHang(st1, |st.heap.scans|, src.scans[i], DiParent(st1.lastOfLevel, h).value))
  {
  }

  /** A parent not in the map: the scan keeps its parent number but gets no precursor and no peaks; pn is listed. */
  lemma DiHangMissing(st: DiState, r: ScanRef, raw: RawScan, pn: int)
    requires DiShape(st) && r < |st.heap.scans| && st.heap.scans[r].mostAbundantPeak == Some(MostAbundant(raw))
    requires pn !in st.byNumber
    ensures var st' := DiHang(st, r, raw, pn);
      st'.skipped == st.skipped + [pn] && st'.heap.peaks == st.heap.peaks &&
      st'.heap.scans == st.heap.scans[r := st.heap.scans[r].(parentScan := Some(pn))] &&
      st'.ms1 == st.ms1 && st'.byNumber == st.byNumber && st'.lastOfLevel == st.lastOfLevel
  {
  }

  /**
   * A parent in the map: the scan's level becomes the parent's plus one, its
   * precursor is a marked peak of the parent's list carrying its precursor
   * m/z, the parent gains its number as a sub-scan, and the ms1 table gains
   * that peak for an MS2 header.
   */
  lemma DiHangAttached(st: DiState, r: ScanRef, raw: RawScan, pn: int)
    requires DiOk(st) && r < |st.heap.scans| && st.heap.scans[r].mostAbundantPeak == Some(MostAbundant(raw))
    requires pn in st.byNumber
    ensures var st', h := DiHang(st, r, raw, pn), raw.header;
      var pr := st.byNumber[pn];
      var child' := st'.heap.scans[r];
      pr < |st'.heap.scans| && st'.heap.scans[pr].scanNo == pn &&
      child'.parentScan == Some(pn) && child'.precursor.Some? &&
      child'.precursor.value < |st'.heap.peaks| &&
      st'.heap.peaks[child'.precursor.value].isPrecursor &&
      st'.heap.peaks[child'.precursor.value].precursorMz == Some(h.precursorMz) &&
      child'.msLevel == st.heap.scans[pr].msLevel + 1 &&
      (pr != r ==> st'.heap.scans[pr].subScans == st.heap.scans[pr].subScans + [h.num]) &&
      (pr == r ==> child'.subScans == st.heap.scans[r].subScans + [h.num]) &&
      st'.ms1 == (if h.msLevel == 2 then st.ms1[h.precursorMz := child'.precursor.value] else st.ms1) &&
      st'.skipped == st.skipped && st'.byNumber == st.byNumber && st'.lastOfLevel == st.lastOfLevel
  {
    var h := raw.header;
    var heap2 := UpdateScan(st.heap, r, st.heap.scans[r].(parentScan := Some(pn)));
    assert forall n :: n in st.byNumber ==> st.byNumber[n] < |st.heap.scans| && st.heap.scans[st.byNumber[n]].scanNo == n;
    var pr := st.byNumber[pn];
    AttachSpec(heap2, r, pr, h, st.ms1);
    var (heap3, ms1') := Attach(heap2, r, pr, h, st.ms1);
    assert heap2.scans[pr].scanNo == pn;
    DiLoadAttached(st, heap3, ms1', r, raw, pn);
  }

  /** The peaks loaded into the attached scan `r` of `heap3` leave its links as attaching made them. */
  lemma DiLoadAttached(st: DiState, heap3: Heap, ms1': map<real, PeakRef>, r: ScanRef, raw: RawScan, pn: int)
    requires HeapOk(heap3) && r < |st.heap.scans| == |heap3.scans| && heap3.scans[r].mostAbundantPeak == Some(MostAbundant(raw))
    requires pn in st.byNumber && st.byNumber[pn] < |st.heap.scans|
    requires var h, pr, child := raw.header, st.byNumber[pn], heap3.scans[r];
      heap3.scans[pr].scanNo == pn &&
      child.parentScan == Some(pn) && child.precursor.Some? &&
      child.precursor.value < |heap3.peaks| &&
      heap3.peaks[child.precursor.value].isPrecursor &&
      heap3.peaks[child.precursor.value].precursorMz == Some(h.precursorMz) &&
      child.msLevel == st.heap.scans[pr].msLevel + 1 &&
      (pr != r ==> heap3.scans[pr].subScans == st.heap.scans[pr].subScans + [h.num]) &&
      (pr == r ==> child.subScans == st.heap.scans[r].subScans + [h.num]) &&
      ms1' == (if h.msLevel == 2 then st.ms1[h.precursorMz := child.precursor.value] else st.ms1)
    ensures var st', h := st.(heap := LoadAll(heap3, r, raw), ms1 := ms1'), raw.header;
      var pr := st.byNumber[pn];
      var child' := st'.heap.scans[r];
      pr < |st'.heap.scans| && st'.heap.scans[pr].scanNo == pn &&
      child'.parentScan == Some(pn) && child'.precursor.Some? &&
      child'.precursor.value < |st'.heap.peaks| &&
      st'.heap.peaks[child'.precursor.value].isPrecursor &&
      st'.heap.peaks[child'.precursor.value].precursorMz == Some(h.precursorMz) &&
      child'.msLevel == st.heap.scans[pr].msLevel + 1 &&
      (pr != r ==> st'.heap.scans[pr].subScans == st.heap.scans[pr].subScans + [h.num]) &&
      (pr == r ==> child'.subScans == st.heap.scans[r].subScans + [h.num]) &&
      st'.ms1 == (if h.msLevel == 2 then st.ms1[h.precursorMz := child'.precursor.value] else st.ms1) &&
      st'.skipped == st.skipped && st'.byNumber == st.byNumber && st'.lastOfLevel == st.lastOfLevel
  {
  }

  /** Hanging keeps the invariant and every scan's number, and only appends to the skipped list. */
  lemma DiHangOk(st: DiState, r: ScanRef, raw: RawScan, pn: int)
    requires DiOk(st) && r < |st.heap.scans| && st.heap.scans[r].mostAbundantPeak == Some(MostAbundant(raw))
    ensures var st' := DiHang(st, r, raw, pn);
      DiOk(st') && SameScans(st.heap, st'.heap) && st.skipped <= st'.skipped
  {
    var heap2 := UpdateScan(st.heap, r, st.heap.scans[r].(parentScan := Some(pn)));
    assert SameScans(st.heap, heap2);
    if pn in st.byNumber {
      DiAttachOk(st, heap2, r, raw, st.byNumber[pn]);
    } else {
      assert forall x :: x in st.ms1 ==> st.ms1[x] < |st.heap.peaks| && Ms1Kept(st.heap.peaks[st.ms1[x]]);
      assert forall n :: n in st.byNumber ==> st.byNumber[n] < |st.heap.scans| && st.heap.scans[st.byNumber[n]].scanNo == n;
    }
  }

  /** The attaching branch of DiHang, from the heap with the parent number set. */
  lemma DiAttachOk(st: DiState, heap2: Heap, r: ScanRef, raw: RawScan, pr: ScanRef)
    requires DiOk(st) && HeapOk(heap2) && r < |st.heap.scans| && pr < |st.heap.scans|
    requires heap2.peaks == st.heap.peaks && SameScans(st.heap, heap2) && |heap2.scans| == |st.heap.scans|
    requires heap2.scans[r].mostAbundantPeak == Some(MostAbundant(raw))
    ensures var (heap3, ms1') := Attach(heap2, r, pr, raw.header, st.ms1);
      var st' := st.(heap := LoadAll(heap3, r, raw), ms1 := ms1');
      DiOk(st') && SameScans(st.heap, st'.heap)
  {
    var h := raw.header;
    assert forall x :: x in st.ms1 ==> st.ms1[x] < |st.heap.peaks| && Ms1Kept(st.heap.peaks[st.ms1[x]]);
    AttachPeaksOk(heap2, r, pr, h, st.ms1);
    AttachKeepsTable(heap2, r, pr, h, st.ms1);
    AttachSpec(heap2, r, pr, h, st.ms1);
    var (heap3, ms1') := Attach(heap2, r, pr, h, st.ms1);
    LoadAllPeaksOk(heap3, r, raw);
    LoadAllKeepsTable(heap3, r, raw, ms1');
    var heap' := LoadAll(heap3, r, raw);
    assert SameScans(st.heap, heap');
    assert forall n :: n in st.byNumber ==> st.byNumber[n] < |st.heap.scans| && st.heap.scans[st.byNumber[n]].scanNo == n;
    assert forall n :: n in st.byNumber ==> heap'.scans[st.byNumber[n]].scanNo == n;
  }

  /** One pass keeps the invariant and every scan's number, and only appends to the skipped list. */
  lemma DiStepOk(st: DiState, src: Source, i: int)
    requires DiOk(st) && DiStep(st, src, i).Some?
    ensures var st' := DiStep(st, src, i).value;
      DiOk(st') && SameScans(st.heap, st'.heap) && st.skipped <= st'.skipped
  {
    if i in src.scans {
      var raw := src.scans[i];
      DiStoredSpec(st, raw);
      var st1 := DiStored(st, raw);
      var r := |st.heap.scans|;
      if raw.header.msLevel <= 1 {
        LoadAllPeaksOk(st1.heap, r, raw);
        var heap' := LoadAll(st1.heap, r, raw);
        assert forall x :: x in st1.ms1 ==> st1.ms1[x] < |st1.heap.peaks| && Ms1Kept(st1.heap.peaks[st1.ms1[x]]);
        assert forall n :: n in st1.byNumber ==> st1.byNumber[n] < |st1.heap.scans| && st1.heap.scans[st1.byNumber[n]].scanNo == n;
        assert forall x :: x in st1.ms1 ==> heap'.peaks[st1.ms1[x]] == st1.heap.peaks[st1.ms1[x]];
      } else {
        DiHangOk(st1, r, raw, DiParent(st1.lastOfLevel, raw.header).value);
      }
    }
  }

  /** The invariant holds all along the scan loop. */
  lemma {:induction false} DiRunOk(src: Source, canceled: Poll -> bool, first: int, n: int)
    requires first <= n
    ensures DiRun(src, canceled, first, n).Running? ==> DiOk(DiRun(src, canceled, first, n).st)
    decreases n - first
  {
    if n > first {
      DiRunOk(src, canceled, first, n - 1);
      var prev := DiRun(src, canceled, first, n - 1);
      if prev.Running? && !canceled(AtScan(n - 1)) && DiStep(prev.st, src, n - 1).Some? {
        DiStepOk(prev.st, src, n - 1);
      }
    }
  }

  /**
   * The scan loop is canceled only when polled so, and fails only in a pass
   * that starts running and whose step fails, on the header DiStepFails
   * names; a file with no header above MS1 never fails.
   */
  lemma {:induction false} DiRunEnds(src: Source, canceled: Poll -> bool, first: int, n: int)
    requires first <= n
    ensures DiRun(src, canceled, first, n).Canceled? ==> exists k :: first <= k < n && canceled(AtScan(k))
    ensures DiRun(src, canceled, first, n).Failed? ==>
      exists k :: first <= k < n && DiRun(src, canceled, first, k).Running? &&
                  DiStep(DiRun(src, canceled, first, k).st, src, k).None?
    ensures (forall k :: first <= k < n && k in src.scans ==> src.scans[k].header.msLevel <= 1) ==>
      DiRun(src, canceled, first, n).Running? || DiRun(src, canceled, first, n).Canceled?
    decreases n - first
  {
    if n > first {
      DiRunEnds(src, canceled, first, n - 1);
    }
  }

  // ----- the result -----

  /**
   * What the builder returns when the scan loop completes and the closing
   * loops are not canceled: one scan per map entry; MS1 scans all carry the
   * ms1 table's peaks, in its iteration order, with each listed peak's id
   * one past its last position in the list (1 .. n when no peak repeats: two
   * precursor m/z keys can name the same anchored peak); the filter of the
   * closing phase drops nothing, as every table peak is marked.
   */
  lemma DiResultSpec(st: DiState, keys1: seq<real>, keys2: seq<int>, canceled: Poll -> bool)
    requires DiOk(st) && IsOrderOf(keys1, st.ms1.Keys) && IsOrderOf(keys2, st.byNumber.Keys)
    requires RefsIn(ValuesIn(st.ms1, keys1), |st.heap.peaks|) && RefsIn(ValuesIn(st.byNumber, keys2), |st.heap.scans|)
    requires !CanceledInMs1(canceled, |keys1|) && !CanceledInCollect(canceled, |keys2|)
    ensures var refs1, refs2 := ValuesIn(st.ms1, keys1), ValuesIn(st.byNumber, keys2);
      var out := Closing(st.heap, refs1, refs2, true, canceled);
      ScanListOk(out) && |out.scans| == |st.byNumber| &&
      (forall k :: 0 <= k < |out.scans| ==> out.scans[k].scanNo == keys2[k]) &&
      (forall k :: 0 <= k < |out.scans| && out.scans[k].msLevel == 1 ==> out.scans[k].peaklist == refs1) &&
      (forall k :: 0 <= k < |out.scans| && out.scans[k].msLevel != 1 ==> out.scans[k] == st.heap.scans[refs2[k]]) &&
      (forall k :: 0 <= k < |refs1| && refs1[k] !in refs1[k + 1..] ==> out.peaks[refs1[k]].id == k + 1)
  {
    var refs1, refs2 := ValuesIn(st.ms1, keys1), ValuesIn(st.byNumber, keys2);
    DiMs1List(st, keys1);
    ClosingSpec(st.heap, refs1, refs2, true, canceled);
    KeysCount(keys2, st.byNumber.Keys);
    assert forall n :: n in st.byNumber ==> st.heap.scans[st.byNumber[n]].scanNo == n;
    var out := Closing(st.heap, refs1, refs2, true, canceled);
    forall k | 0 <= k < |out.scans| ensures out.scans[k].scanNo == keys2[k] {
      assert out.scans[k] == Ms1View(st.heap.scans[refs2[k]], Renumber(st.heap.peaks, refs1, true).list);
      assert keys2[k] in st.byNumber && refs2[k] == st.byNumber[keys2[k]];
    }
  }

  /**
   * With every table peak kept, the MS1 list is the table's peaks in
   * iteration order, each peak's id one past its last position in the list.
   */
  lemma DiMs1List(st: DiState, keys1: seq<real>)
    requires DiOk(st) && IsOrderOf(keys1, st.ms1.Keys) && RefsIn(ValuesIn(st.ms1, keys1), |st.heap.peaks|)
    ensures var refs1 := ValuesIn(st.ms1, keys1);
      var n := Renumber(st.heap.peaks, refs1, true);
      n.list == refs1 &&
      forall k :: 0 <= k < |refs1| && refs1[k] !in refs1[k + 1..] ==> n.peaks[refs1[k]].id == k + 1
  {
    var refs1 := ValuesIn(st.ms1, keys1);
    assert forall x :: x in st.ms1 ==> Ms1Kept(st.heap.peaks[st.ms1[x]]);
    assert forall k :: 0 <= k < |refs1| ==> keys1[k] in st.ms1 && refs1[k] == st.ms1[keys1[k]];
    RenumberAllKept(st.heap.peaks, refs1);
    RenumberListComplete(st.heap.peaks, refs1, false);
    RenumberIds(st.heap.peaks, refs1, false);
  }

  /** One pass of the scan loop, as the source writes it. */
  method ReadScan(st: DiState, src: Source, i: int) returns (r: Option<DiState>)
    requires DiShape(st)
    ensures r == DiStep(st, src, i)
  {
    var raw := Rap(src, i);
    if raw.None? {
      return Some(st);
    }
    var h := raw.value.header;
    var ref := |st.heap.scans|;
    var st1 := StoreScan(st, raw.value);
    if h.msLevel > 1 {
      var pn := h.precursorScanNum;
      if pn == -1 {
        var level := FindParentLevel(st1.lastOfLevel, h.msLevel - 1);
        if level !in st1.lastOfLevel {
          return None;
        }
        pn := st1.lastOfLevel[level];
      }
      var st' := HangScan(st1, ref, raw.value, pn);
      return Some(st');
    }
    var heap := LoadPeaks(st1.heap, ref, raw.value);
    r := Some(st1.(heap := heap));
  }

  /** The new scan from the header, filed and recorded, as the source writes it. */
  method StoreScan(st: DiState, raw: RawScan) returns (st1: DiState)
    requires DiShape(st)
    ensures st1 == DiStored(st, raw)
  {
    var h := raw.header;
    var maxIntensity := GetMostAbundantPeak(raw);
    var created := NewScan(st.heap, ScanOfHeader(h, maxIntensity));
    var heap, ref := created.0, created.1;
    st1 := st.(heap := heap, lastOfLevel := st.lastOfLevel[h.msLevel := h.num], byNumber := st.byNumber[h.num := ref]);
  }

  /** An MSn scan with parent number `pn`, hung under its parent and loaded, as the source writes it. */
  method HangScan(st: DiState, ref: ScanRef, raw: RawScan, pn: int) returns (st': DiState)
    requires DiShape(st) && ref < |st.heap.scans| && st.heap.scans[ref].mostAbundantPeak == Some(MostAbundant(raw))
    ensures st' == DiHang(st, ref, raw, pn)
  {
    assert forall n :: n in st.byNumber ==> st.byNumber[n] < |st.heap.scans|;
    assert forall x :: x in st.ms1 ==> st.ms1[x] < |st.heap.peaks|;
    var heap := UpdateScan(st.heap, ref, st.heap.scans[ref].(parentScan := Some(pn)));
    if pn !in st.byNumber {
      return st.(heap := heap, skipped := st.skipped + [pn]);
    }
    var attached := Attach(heap, ref, st.byNumber[pn], raw.header, st.ms1);
    var ms1;
    heap, ms1 := attached.0, attached.1;
    heap := LoadPeaks(heap, ref, raw);
    st' := st.(heap := heap, ms1 := ms1);
  }

  /**
   * addAllScansDirectInfusion's result: the empty list for a file with no
   * scan; null when the scan loop fails; the empty list when canceled;
   * otherwise the closing phase, with the filter, over the tables'
   * iteration orders `keys1` and `keys2`.
   */
  ghost predicate DiOutcome(src: Source, canceled: Poll -> bool, out: Option<ScanList>, keys1: seq<real>, keys2: seq<int>)
  {
    if FirstScanNumber(src) == -1 then out == Some(EmptyScanList)
    else
      match DiScans(src, canceled)
      case Failed => out.None?
      case Canceled => out == Some(EmptyScanList)
      case Running(st) =>
        IsOrderOf(keys1, st.ms1.Keys) && IsOrderOf(keys2, st.byNumber.Keys) &&
        RefsIn(ValuesIn(st.ms1, keys1), |st.heap.peaks|) && RefsIn(ValuesIn(st.byNumber, keys2), |st.heap.scans|) &&
        out == Some(Closing(st.heap, ValuesIn(st.ms1, keys1), ValuesIn(st.byNumber, keys2), true, canceled))
  }

  /** The scan loop from the first scan to the last number, as the source writes it. */
  method DiLoop(src: Source, canceled: Poll -> bool, first: int) returns (run: Run<DiState>)
    requires first <= src.maxScanNumber + 1
    ensures run == DiRun(src, canceled, first, src.maxScanNumber + 1)
  {
    run := Running(DiInit);
    var i := first;
    while i <= src.maxScanNumber && run.Running?
      invariant first <= i <= src.maxScanNumber + 1
      invariant run == DiRun(src, canceled, first, i)
      decreases src.maxScanNumber - i
    {
      if canceled(AtScan(i)) {
        run := Canceled;
      } else {
        var next := ReadScan(run.st, src, i);
        run := if next.None? then Failed else Running(next.value);
      }
      i := i + 1;
    }
    if run.Canceled? {
      DiRunStaysCanceled(src, canceled, first, i, src.maxScanNumber + 1);
    } else if run.Failed? {
      DiRunStaysFailed(src, canceled, first, i, src.maxScanNumber + 1);
    }
  }

  method AddAllScansDirectInfusion(src: Source, canceled: Poll -> bool)
      returns (out: Option<ScanList>, ghost keys1: seq<real>, ghost keys2: seq<int>)
    ensures DiOutcome(src, canceled, out, keys1, keys2)
  {
    keys1, keys2 := [], [];
    var first := GetFirstScanNumber(src);
    if first == -1 {
      return Some(EmptyScanList), keys1, keys2;
    }
    FirstScanNumberSpec(src);
    var run := DiLoop(src, canceled, first);
    if run.Canceled? {
      return Some(EmptyScanList), keys1, keys2;
    } else if run.Failed? {
      return None, keys1, keys2;
    }
    var st := run.st;
    var list;
    list, keys1, keys2 := Finalize(st.heap, st.ms1, st.byNumber, true, canceled);
    out := Some(list);
  }

  /** An ended loop stays ended. */
  lemma {:induction false} DiRunStaysCanceled(src: Source, canceled: Poll -> bool, first: int, n: int, m: int)
    requires first <= n <= m && DiRun(src, canceled, first, n) == Canceled
    ensures DiRun(src, canceled, first, m) == Canceled
    decreases m - n
  {
    if m > n {
      DiRunStaysCanceled(src, canceled, first, n, m - 1);
    }
  }

  lemma {:induction false} DiRunStaysFailed(src: Source, canceled: Poll -> bool, first: int, n: int, m: int)
    requires first <= n <= m && DiRun(src, canceled, first, n) == Failed
    ensures DiRun(src, canceled, first, m) == Failed
    decreases m - n
  {
    if m > n {
      DiRunStaysFailed(src, canceled, first, n, m - 1);
    }
  }
}
