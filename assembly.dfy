/**
 * The steps the scan builders of MzXmlReader share, written out once: a new
 * scan from a parsed header, hanging a child under its parent (level,
 * precursor anchor peak, the ms1 table, the parent's sub-scan numbers), the
 * peak loop without cancellation, and the closing phase that renumbers the
 * MS1 precursor peaks and collects the scan map into the result.
 */
module Assembly {
  import opened Wrappers
  import opened Numeric
  import opened Spectra
  import opened Records
  import opened PeakLists
  import opened Ingestion

  /** A new scan is allocated at the end of the scan store. */
  function NewScan(heap: Heap, s: Scan): (r: (Heap, ScanRef))
    requires HeapOk(heap) && s.peaklist == [] && s.precursor.None?
    ensures HeapOk(r.0) && r.1 == |heap.scans| && r.0.peaks == heap.peaks && r.0.scans == heap.scans + [s]
  {
    var h' := Heap(heap.peaks, heap.scans + [s]);
    assert forall q :: 0 <= q < |h'.scans| ==> ScanRefsOk(h'.peaks, h'.scans[q]) by {
      forall q | 0 <= q < |h'.scans| ensures ScanRefsOk(h'.peaks, h'.scans[q]) {
        if q < |heap.scans| {
          assert ScanRefsOk(heap.peaks, heap.scans[q]);
        }
      }
    }
    (h', |heap.scans|)
  }

  /** A scan changed in fields other than its peak references. */
  function UpdateScan(heap: Heap, r: ScanRef, s: Scan): (h': Heap)
    requires HeapOk(heap) && r < |heap.scans|
    requires s.peaklist == heap.scans[r].peaklist && s.precursor == heap.scans[r].precursor
    ensures HeapOk(h') && h'.peaks == heap.peaks && h'.scans == heap.scans[r := s]
  {
    var h' := heap.(scans := heap.scans[r := s]);
    assert forall q :: 0 <= q < |h'.scans| ==> ScanRefsOk(h'.peaks, h'.scans[q]) by {
      forall q | 0 <= q < |h'.scans| ensures ScanRefsOk(h'.peaks, h'.scans[q]) {
        assert ScanRefsOk(heap.peaks, heap.scans[q]);
      }
    }
    h'
  }

  /** A scan's precursor set to a stored peak. */
  function WithPrecursor(heap: Heap, r: ScanRef, ref: PeakRef): (h': Heap)
    requires HeapOk(heap) && r < |heap.scans| && ref < |heap.peaks|
    ensures HeapOk(h') && h'.peaks == heap.peaks && h'.scans == heap.scans[r := heap.scans[r].(precursor := Some(ref))]
  {
    var h' := heap.(scans := heap.scans[r := heap.scans[r].(precursor := Some(ref))]);
    assert forall q :: 0 <= q < |h'.scans| ==> ScanRefsOk(h'.peaks, h'.scans[q]) by {
      forall q | 0 <= q < |h'.scans| ensures ScanRefsOk(h'.peaks, h'.scans[q]) {
        assert ScanRefsOk(heap.peaks, heap.scans[q]);
      }
    }
    h'
  }

  /** How a builder's scan loop ends: still running with its state, canceled, or failed with an exception. */
  datatype Run<S> = Running(st: S) | Canceled | Failed

  /** Scan numbers and most abundant intensities never change once a scan exists. */
  ghost predicate SameScans(heap: Heap, heap': Heap)
  {
    |heap.scans| <= |heap'.scans| &&
    forall q :: 0 <= q < |heap.scans| ==>
      heap'.scans[q].scanNo == heap.scans[q].scanNo &&
      heap'.scans[q].mostAbundantPeak == heap.scans[q].mostAbundantPeak
  }

  /**
   * The child `r` is hung under the parent `pr`, as the builders do it
   * inline: its level becomes the parent's plus one, the parent's precursor
   * peak is found or appended and marked, it goes into the ms1 table under
   * the exact precursor m/z when the header says MS2, it becomes the child's
   * precursor, and the child's number is appended to the parent's sub-scans.
   */
  function Attach(heap: Heap, r: ScanRef, pr: ScanRef, h: ScanHeader, ms1: map<real, PeakRef>): (res: (Heap, map<real, PeakRef>))
    requires HeapOk(heap) && r < |heap.scans| && pr < |heap.scans|
    ensures HeapOk(res.0) && |res.0.scans| == |heap.scans| && |res.0.peaks| >= |heap.peaks|
    ensures forall x :: x in res.1 ==> (x in ms1 && res.1[x] == ms1[x]) || res.1[x] < |res.0.peaks|
  {
    var heap1 := heap.(scans := heap.scans[r := heap.scans[r].(msLevel := heap.scans[pr].msLevel + 1)]);
    assert HeapOk(heap1) by {
      forall q | 0 <= q < |heap1.scans| ensures ScanRefsOk(heap1.peaks, heap1.scans[q]) {
        assert ScanRefsOk(heap.peaks, heap.scans[q]);
      }
    }
    var (heap2, ref) := Anchor(heap1, pr, h);
    var ms1' := if h.msLevel == 2 then ms1[h.precursorMz := ref] else ms1;
    var heap3 := heap2.(scans := heap2.scans[r := heap2.scans[r].(precursor := Some(ref))]);
    assert HeapOk(heap3) by {
      forall q | 0 <= q < |heap3.scans| ensures ScanRefsOk(heap3.peaks, heap3.scans[q]) {
        assert ScanRefsOk(heap2.peaks, heap2.scans[q]);
      }
    }
    var p := heap3.scans[pr];
    var heap4 := heap3.(scans := heap3.scans[pr := p.(subScans := p.subScans + [h.num])]);
    assert HeapOk(heap4) by {
      forall q | 0 <= q < |heap4.scans| ensures ScanRefsOk(heap4.peaks, heap4.scans[q]) {
        assert ScanRefsOk(heap3.peaks, heap3.scans[q]);
      }
    }
    (heap4, ms1')
  }

  /**
   * What attaching does: the child's level is the parent's plus one; its
   * precursor is a peak of the parent's list that carries the child's
   * precursor m/z, intensity and charge; the parent's sub-scans gain the
   * child's number once; the parent's list grows, by one new zero-intensity
   * peak numbered size + 1, exactly when none of its peaks lies within 0.5;
   * the ms1 table gains the anchor for an MS2 header; nothing else changes.
   */
  lemma AttachSpec(heap: Heap, r: ScanRef, pr: ScanRef, h: ScanHeader, ms1: map<real, PeakRef>)
    requires HeapOk(heap) && r < |heap.scans| && pr < |heap.scans|
    ensures var (heap', ms1') := Attach(heap, r, pr, h, ms1);
      var parent, parent', child' := heap.scans[pr], heap'.scans[pr], heap'.scans[r];
      child'.precursor.Some? &&
      var ref := child'.precursor.value;
      child'.msLevel == parent.msLevel + 1 &&
      ref in parent'.peaklist &&
      heap'.peaks[ref].isPrecursor &&
      heap'.peaks[ref].precursorMz == Some(h.precursorMz) &&
      heap'.peaks[ref].precursorIntensity == Some(h.precursorIntensity) &&
      heap'.peaks[ref].precursorCharge == Some(h.precursorCharge) &&
      parent'.subScans == parent.subScans + [h.num] &&
      ((exists k :: 0 <= k < |parent.peaklist| && Abs(heap.peaks[parent.peaklist[k]].mz - h.precursorMz) < 0.5)
        <==> parent'.peaklist == parent.peaklist) &&
      (parent'.peaklist != parent.peaklist ==>
        parent'.peaklist == parent.peaklist + [ref] && ref == |heap.peaks| &&
        heap'.peaks[ref].id == |parent.peaklist| + 1 && heap'.peaks[ref].mz == h.precursorMz &&
        heap'.peaks[ref].intensity == 0.0) &&
      (parent'.peaklist == parent.peaklist ==> |heap'.peaks| == |heap.peaks|) &&
      (forall q :: 0 <= q < |heap.peaks| && q != ref ==> heap'.peaks[q] == heap.peaks[q]) &&
      (forall s :: 0 <= s < |heap.scans| && s != r && s != pr ==> heap'.scans[s] == heap.scans[s]) &&
      (r != pr ==> child' == heap.scans[r].(msLevel := child'.msLevel, precursor := child'.precursor)) &&
      parent' == parent.(msLevel := parent'.msLevel, precursor := parent'.precursor,
                         peaklist := parent'.peaklist, subScans := parent'.subScans) &&
      (r != pr ==> parent'.msLevel == parent.msLevel && parent'.precursor == parent.precursor) &&
      SameScans(heap, heap') &&
      ms1' == if h.msLevel == 2 then ms1[h.precursorMz := ref] else ms1
  {
    var heap1 := heap.(scans := heap.scans[r := heap.scans[r].(msLevel := heap.scans[pr].msLevel + 1)]);
    assert HeapOk(heap1) by {
      forall q | 0 <= q < |heap1.scans| ensures ScanRefsOk(heap1.peaks, heap1.scans[q]) {
        assert ScanRefsOk(heap.peaks, heap.scans[q]);
      }
    }
    AnchorSpec(heap1, pr, h);
    var (heap2, ref) := Anchor(heap1, pr, h);
    var heap3 := heap2.(scans := heap2.scans[r := heap2.scans[r].(precursor := Some(ref))]);
    var p := heap3.scans[pr];
    var heap4 := heap3.(scans := heap3.scans[pr := p.(subScans := p.subScans + [h.num])]);
    assert Attach(heap, r, pr, h, ms1) == (heap4, if h.msLevel == 2 then ms1[h.precursorMz := ref] else ms1);
    LinkLinks(heap, heap1, heap2, r, pr, ref, h);
    LinkFrame(heap, heap1, heap2, r, pr, ref, h);
  }

  /**
   * AttachSpec on the anchored heap: `heap1` is `heap` with the child's
   * level set, `heap2` and `ref` are what anchoring in `heap1` gives, as
   * AnchorSpec states it; then the child's precursor and the parent's
   * sub-scans are set.
   */
  lemma LinkLinks(heap: Heap, heap1: Heap, heap2: Heap, r: ScanRef, pr: ScanRef, ref: PeakRef, h: ScanHeader)
    requires r < |heap.scans| && pr < |heap.scans|
    requires forall k :: 0 <= k < |heap.scans[pr].peaklist| ==> heap.scans[pr].peaklist[k] < |heap.peaks|
    requires heap1 == heap.(scans := heap.scans[r := heap.scans[r].(msLevel := heap.scans[pr].msLevel + 1)])
    requires |heap2.scans| == |heap1.scans| && ref < |heap2.peaks| && |heap1.peaks| <= |heap2.peaks|
    requires var list := heap1.scans[pr].peaklist;
      var list' := heap2.scans[pr].peaklist;
      ref in list' &&
      heap2.peaks[ref].isPrecursor &&
      heap2.peaks[ref].precursorMz == Some(h.precursorMz) &&
      heap2.peaks[ref].precursorIntensity == Some(h.precursorIntensity) &&
      heap2.peaks[ref].precursorCharge == Some(h.precursorCharge) &&
      ((exists k :: 0 <= k < |list| && Abs(heap1.peaks[list[k]].mz - h.precursorMz) < 0.5) <==> list' == list) &&
      (list' != list ==>
        list' == list + [ref] && ref == |heap1.peaks| &&
        heap2.peaks[ref].id == |list| + 1 && heap2.peaks[ref].mz == h.precursorMz &&
        heap2.peaks[ref].intensity == 0.0) &&
      (list' == list ==> |heap2.peaks| == |heap1.peaks|) &&
      (forall q :: 0 <= q < |heap1.peaks| && q != ref ==> heap2.peaks[q] == heap1.peaks[q]) &&
      (forall s :: 0 <= s < |heap1.scans| && s != pr ==> heap2.scans[s] == heap1.scans[s]) &&
      heap2.scans[pr] == heap1.scans[pr].(peaklist := list')
    ensures var heap3 := heap2.(scans := heap2.scans[r := heap2.scans[r].(precursor := Some(ref))]);
      var p := heap3.scans[pr];
      var heap' := heap3.(scans := heap3.scans[pr := p.(subScans := p.subScans + [h.num])]);
      var parent, parent', child' := heap.scans[pr], heap'.scans[pr], heap'.scans[r];
      child'.precursor == Some(ref) &&
      child'.msLevel == parent.msLevel + 1 &&
      ref in parent'.peaklist &&
      heap'.peaks[ref].isPrecursor &&
      heap'.peaks[ref].precursorMz == Some(h.precursorMz) &&
      heap'.peaks[ref].precursorIntensity == Some(h.precursorIntensity) &&
      heap'.peaks[ref].precursorCharge == Some(h.precursorCharge) &&
      parent'.subScans == parent.subScans + [h.num] &&
      ((exists k :: 0 <= k < |parent.peaklist| && Abs(heap.peaks[parent.peaklist[k]].mz - h.precursorMz) < 0.5)
        <==> parent'.peaklist == parent.peaklist) &&
      (parent'.peaklist != parent.peaklist ==>
        parent'.peaklist == parent.peaklist + [ref] && ref == |heap.peaks| &&
        heap'.peaks[ref].id == |parent.peaklist| + 1 && heap'.peaks[ref].mz == h.precursorMz &&
        heap'.peaks[ref].intensity == 0.0)
  {
  }

  /** ... and the frame: what else the two last updates change. */
  lemma LinkFrame(heap: Heap, heap1: Heap, heap2: Heap, r: ScanRef, pr: ScanRef, ref: PeakRef, h: ScanHeader)
    requires r < |heap.scans| && pr < |heap.scans|
    requires forall k :: 0 <= k < |heap.scans[pr].peaklist| ==> heap.scans[pr].peaklist[k] < |heap.peaks|
    requires heap1 == heap.(scans := heap.scans[r := heap.scans[r].(msLevel := heap.scans[pr].msLevel + 1)])
    requires |heap2.scans| == |heap1.scans| && ref < |heap2.peaks| && |heap1.peaks| <= |heap2.peaks|
    requires var list := heap1.scans[pr].peaklist;
      var list' := heap2.scans[pr].peaklist;
      ref in list' &&
      heap2.peaks[ref].isPrecursor &&
      heap2.peaks[ref].precursorMz == Some(h.precursorMz) &&
      heap2.peaks[ref].precursorIntensity == Some(h.precursorIntensity) &&
      heap2.peaks[ref].precursorCharge == Some(h.precursorCharge) &&
      ((exists k :: 0 <= k < |list| && Abs(heap1.peaks[list[k]].mz - h.precursorMz) < 0.5) <==> list' == list) &&
      (list' != list ==>
        list' == list + [ref] && ref == |heap1.peaks| &&
        heap2.peaks[ref].id == |list| + 1 && heap2.peaks[ref].mz == h.precursorMz &&
        heap2.peaks[ref].intensity == 0.0) &&
      (list' == list ==> |heap2.peaks| == |heap1.peaks|) &&
      (forall q :: 0 <= q < |heap1.peaks| && q != ref ==> heap2.peaks[q] == heap1.peaks[q]) &&
      (forall s :: 0 <= s < |heap1.scans| && s != pr ==> heap2.scans[s] == heap1.scans[s]) &&
      heap2.scans[pr] == heap1.scans[pr].(peaklist := list')
    ensures var heap3 := heap2.(scans := heap2.scans[r := heap2.scans[r].(precursor := Some(ref))]);
      var p := heap3.scans[pr];
      var heap' := heap3.(scans := heap3.scans[pr := p.(subScans := p.subScans + [h.num])]);
      var parent, parent', child' := heap.scans[pr], heap'.scans[pr], heap'.scans[r];
      child'.precursor == Some(ref) &&
      (parent'.peaklist == parent.peaklist ==> |heap'.peaks| == |heap.peaks|) &&
      (forall q :: 0 <= q < |heap.peaks| && q != ref ==> heap'.peaks[q] == heap.peaks[q]) &&
      (forall s :: 0 <= s < |heap.scans| && s != r && s != pr ==> heap'.scans[s] == heap.scans[s]) &&
      (r != pr ==> child' == heap.scans[r].(msLevel := child'.msLevel, precursor := child'.precursor)) &&
      parent' == parent.(msLevel := parent'.msLevel, precursor := parent'.precursor,
                         peaklist := parent'.peaklist, subScans := parent'.subScans) &&
      (r != pr ==> parent'.msLevel == parent.msLevel && parent'.precursor == parent.precursor) &&
      SameScans(heap, heap')
  {
  }

  /** Attaching keeps every stored peak positive or a precursor. */
  lemma AttachPeaksOk(heap: Heap, r: ScanRef, pr: ScanRef, h: ScanHeader, ms1: map<real, PeakRef>)
    requires HeapOk(heap) && r < |heap.scans| && pr < |heap.scans| && PeaksOk(heap.peaks)
    ensures PeaksOk(Attach(heap, r, pr, h, ms1).0.peaks)
  {
    AttachSpec(heap, r, pr, h, ms1);
    var heap' := Attach(heap, r, pr, h, ms1).0;
    var ref := heap'.scans[r].precursor.value;
    forall q | 0 <= q < |heap'.peaks| ensures heap'.peaks[q].intensity > 0.0 || heap'.peaks[q].isPrecursor {
      if q != ref {
        assert q < |heap.peaks|;
      }
    }
  }

  /** A table whose peaks are all kept stays so through attaching, which adds the anchor it marks. */
  lemma AttachKeepsTable(heap: Heap, r: ScanRef, pr: ScanRef, h: ScanHeader, ms1: map<real, PeakRef>)
    requires HeapOk(heap) && r < |heap.scans| && pr < |heap.scans|
    requires forall x :: x in ms1 ==> ms1[x] < |heap.peaks| && Ms1Kept(heap.peaks[ms1[x]])
    ensures var (heap', ms1') := Attach(heap, r, pr, h, ms1);
      forall x :: x in ms1' ==> ms1'[x] < |heap'.peaks| && Ms1Kept(heap'.peaks[ms1'[x]])
  {
    AttachSpec(heap, r, pr, h, ms1);
    var (heap', ms1') := Attach(heap, r, pr, h, ms1);
    var ref := heap'.scans[r].precursor.value;
    forall x | x in ms1' ensures ms1'[x] < |heap'.peaks| && Ms1Kept(heap'.peaks[ms1'[x]]) {
      if ms1'[x] != ref {
        assert x in ms1 && ms1'[x] == ms1[x];
        assert heap'.peaks[ms1'[x]] == heap.peaks[ms1[x]];
      }
    }
  }

  /** The inline peak loops of the builders that do not poll: every positive peak is added. */
  function LoadAll(heap: Heap, r: ScanRef, raw: RawScan): (h': Heap)
    requires HeapOk(heap) && r < |heap.scans| && heap.scans[r].mostAbundantPeak == Some(MostAbundant(raw))
    ensures HeapOk(h') && |h'.scans| == |heap.scans| && SameScans(heap, h')
    ensures heap.peaks <= h'.peaks
    ensures forall s :: 0 <= s < |heap.scans| && s != r ==> h'.scans[s] == heap.scans[s]
    ensures var s, s' := heap.scans[r], h'.scans[r];
      s'.scanNo == s.scanNo && s'.msLevel == s.msLevel && s'.parentScan == s.parentScan &&
      s'.subScans == s.subScans && s'.precursor == s.precursor
  {
    if raw.massIntensity.None? then heap
    else
      MostAbundantSpec(raw);
      LoadInto(heap, r, raw.massIntensity.value, true, None)
  }

  lemma LoadAllPeaksOk(heap: Heap, r: ScanRef, raw: RawScan)
    requires HeapOk(heap) && r < |heap.scans| && heap.scans[r].mostAbundantPeak == Some(MostAbundant(raw))
    requires PeaksOk(heap.peaks)
    ensures PeaksOk(LoadAll(heap, r, raw).peaks)
  {
    if raw.massIntensity.Some? {
      MostAbundantSpec(raw);
      LoadIntoPeaksOk(heap, r, raw.massIntensity.value, true, None);
    }
  }

  /** Loading peaks only appends to the peak store, so a table of kept peaks stays so. */
  lemma LoadAllKeepsTable(heap: Heap, r: ScanRef, raw: RawScan, ms1: map<real, PeakRef>)
    requires HeapOk(heap) && r < |heap.scans| && heap.scans[r].mostAbundantPeak == Some(MostAbundant(raw))
    requires forall x :: x in ms1 ==> ms1[x] < |heap.peaks| && Ms1Kept(heap.peaks[ms1[x]])
    ensures var heap' := LoadAll(heap, r, raw);
      forall x :: x in ms1 ==> ms1[x] < |heap'.peaks| && Ms1Kept(heap'.peaks[ms1[x]])
  {
    var heap' := LoadAll(heap, r, raw);
    forall x | x in ms1 ensures ms1[x] < |heap'.peaks| && Ms1Kept(heap'.peaks[ms1[x]]) {
      assert heap'.peaks[ms1[x]] == heap.peaks[ms1[x]];
    }
  }

  /** The peak loop of a builder that polls for cancellation, scan i; None when it is canceled. */
  function LoadPolled(heap: Heap, r: ScanRef, raw: RawScan, canceled: Poll -> bool, i: int): (h': Option<Heap>)
    requires HeapOk(heap) && r < |heap.scans| && heap.scans[r].mostAbundantPeak == Some(MostAbundant(raw))
    ensures h'.Some? ==> HeapOk(h'.value) && |h'.value.scans| == |heap.scans| && SameScans(heap, h'.value)
    ensures h'.Some? ==> h'.value == LoadAll(heap, r, raw)
    ensures h'.None? <==> raw.massIntensity.Some? && StopFrom(canceled, i, 0, |raw.massIntensity.value.mz|).Some?
  {
    if raw.massIntensity.None? then Some(heap)
    else if StopFrom(canceled, i, 0, |raw.massIntensity.value.mz|).Some? then None
    else Some(LoadAll(heap, r, raw))
  }

  /** The polled peak loop of a builder, written out; None when a poll reports a cancellation. */
  method LoadPeaksPolled(heap: Heap, r: ScanRef, raw: RawScan, canceled: Poll -> bool, i: int) returns (h': Option<Heap>)
    requires HeapOk(heap) && r < |heap.scans| && heap.scans[r].mostAbundantPeak == Some(MostAbundant(raw))
    ensures h' == LoadPolled(heap, r, raw, canceled, i)
  {
    if raw.massIntensity.None? {
      return Some(heap);
    }
    var a := raw.massIntensity.value;
    var s := heap.scans[r];
    MostAbundantSpec(raw);
    var st, stopped := IngestPeaks(heap.peaks, a, s.mostAbundantPeak.value, true, canceled, i, true);
    if stopped.Some? {
      return None;
    }
    var start := s.scanStart;
    var end := s.scanEnd;
    if start <= 0.0 {
      start := st.low;
    }
    if end <= 0.0 {
      end := st.high;
    }
    s := s.(peaklist := s.peaklist + st.added, scanStart := start, scanEnd := end,
            totalNumPeaks := Some(|a.mz|), totalIntensity := Some(st.total));
    h' := Some(Heap(st.peaks, heap.scans[r := s]));
    LoadAllIs(heap, r, raw);
  }

  /** The peak loop of a builder that does not poll, written out. */
  method LoadPeaks(heap: Heap, r: ScanRef, raw: RawScan) returns (h': Heap)
    requires HeapOk(heap) && r < |heap.scans| && heap.scans[r].mostAbundantPeak == Some(MostAbundant(raw))
    ensures h' == LoadAll(heap, r, raw)
  {
    if raw.massIntensity.None? {
      return heap;
    }
    var a := raw.massIntensity.value;
    var s := heap.scans[r];
    MostAbundantSpec(raw);
    var st, _ := IngestPeaks(heap.peaks, a, s.mostAbundantPeak.value, true, NeverCanceled(), 0, false);
    var start := s.scanStart;
    var end := s.scanEnd;
    if start <= 0.0 {
      start := st.low;
    }
    if end <= 0.0 {
      end := st.high;
    }
    s := s.(peaklist := s.peaklist + st.added, scanStart := start, scanEnd := end,
            totalNumPeaks := Some(|a.mz|), totalIntensity := Some(st.total));
    h' := Heap(st.peaks, heap.scans[r := s]);
    LoadAllIs(heap, r, raw);
  }

  /** The full peak loop as one call of the loop function: the store it leaves and the finished scan. */
  lemma LoadAllIs(heap: Heap, r: ScanRef, raw: RawScan)
    requires HeapOk(heap) && r < |heap.scans| && heap.scans[r].mostAbundantPeak == Some(MostAbundant(raw))
    requires raw.massIntensity.Some?
    ensures MostAbundant(raw) > 0.0
    ensures var a := raw.massIntensity.value;
      var st := IngestUpTo(heap.peaks, a, MostAbundant(raw), true, |a.mz|);
      LoadAll(heap, r, raw) == Heap(st.peaks, heap.scans[r := Finish(heap.scans[r], a, st)])
  {
    MostAbundantSpec(raw);
  }

  /** The peaks the full peak loop adds to the store: one per positive intensity, in raw order. */
  lemma LoadAllPeaks(heap: Heap, r: ScanRef, raw: RawScan)
    requires HeapOk(heap) && r < |heap.scans| && heap.scans[r].mostAbundantPeak == Some(MostAbundant(raw))
    requires raw.massIntensity.Some?
    ensures MostAbundant(raw) > 0.0
    ensures var heap' := LoadAll(heap, r, raw);
      |heap.peaks| <= |heap'.peaks| &&
      PositivePeaks(heap'.peaks, |heap.peaks|, raw.massIntensity.value, MostAbundant(raw), |raw.massIntensity.value.mz|)
  {
    LoadAllIs(heap, r, raw);
    IngestMade(heap.peaks, raw.massIntensity.value, MostAbundant(raw), true, |raw.massIntensity.value.mz|);
  }

  /** The references lo .. hi - 1, in order. */
  function Span(lo: nat, hi: nat): (refs: seq<PeakRef>)
    requires lo <= hi
    ensures |refs| == hi - lo && forall k :: 0 <= k < |refs| ==> refs[k] == lo + k
  {
    seq(hi - lo, k => lo + k)
  }

  /** The full peak loop appends to scan r's list exactly the peaks it allocates. */
  lemma LoadAllList(heap: Heap, r: ScanRef, raw: RawScan)
    requires HeapOk(heap) && r < |heap.scans| && heap.scans[r].mostAbundantPeak == Some(MostAbundant(raw))
    requires raw.massIntensity.Some?
    ensures var heap' := LoadAll(heap, r, raw);
      |heap.peaks| <= |heap'.peaks| &&
      heap'.scans[r].peaklist == heap.scans[r].peaklist + Span(|heap.peaks|, |heap'.peaks|)
  {
    var a := raw.massIntensity.value;
    LoadAllIs(heap, r, raw);
    var m := MostAbundant(raw);
    var st := IngestUpTo(heap.peaks, a, m, true, |a.mz|);
    IngestKeepsStore(heap.peaks, a, m, true, |a.mz|);
    IngestAdded(heap.peaks, a, m, true, |a.mz|);
    assert st.added == Span(|heap.peaks|, |st.peaks|);
  }

  /**
   * The totals the full peak loop sets on scan r: the raw row length and the
   * intensity sum of the new peaks; a non-positive start (end) becomes their
   * least (greatest) m/z, or the MAX_VALUE (MIN_VALUE) start when there is
   * none; no other field changes.
   */
  lemma LoadAllTotals(heap: Heap, r: ScanRef, raw: RawScan)
    requires HeapOk(heap) && r < |heap.scans| && heap.scans[r].mostAbundantPeak == Some(MostAbundant(raw))
    requires raw.massIntensity.Some?
    ensures var a, heap' := raw.massIntensity.value, LoadAll(heap, r, raw);
      var s, s' := heap.scans[r], heap'.scans[r];
      |heap.peaks| <= |heap'.peaks| &&
      var made := heap'.peaks[|heap.peaks|..];
      s'.totalNumPeaks == Some(|a.mz|) && s'.totalIntensity == Some(SumIntensity(made)) &&
      (s.scanStart > 0.0 ==> s'.scanStart == s.scanStart) &&
      (s.scanEnd > 0.0 ==> s'.scanEnd == s.scanEnd) &&
      (s.scanStart <= 0.0 ==> (
        (forall k :: 0 <= k < |made| ==> s'.scanStart <= made[k].mz) &&
        (s'.scanStart == DoubleMaxValue || exists k :: 0 <= k < |made| && s'.scanStart == made[k].mz))) &&
      (s.scanEnd <= 0.0 ==> (
        (forall k :: 0 <= k < |made| ==> made[k].mz <= s'.scanEnd) &&
        (s'.scanEnd == DoubleMinValue || exists k :: 0 <= k < |made| && s'.scanEnd == made[k].mz))) &&
      s' == s.(peaklist := s'.peaklist, scanStart := s'.scanStart, scanEnd := s'.scanEnd,
               totalNumPeaks := s'.totalNumPeaks, totalIntensity := s'.totalIntensity)
  {
    var a := raw.massIntensity.value;
    LoadAllIs(heap, r, raw);
    var m := MostAbundant(raw);
    var st := IngestUpTo(heap.peaks, a, m, true, |a.mz|);
    IngestKeepsStore(heap.peaks, a, m, true, |a.mz|);
    IngestBounds(heap.peaks, a, m, true, |a.mz|);
    IngestTotal(heap.peaks, a, m, true, |a.mz|);
    var made := st.peaks[|heap.peaks|..];
    if heap.scans[r].scanStart <= 0.0 && st.low != DoubleMaxValue {
      var q :| |heap.peaks| <= q < |st.peaks| && st.low == st.peaks[q].mz;
      assert made[q - |heap.peaks|] == st.peaks[q];
    }
    if heap.scans[r].scanEnd <= 0.0 && st.high != DoubleMinValue {
      var q :| |heap.peaks| <= q < |st.peaks| && st.high == st.peaks[q].mz;
      assert made[q - |heap.peaks|] == st.peaks[q];
    }
    assert forall k :: 0 <= k < |made| ==> made[k] == st.peaks[|heap.peaks| + k];
  }

  // ----- closing phase -----

  /** A sequence listing every element of a set exactly once: an iteration order of a HashMap's keys. */
  ghost predicate IsOrderOf<K(!new)>(keys: seq<K>, s: set<K>)
  {
    (forall k, k' :: 0 <= k < k' < |keys| ==> keys[k] != keys[k']) &&
    (forall k :: 0 <= k < |keys| ==> keys[k] in s) &&
    (forall x :: x in s ==> x in keys)
  }

  /** The values of a map in the order of `keys`. */
  function ValuesIn<K, V>(m: map<K, V>, keys: seq<K>): (vs: seq<V>)
    requires forall k :: 0 <= k < |keys| ==> keys[k] in m
    ensures |vs| == |keys| && forall k :: 0 <= k < |keys| ==> vs[k] == m[keys[k]]
  {
    seq(|keys|, k requires 0 <= k < |keys| => m[keys[k]])
  }

  lemma ValuesInBounded<K(!new)>(m: map<K, nat>, keys: seq<K>, bound: nat)
    requires IsOrderOf(keys, m.Keys) && forall x :: x in m ==> m[x] < bound
    ensures forall k :: 0 <= k < |keys| ==> keys[k] in m && ValuesIn(m, keys)[k] < bound
  {
  }

  /** The state of the renumbering loop: the peaks, the MS1 list built so far and the next id. */
  datatype Numbered = Numbered(peaks: seq<Peak>, list: seq<PeakRef>, next: int)

  /** A peak the filtering closing phases keep: marked as a precursor, with a precursor intensity. */
  predicate Ms1Kept(p: Peak)
  {
    p.isPrecursor && p.precursorIntensity.Some?
  }

  /**
   * The renumbering loop over the ms1 table's peaks in iteration order:
   * each peak kept (all of them without the filter) gets the next id from 1
   * and is appended to the shared MS1 list.
   */
  function Renumber(peaks: seq<Peak>, refs: seq<PeakRef>, filter: bool): (n: Numbered)
    requires forall k :: 0 <= k < |refs| ==> refs[k] < |peaks|
    ensures |n.peaks| == |peaks| && forall k :: 0 <= k < |n.list| ==> n.list[k] < |peaks|
  {
    if |refs| == 0 then Numbered(peaks, [], 1)
    else
      var n := Renumber(peaks, refs[..|refs| - 1], filter);
      var ref := refs[|refs| - 1];
      if filter && !Ms1Kept(n.peaks[ref]) then n
      else Numbered(n.peaks[ref := n.peaks[ref].(id := n.next)], n.list + [ref], n.next + 1)
  }

  /** Renumbering changes only ids, and only of the table's peaks; the next id is one past the list. */
  lemma {:induction false} RenumberOnlyIds(peaks: seq<Peak>, refs: seq<PeakRef>, filter: bool)
    requires forall k :: 0 <= k < |refs| ==> refs[k] < |peaks|
    ensures var n := Renumber(peaks, refs, filter);
      (forall q :: 0 <= q < |peaks| ==> n.peaks[q] == peaks[q].(id := n.peaks[q].id)) &&
      (forall q :: 0 <= q < |peaks| && q !in refs ==> n.peaks[q] == peaks[q]) &&
      n.next == |n.list| + 1
  {
    if |refs| > 0 {
      var init := refs[..|refs| - 1];
      RenumberOnlyIds(peaks, init, filter);
      assert forall q :: q in init ==> q in refs;
    }
  }

  /** Every peak of the shared MS1 list comes from the table and, with the filter, is kept. */
  lemma {:induction false} RenumberListSound(peaks: seq<Peak>, refs: seq<PeakRef>, filter: bool)
    requires forall k :: 0 <= k < |refs| ==> refs[k] < |peaks|
    ensures var n := Renumber(peaks, refs, filter);
      forall k :: 0 <= k < |n.list| ==> n.list[k] in refs && (filter ==> Ms1Kept(peaks[n.list[k]]))
  {
    if |refs| > 0 {
      var init := refs[..|refs| - 1];
      RenumberListSound(peaks, init, filter);
      RenumberOnlyIds(peaks, init, filter);
      assert forall q :: q in init ==> q in refs;
    }
  }

  /** Every kept table peak is in the shared MS1 list; without the filter the list is the table's peaks. */
  lemma {:induction false} RenumberListComplete(peaks: seq<Peak>, refs: seq<PeakRef>, filter: bool)
    requires forall k :: 0 <= k < |refs| ==> refs[k] < |peaks|
    ensures var n := Renumber(peaks, refs, filter);
      (forall k :: 0 <= k < |refs| && (!filter || Ms1Kept(peaks[refs[k]])) ==> refs[k] in n.list) &&
      (!filter ==> n.list == refs)
  {
    if |refs| > 0 {
      var init := refs[..|refs| - 1];
      RenumberListComplete(peaks, init, filter);
      RenumberOnlyIds(peaks, init, filter);
      var n := Renumber(peaks, init, filter);
      var n' := Renumber(peaks, refs, filter);
      var ref := refs[|refs| - 1];
      assert n.list <= n'.list;
      forall k | 0 <= k < |refs| && (!filter || Ms1Kept(peaks[refs[k]]))
        ensures refs[k] in n'.list
      {
        if k < |refs| - 1 {
          assert refs[k] == init[k];
        } else {
          assert n'.list == n.list + [ref];
        }
      }
    }
    if !filter {
      RenumberUnfiltered(peaks, refs);
    }
  }

  /** Without the filter the shared MS1 list is the table's peaks, in order. */
  lemma {:induction false} RenumberUnfiltered(peaks: seq<Peak>, refs: seq<PeakRef>)
    requires forall k :: 0 <= k < |refs| ==> refs[k] < |peaks|
    ensures Renumber(peaks, refs, false).list == refs
  {
    if |refs| > 0 {
      var init := refs[..|refs| - 1];
      RenumberUnfiltered(peaks, init);
      assert refs == init + [refs[|refs| - 1]];
    }
  }

  /**
   * A peak of the list that does not occur again later carries its position
   * in the list plus one as its id: with distinct table entries, ids 1..n.
   */
  lemma {:induction false} RenumberIds(peaks: seq<Peak>, refs: seq<PeakRef>, filter: bool)
    requires forall k :: 0 <= k < |refs| ==> refs[k] < |peaks|
    ensures var n := Renumber(peaks, refs, filter);
      forall k :: 0 <= k < |n.list| && n.list[k] !in n.list[k + 1..] ==> n.peaks[n.list[k]].id == k + 1
  {
    if |refs| > 0 {
      var init := refs[..|refs| - 1];
      RenumberIds(peaks, init, filter);
      RenumberOnlyIds(peaks, init, filter);
      var n := Renumber(peaks, init, filter);
      var n' := Renumber(peaks, refs, filter);
      if n' != n {
        var ref := refs[|refs| - 1];
        RenumberIdsStep(n, n', ref);
      }
    }
  }

  /** Appending one peak with the next id keeps every last-occurrence id at its position plus one. */
  lemma RenumberIdsStep(n: Numbered, n': Numbered, ref: PeakRef)
    requires ref < |n.peaks| && forall k :: 0 <= k < |n.list| ==> n.list[k] < |n.peaks|
    requires n.next == |n.list| + 1
    requires forall k :: 0 <= k < |n.list| && n.list[k] !in n.list[k + 1..] ==> n.peaks[n.list[k]].id == k + 1
    requires n'.list == n.list + [ref] && n'.peaks == n.peaks[ref := n.peaks[ref].(id := n.next)]
    ensures forall k :: 0 <= k < |n'.list| && n'.list[k] !in n'.list[k + 1..] ==> n'.peaks[n'.list[k]].id == k + 1
  {
    forall k | 0 <= k < |n'.list| && n'.list[k] !in n'.list[k + 1..]
      ensures n'.peaks[n'.list[k]].id == k + 1
    {
      if k < |n.list| {
        var q := n.list[k];
        assert n'.list[k + 1..] == n.list[k + 1..] + [ref];
        assert q != ref && q !in n.list[k + 1..];
        assert n'.peaks[q] == n.peaks[q];
      }
    }
  }

  /** When every table peak is already kept, the filter changes nothing. */
  lemma {:induction false} RenumberAllKept(peaks: seq<Peak>, refs: seq<PeakRef>)
    requires forall k :: 0 <= k < |refs| ==> refs[k] < |peaks| && Ms1Kept(peaks[refs[k]])
    ensures Renumber(peaks, refs, true) == Renumber(peaks, refs, false)
  {
    if |refs| > 0 {
      var init := refs[..|refs| - 1];
      RenumberAllKept(peaks, init);
      RenumberOnlyIds(peaks, init, true);
      var ref := refs[|refs| - 1];
      assert Ms1Kept(peaks[ref]);
    }
  }

  /** The view of a scan in the result: an MS1 scan carries the shared MS1 list. */
  function Ms1View(s: Scan, ms1Peaks: seq<PeakRef>): (v: Scan)
  {
    if s.msLevel == 1 then s.(peaklist := ms1Peaks) else s
  }

  /** The collecting loop over the scan map's values in iteration order. */
  function Collect(scans: seq<Scan>, refs: seq<ScanRef>, ms1Peaks: seq<PeakRef>): (out: seq<Scan>)
    requires forall k :: 0 <= k < |refs| ==> refs[k] < |scans|
    ensures |out| == |refs|
  {
    seq(|refs|, k requires 0 <= k < |refs| => Ms1View(scans[refs[k]], ms1Peaks))
  }

  /** Whether the poll answers "canceled" at one of the first n passes of a closing loop. */
  predicate CanceledInMs1(canceled: Poll -> bool, n: nat)
  {
    exists k :: 0 <= k < n && canceled(AtMs1(k))
  }

  predicate CanceledInCollect(canceled: Poll -> bool, n: nat)
  {
    exists k :: 0 <= k < n && canceled(AtCollect(k))
  }

  /** Every table entry names a stored peak and every map entry a stored scan. */
  ghost predicate TablesOk(heap: Heap, ms1: map<real, PeakRef>, byNumber: map<int, ScanRef>)
  {
    (forall x :: x in ms1 ==> ms1[x] < |heap.peaks|) &&
    (forall n :: n in byNumber ==> byNumber[n] < |heap.scans|)
  }

  /**
   * The closing phase for the ms1 table's peaks and the scan map's scans in
   * their iteration orders: a cancellation in either loop gives the empty list.
   */
  function Closing(heap: Heap, ms1Refs: seq<PeakRef>, scanRefs: seq<ScanRef>, filter: bool, canceled: Poll -> bool): (out: ScanList)
    requires HeapOk(heap) && RefsIn(ms1Refs, |heap.peaks|) && RefsIn(scanRefs, |heap.scans|)
  {
    if CanceledInMs1(canceled, |ms1Refs|) then EmptyScanList
    else
      var n := Renumber(heap.peaks, ms1Refs, filter);
      if CanceledInCollect(canceled, |scanRefs|) then EmptyScanList
      else ScanList(Collect(heap.scans, scanRefs, n.list), n.peaks)
  }

  predicate RefsIn(refs: seq<nat>, bound: nat)
  {
    forall k :: 0 <= k < |refs| ==> refs[k] < bound
  }

  /** The iteration orders of the tables, read through `keys1` and `keys2`, name stored peaks and scans. */
  lemma TablesRefsIn(heap: Heap, ms1: map<real, PeakRef>, keys1: seq<real>, byNumber: map<int, ScanRef>, keys2: seq<int>)
    requires TablesOk(heap, ms1, byNumber) && IsOrderOf(keys1, ms1.Keys) && IsOrderOf(keys2, byNumber.Keys)
    ensures RefsIn(ValuesIn(ms1, keys1), |heap.peaks|) && RefsIn(ValuesIn(byNumber, keys2), |heap.scans|)
  {
    assert forall x :: x in ms1 ==> ms1[x] < |heap.peaks|;
    assert forall x :: x in byNumber ==> byNumber[x] < |heap.scans|;
    ValuesInBounded(ms1, keys1, |heap.peaks|);
    ValuesInBounded(byNumber, keys2, |heap.scans|);
  }

  /**
   * What the closing phase returns when not canceled: one scan per entry of
   * the scan map; every MS1 scan carries the same list, the renumbered ms1
   * precursor peaks; every other scan is the stored one; only peak ids change.
   */
  lemma ClosingSpec(heap: Heap, ms1Refs: seq<PeakRef>, scanRefs: seq<ScanRef>, filter: bool, canceled: Poll -> bool)
    requires HeapOk(heap) && RefsIn(ms1Refs, |heap.peaks|) && RefsIn(scanRefs, |heap.scans|)
    requires !CanceledInMs1(canceled, |ms1Refs|) && !CanceledInCollect(canceled, |scanRefs|)
    ensures var out := Closing(heap, ms1Refs, scanRefs, filter, canceled);
      var n := Renumber(heap.peaks, ms1Refs, filter);
      ScanListOk(out) && |out.scans| == |scanRefs| && out.peaks == n.peaks &&
      (forall k :: 0 <= k < |scanRefs| ==> out.scans[k] == Ms1View(heap.scans[scanRefs[k]], n.list)) &&
      (forall k :: 0 <= k < |out.scans| && out.scans[k].msLevel == 1 ==> out.scans[k].peaklist == n.list) &&
      (forall k :: 0 <= k < |out.scans| && out.scans[k].msLevel != 1 ==> out.scans[k] == heap.scans[scanRefs[k]]) &&
      (forall q :: 0 <= q < |heap.peaks| ==> out.peaks[q] == heap.peaks[q].(id := out.peaks[q].id))
  {
    RenumberOnlyIds(heap.peaks, ms1Refs, filter);
    var n := Renumber(heap.peaks, ms1Refs, filter);
    var out := Closing(heap, ms1Refs, scanRefs, filter, canceled);
    forall k | 0 <= k < |out.scans| ensures ScanRefsOk(out.peaks, out.scans[k]) {
      assert ScanRefsOk(heap.peaks, heap.scans[scanRefs[k]]);
    }
  }

  /** An order of a set has one entry per element. */
  lemma {:induction false} KeysCount<K(!new)>(keys: seq<K>, s: set<K>)
    requires IsOrderOf(keys, s)
    ensures |keys| == |s|
  {
    if |keys| > 0 {
      var last := keys[|keys| - 1];
      var init := keys[..|keys| - 1];
      assert IsOrderOf(init, s - {last}) by {
        forall x ensures x in s - {last} <==> x in init {
          if x in init {
            var k :| 0 <= k < |init| && init[k] == x;
            assert keys[k] == x;
          }
          if x in s - {last} {
            assert x in keys;
            var k :| 0 <= k < |keys| && keys[k] == x;
            assert k != |keys| - 1;
            assert init[k] == x;
          }
        }
      }
      KeysCount(init, s - {last});
    } else {
      assert forall x :: x !in s;
      assert s == {};
    }
  }

  /** Some iteration order of a set. */
  ghost function OrderOf<K(!new)>(s: set<K>): (keys: seq<K>)
    ensures IsOrderOf(keys, s)
    decreases |s|
  {
    if s == {} then []
    else
      var x :| x in s;
      var rest := OrderOf(s - {x});
      assert forall k :: 0 <= k < |rest| ==> rest[k] != x;
      [x] + rest
  }

  /** Orders of two disjoint sets, one after the other, are an order of their union. */
  lemma OrderConcat<K(!new)>(a: seq<K>, sa: set<K>, b: seq<K>, sb: set<K>)
    requires IsOrderOf(a, sa) && IsOrderOf(b, sb) && sa !! sb
    ensures IsOrderOf(a + b, sa + sb)
  {
    var ab := a + b;
    forall k, k' | 0 <= k < k' < |ab| ensures ab[k] != ab[k'] {
      if k < |a| && k' >= |a| {
        assert ab[k] in sa && ab[k'] in sb;
      }
    }
  }

  /** One more key walked: the walked keys stay an order of what has been taken out. */
  lemma OrderStep<K(!new)>(keys: seq<K>, s: set<K>, remaining: set<K>, key: K)
    requires remaining <= s && IsOrderOf(keys, s - remaining) && key in remaining
    ensures IsOrderOf(keys + [key], s - (remaining - {key}))
  {
    OrderConcat(keys, s - remaining, [key], {key});
    assert s - remaining + {key} == s - (remaining - {key});
  }

  /** The walk cut short: the keys not yet walked, in some order, complete it. */
  lemma OrderFinish<K(!new)>(keys: seq<K>, s: set<K>, remaining: set<K>)
    requires remaining <= s && IsOrderOf(keys, s - remaining)
    ensures IsOrderOf(keys + OrderOf(remaining), s)
    ensures remaining != {} ==> |keys + OrderOf(remaining)| > |keys|
  {
    OrderConcat(keys, s - remaining, OrderOf(remaining), remaining);
    assert s - remaining + remaining == s;
    if remaining != {} {
      var x :| x in remaining;
      assert x in OrderOf(remaining);
    }
  }

  /** Walking a HashMap's key set: the order is unspecified, any order of the set may come out. */
  method KeysOf<K(!new)>(s: set<K>) returns (keys: seq<K>)
    ensures IsOrderOf(keys, s)
  {
    var remaining := s;
    keys := [];
    while remaining != {}
      invariant remaining <= s && IsOrderOf(keys, s - remaining)
      decreases |remaining|
    {
      var key :| key in remaining;
      OrderStep(keys, s, remaining, key);
      remaining := remaining - {key};
      keys := keys + [key];
    }
    assert s - remaining == s;
  }

  /** The renumbering loop over the ms1 table's peaks in iteration order, with a poll at the top of every pass. */
  method RenumberMs1(peaks0: seq<Peak>, refs: seq<PeakRef>, filter: bool, canceled: Poll -> bool)
      returns (n: Numbered, stopped: bool)
    requires RefsIn(refs, |peaks0|)
    ensures stopped == CanceledInMs1(canceled, |refs|)
    ensures !stopped ==> n == Renumber(peaks0, refs, filter)
  {
    n := Numbered(peaks0, [], 1);
    var k := 0;
    while k < |refs|
      invariant k <= |refs| && !CanceledInMs1(canceled, k)
      invariant n == Renumber(peaks0, refs[..k], filter)
    {
      if canceled(AtMs1(k)) {
        return n, true;
      }
      var ref := refs[k];
      if !filter || (n.peaks[ref].isPrecursor && n.peaks[ref].precursorIntensity.Some?) {
        n := Numbered(n.peaks[ref := n.peaks[ref].(id := n.next)], n.list + [ref], n.next + 1);
      }
      assert refs[..k + 1][..k] == refs[..k];
      k := k + 1;
    }
    assert refs[..k] == refs;
    stopped := false;
  }

  /** The collecting loop over the scan map's scans in iteration order, with a poll at the top of every pass. */
  method CollectScans(scans0: seq<Scan>, refs: seq<ScanRef>, list: seq<PeakRef>, canceled: Poll -> bool)
      returns (scans: seq<Scan>, stopped: bool)
    requires RefsIn(refs, |scans0|)
    ensures stopped == CanceledInCollect(canceled, |refs|)
    ensures !stopped ==> scans == Collect(scans0, refs, list)
  {
    scans := [];
    var k := 0;
    while k < |refs|
      invariant k <= |refs| && !CanceledInCollect(canceled, k)
      invariant scans == Collect(scans0, refs[..k], list)
    {
      if canceled(AtCollect(k)) {
        return scans, true;
      }
      var s := scans0[refs[k]];
      if s.msLevel == 1 {
        s := s.(peaklist := list);
      }
      scans := scans + [s];
      k := k + 1;
    }
    assert refs[..k] == refs;
    stopped := false;
  }

  /** The closing phase of a builder: renumbering, then collecting; a cancellation gives the empty list. */
  method Finalize(heap: Heap, ms1: map<real, PeakRef>, byNumber: map<int, ScanRef>, filter: bool, canceled: Poll -> bool)
      returns (out: ScanList, ghost keys1: seq<real>, ghost keys2: seq<int>)
    requires HeapOk(heap) && TablesOk(heap, ms1, byNumber)
    ensures IsOrderOf(keys1, ms1.Keys) && IsOrderOf(keys2, byNumber.Keys)
    ensures RefsIn(ValuesIn(ms1, keys1), |heap.peaks|) && RefsIn(ValuesIn(byNumber, keys2), |heap.scans|)
    ensures out == Closing(heap, ValuesIn(ms1, keys1), ValuesIn(byNumber, keys2), filter, canceled)
  {
    var ks1 := KeysOf(ms1.Keys);
    var ks2 := KeysOf(byNumber.Keys);
    keys1, keys2 := ks1, ks2;
    TablesRefsIn(heap, ms1, ks1, byNumber, ks2);
    var refs1 := seq(|ks1|, k requires 0 <= k < |ks1| => ms1[ks1[k]]);
    var refs2 := seq(|ks2|, k requires 0 <= k < |ks2| => byNumber[ks2[k]]);
    assert refs1 == ValuesIn(ms1, ks1) && refs2 == ValuesIn(byNumber, ks2);
    var n, stopped := RenumberMs1(heap.peaks, refs1, filter, canceled);
    if stopped {
      return EmptyScanList, keys1, keys2;
    }
    var scans;
    scans, stopped := CollectScans(heap.scans, refs2, n.list, canceled);
    if stopped {
      return EmptyScanList, keys1, keys2;
    }
    out := ScanList(scans, n.peaks);
  }
}
