/**
 * addAllScansLCMSMS(parser, parentScanNum, subScanMap) and processSubScan:
 * the requested scan with its whole peak list, then each sub-scan the map
 * lists for it, recursively, every sub-scan hung under the scan whose list
 * names it. An empty map falls back to the sequential reader.
 */
module LcMsMsSubScans {
  import opened Wrappers
  import opened Spectra
  import opened Records
  import opened PeakLists
  import opened Ingestion
  import opened Assembly
  import opened ScanSource
  import opened LcMsMsSequential

  /** The scan store, the scan map by sub-scan number, and the ms1 table. */
  datatype MapState = MapState(heap: Heap, byNumber: map<int, ScanRef>, ms1: map<real, PeakRef>)

  ghost predicate MapShape(st: MapState)
  {
    HeapOk(st.heap) && TablesOk(st.heap, st.ms1, st.byNumber)
  }

  /**
   * How a walk over sub-scans ends: with its state, with an exception the
   * builder catches (the parser has no such scan, or the map has no list for
   * it), or deeper than `fuel` calls, which stands for the StackOverflowError
   * a cyclic map causes.
   */
  datatype Walk = Walked(st: MapState) | Thrown | Overflow

  /** The scan processSubScan makes from a header: the header's fields, the declared precursor number as parent. */
  function SubScanOfHeader(raw: RawScan): (s: Scan)
    ensures s.peaklist == [] && s.precursor.None?
  {
    ScanOfHeader(raw.header, MostAbundant(raw)).(parentScan := Some(raw.header.precursorScanNum))
  }

  /**
   * The new scan for sub-scan `scanNo`, hung under `pr` and with its peaks
   * loaded: the part of processSubScan before its recursion.
   */
  function Hung(st: MapState, pr: ScanRef, raw: RawScan): (st': MapState)
    requires MapShape(st) && pr < |st.heap.scans|
    ensures MapShape(st') && |st'.heap.scans| == |st.heap.scans| + 1 && st'.byNumber == st.byNumber
  {
    var (heap1, r) := NewScan(st.heap, SubScanOfHeader(raw));
    var (heap2, ms1') := Attach(heap1, r, pr, raw.header, st.ms1);
    AttachSpec(heap1, r, pr, raw.header, st.ms1);
    var heap3 := LoadAll(heap2, r, raw);
    assert TablesOk(heap3, ms1', st.byNumber) by {
      assert forall n :: n in st.byNumber ==> st.byNumber[n] < |st.heap.scans|;
      assert forall x :: x in st.ms1 ==> st.ms1[x] < |st.heap.peaks|;
    }
    MapState(heap3, st.byNumber, ms1')
  }

  /** processSubScan(parser, parent pr, scanNo, ...): the scan and, recursively, its listed sub-scans. */
  function SubScan(src: Source, subMap: map<int, seq<int>>, st: MapState, pr: ScanRef, scanNo: int, fuel: nat): (w: Walk)
    requires MapShape(st) && pr < |st.heap.scans|
    ensures w.Walked? ==> MapShape(w.st) && |st.heap.scans| < |w.st.heap.scans|
    decreases fuel, 0, 0
  {
    if fuel == 0 then Overflow
    else if scanNo !in src.scans then Thrown
    else
      var st1 := Hung(st, pr, src.scans[scanNo]);
      if scanNo !in subMap then Thrown
      else SubScans(src, subMap, st1, |st.heap.scans|, subMap[scanNo], fuel - 1)
  }

  /** The loop over a scan's sub-scan list: each processed, then filed under its listed number. */
  function SubScans(src: Source, subMap: map<int, seq<int>>, st: MapState, pr: ScanRef, list: seq<int>, fuel: nat): (w: Walk)
    requires MapShape(st) && pr < |st.heap.scans|
    ensures w.Walked? ==> MapShape(w.st) && |st.heap.scans| <= |w.st.heap.scans|
    decreases fuel, 1, |list|
  {
    if list == [] then Walked(st)
    else
      match SubScans(src, subMap, st, pr, list[..|list| - 1], fuel)
      case Walked(st1) => Filed(SubScan(src, subMap, st1, pr, list[|list| - 1], fuel), list[|list| - 1], |st1.heap.scans|)
      case other => other
  }

  /** A processed sub-scan put in the scan map under its listed number; a walk that did not end normally is passed on. */
  function Filed(w: Walk, num: int, ref: ScanRef): Walk
  {
    match w
    case Walked(st) => Walked(st.(byNumber := st.byNumber[num := ref]))
    case other => other
  }

  /** The recursion depth the model allows: one call per key of the map. */
  function Fuel(subMap: map<int, seq<int>>): nat
  {
    |subMap|
  }

  /**
   * The builder up to the closing phase: the requested scan filed under its
   * number with its peaks polled for cancellation, then its sub-scans.
   */
  function MapBuild(src: Source, canceled: Poll -> bool, pnum: int, subMap: map<int, seq<int>>): (r: Run<MapState>)
    ensures r.Running? ==> MapShape(r.st)
  {
    if pnum !in src.scans then Failed
    else
      var raw := src.scans[pnum];
      var (heap1, r) := NewScan(EmptyHeap, ScanOfHeader(raw.header, MostAbundant(raw)));
      match LoadPolled(heap1, r, raw, canceled, pnum)
      case None => Canceled
      case Some(heap2) =>
        if pnum !in subMap then Failed
        else
          match SubScans(src, subMap, MapState(heap2, map[raw.header.num := 0], map[]), 0, subMap[pnum], Fuel(subMap))
          case Walked(st) => Running(st)
          case _ => Failed
  }

  // ----- what a walk keeps -----

  /** A stored scan keeps the fields a later step could not change. */
  predicate Kept(s: Scan, s': Scan)
  {
    s'.scanNo == s.scanNo && s'.msLevel == s.msLevel && s'.parentScan == s.parentScan &&
    s'.precursor == s.precursor && s'.mostAbundantPeak == s.mostAbundantPeak
  }

  /**
   * The store only grows: every scan keeps its number, level, parent and
   * precursor, and a marked peak stays marked.
   */
  ghost predicate Grown(heap: Heap, heap': Heap)
  {
    |heap.scans| <= |heap'.scans| && |heap.peaks| <= |heap'.peaks| &&
    (forall q :: 0 <= q < |heap.scans| ==> Kept(heap.scans[q], heap'.scans[q])) &&
    (forall p :: 0 <= p < |heap.peaks| && heap.peaks[p].isPrecursor ==> heap'.peaks[p].isPrecursor) &&
    (forall p :: 0 <= p < |heap.peaks| && Ms1Kept(heap.peaks[p]) ==> Ms1Kept(heap'.peaks[p]))
  }

  lemma GrownTrans(a: Heap, b: Heap, c: Heap)
    requires Grown(a, b) && Grown(b, c)
    ensures Grown(a, c)
  {
    forall q | 0 <= q < |a.scans| ensures Kept(a.scans[q], c.scans[q]) {
      assert Kept(a.scans[q], b.scans[q]) && Kept(b.scans[q], c.scans[q]);
    }
  }

  /**
   * Scan q, filed under sub-scan number n, was made by processSubScan from
   * n's header: its number, its parent number the declared precursor, and a
   * marked precursor peak.
   */
  ghost predicate SubFiled(src: Source, heap: Heap, n: int, q: ScanRef)
  {
    n in src.scans && q < |heap.scans| &&
    var s, h := heap.scans[q], src.scans[n].header;
    s.scanNo == h.num && s.parentScan == Some(h.precursorScanNum) && s.precursor.Some? &&
    s.precursor.value < |heap.peaks| && heap.peaks[s.precursor.value].isPrecursor
  }

  lemma GrownSubFiled(src: Source, heap: Heap, heap': Heap, n: int, q: ScanRef)
    requires SubFiled(src, heap, n, q) && Grown(heap, heap')
    ensures SubFiled(src, heap', n, q)
  {
    assert Kept(heap.scans[q], heap'.scans[q]);
  }

  /**
   * What the walks keep: the shape; every stored peak is positive or a
   * precursor; every ms1 table peak is kept by the closing filter; every
   * map entry is the requested scan (reference 0) or a processed sub-scan.
   */
  ghost predicate MapOk(src: Source, st: MapState)
  {
    MapShape(st) && PeaksOk(st.heap.peaks) &&
    (forall x :: x in st.ms1 ==> Ms1Kept(st.heap.peaks[st.ms1[x]])) &&
    (forall n :: n in st.byNumber ==> st.byNumber[n] == 0 || SubFiled(src, st.heap, n, st.byNumber[n]))
  }

  lemma GrownMapOk(src: Source, st: MapState, heap': Heap, ms1': map<real, PeakRef>)
    requires MapOk(src, st) && Grown(st.heap, heap') && HeapOk(heap') && PeaksOk(heap'.peaks)
    requires forall x :: x in ms1' ==> ms1'[x] < |heap'.peaks| && Ms1Kept(heap'.peaks[ms1'[x]])
    ensures MapOk(src, MapState(heap', st.byNumber, ms1'))
  {
    forall n | n in st.byNumber && st.byNumber[n] != 0 ensures SubFiled(src, heap', n, st.byNumber[n]) {
      GrownSubFiled(src, st.heap, heap', n, st.byNumber[n]);
    }
  }

  /**
   * Making and hanging a sub-scan: the store only grows; the new scan is
   * processSubScan's scan for that header, one level below its parent; the
   * parent gains the header's number as a sub-scan.
   */
  lemma HungGrown(st: MapState, pr: ScanRef, raw: RawScan)
    requires MapShape(st) && pr < |st.heap.scans|
    ensures var st1, r, h := Hung(st, pr, raw), |st.heap.scans|, raw.header;
      var s := st1.heap.scans[r];
      Grown(st.heap, st1.heap) &&
      s.scanNo == h.num && s.parentScan == Some(h.precursorScanNum) &&
      s.msLevel == st.heap.scans[pr].msLevel + 1 &&
      s.precursor.Some? && s.precursor.value < |st1.heap.peaks| &&
      st1.heap.peaks[s.precursor.value].isPrecursor &&
      st1.heap.peaks[s.precursor.value].precursorMz == Some(h.precursorMz) &&
      st1.heap.scans[pr].subScans == st.heap.scans[pr].subScans + [h.num]
  {
    var h := raw.header;
    var (heap1, r) := NewScan(st.heap, SubScanOfHeader(raw));
    AttachSpec(heap1, r, pr, h, st.ms1);
    var (heap2, ms1') := Attach(heap1, r, pr, h, st.ms1);
    var heap3 := LoadAll(heap2, r, raw);
    var ref := heap2.scans[r].precursor.value;
    assert heap1.scans[r] == SubScanOfHeader(raw);
    assert Grown(st.heap, heap2) by {
      forall q | 0 <= q < |st.heap.scans| ensures Kept(st.heap.scans[q], heap2.scans[q]) {
        assert heap1.scans[q] == st.heap.scans[q];
      }
      forall p | 0 <= p < |st.heap.peaks| && st.heap.peaks[p].isPrecursor ensures heap2.peaks[p].isPrecursor {
        if p != ref { assert heap2.peaks[p] == heap1.peaks[p]; }
      }
      forall p | 0 <= p < |st.heap.peaks| && Ms1Kept(st.heap.peaks[p]) ensures Ms1Kept(heap2.peaks[p]) {
        if p != ref { assert heap2.peaks[p] == heap1.peaks[p]; }
      }
    }
    assert Grown(heap2, heap3) by {
      forall q | 0 <= q < |heap2.scans| ensures Kept(heap2.scans[q], heap3.scans[q]) {
        if q != r { assert heap3.scans[q] == heap2.scans[q]; }
      }
      forall p | 0 <= p < |heap2.peaks| ensures heap3.peaks[p] == heap2.peaks[p] {
        assert heap2.peaks <= heap3.peaks;
      }
    }
    GrownTrans(st.heap, heap2, heap3);
    assert heap3.peaks[ref] == heap2.peaks[ref];
    assert heap3.scans[pr] == heap2.scans[pr];
  }

  /** Making and hanging a sub-scan keeps the invariant. */
  lemma HungOk(src: Source, st: MapState, pr: ScanRef, raw: RawScan)
    requires MapOk(src, st) && pr < |st.heap.scans|
    ensures MapOk(src, Hung(st, pr, raw))
  {
    var h := raw.header;
    var (heap1, r) := NewScan(st.heap, SubScanOfHeader(raw));
    assert forall x :: x in st.ms1 ==> st.ms1[x] < |st.heap.peaks| && Ms1Kept(st.heap.peaks[st.ms1[x]]);
    AttachPeaksOk(heap1, r, pr, h, st.ms1);
    AttachKeepsTable(heap1, r, pr, h, st.ms1);
    AttachSpec(heap1, r, pr, h, st.ms1);
    var (heap2, ms1') := Attach(heap1, r, pr, h, st.ms1);
    LoadAllPeaksOk(heap2, r, raw);
    LoadAllKeepsTable(heap2, r, raw, ms1');
    HungGrown(st, pr, raw);
    var st1 := Hung(st, pr, raw);
    GrownMapOk(src, st, st1.heap, st1.ms1);
  }

  /** Filing a processed sub-scan under its listed number keeps the invariant. */
  lemma FileOk(src: Source, st: MapState, x: int, r: ScanRef)
    requires MapOk(src, st) && SubFiled(src, st.heap, x, r)
    ensures MapOk(src, st.(byNumber := st.byNumber[x := r]))
  {
    assert forall n :: n in st.byNumber ==> st.byNumber[n] < |st.heap.scans|;
    assert forall n :: n in st.byNumber ==> st.byNumber[n] == 0 || SubFiled(src, st.heap, n, st.byNumber[n]);
  }

  /**
   * A completed processSubScan keeps the invariant, only grows the store and
   * the map's keys, and leaves its own scan as made from its header, one
   * level below the parent.
   */
  lemma {:induction false} SubScanOk(src: Source, subMap: map<int, seq<int>>, st: MapState, pr: ScanRef, scanNo: int, fuel: nat)
    requires MapOk(src, st) && pr < |st.heap.scans|
    ensures var w, r := SubScan(src, subMap, st, pr, scanNo, fuel), |st.heap.scans|;
      w.Walked? ==>
        MapOk(src, w.st) && Grown(st.heap, w.st.heap) && st.byNumber.Keys <= w.st.byNumber.Keys &&
        SubFiled(src, w.st.heap, scanNo, r) && w.st.heap.scans[r].msLevel == st.heap.scans[pr].msLevel + 1
    decreases fuel, 0, 1
  {
    if fuel > 0 && scanNo in src.scans && scanNo in subMap {
      var raw := src.scans[scanNo];
      var st1 := Hung(st, pr, raw);
      HungGrown(st, pr, raw);
      HungOk(src, st, pr, raw);
      SubScanOkFrom(src, subMap, st, st1, pr, scanNo, fuel);
      assert SubScan(src, subMap, st, pr, scanNo, fuel) == SubScans(src, subMap, st1, |st.heap.scans|, subMap[scanNo], fuel - 1);
    }
  }

  /** The recursive half of SubScanOk: the sub-scan loop run on the hung scan's state `st1`. */
  lemma {:induction false} SubScanOkFrom(src: Source, subMap: map<int, seq<int>>, st: MapState, st1: MapState, pr: ScanRef, scanNo: int, fuel: nat)
    requires fuel > 0 && scanNo in subMap && pr < |st.heap.scans| < |st1.heap.scans|
    requires MapOk(src, st1) && Grown(st.heap, st1.heap) && st1.byNumber == st.byNumber
    requires SubFiled(src, st1.heap, scanNo, |st.heap.scans|)
    requires st1.heap.scans[|st.heap.scans|].msLevel == st.heap.scans[pr].msLevel + 1
    ensures var w, r := SubScans(src, subMap, st1, |st.heap.scans|, subMap[scanNo], fuel - 1), |st.heap.scans|;
      w.Walked? ==>
        MapOk(src, w.st) && Grown(st.heap, w.st.heap) && st.byNumber.Keys <= w.st.byNumber.Keys &&
        SubFiled(src, w.st.heap, scanNo, r) && w.st.heap.scans[r].msLevel == st.heap.scans[pr].msLevel + 1
    decreases fuel, 0, 0
  {
    SubScansOk(src, subMap, st1, |st.heap.scans|, subMap[scanNo], fuel - 1);
    var w := SubScans(src, subMap, st1, |st.heap.scans|, subMap[scanNo], fuel - 1);
    if w.Walked? {
      GrownUnder(src, st.heap, st1.heap, w.st.heap, scanNo, pr);
    }
  }

  /** A scan filed one level below `pr` stays so while the store grows. */
  lemma GrownUnder(src: Source, heap: Heap, heap1: Heap, heap2: Heap, scanNo: int, pr: ScanRef)
    requires pr < |heap.scans| < |heap1.scans|
    requires Grown(heap, heap1) && Grown(heap1, heap2)
    requires SubFiled(src, heap1, scanNo, |heap.scans|)
    requires heap1.scans[|heap.scans|].msLevel == heap.scans[pr].msLevel + 1
    ensures Grown(heap, heap2) && SubFiled(src, heap2, scanNo, |heap.scans|)
    ensures heap2.scans[|heap.scans|].msLevel == heap.scans[pr].msLevel + 1
  {
    GrownTrans(heap, heap1, heap2);
    GrownSubFiled(src, heap1, heap2, scanNo, |heap.scans|);
    assert Kept(heap1.scans[|heap.scans|], heap2.scans[|heap.scans|]);
  }

  /** A completed sub-scan loop keeps the invariant and only grows the store and the map's keys. */
  lemma {:induction false} SubScansOk(src: Source, subMap: map<int, seq<int>>, st: MapState, pr: ScanRef, list: seq<int>, fuel: nat)
    requires MapOk(src, st) && pr < |st.heap.scans|
    ensures var w := SubScans(src, subMap, st, pr, list, fuel);
      w.Walked? ==> MapOk(src, w.st) && Grown(st.heap, w.st.heap) && st.byNumber.Keys <= w.st.byNumber.Keys
    decreases fuel, 1, |list|
  {
    if list != [] {
      var init, x := list[..|list| - 1], list[|list| - 1];
      SubScansOk(src, subMap, st, pr, init, fuel);
      var w1 := SubScans(src, subMap, st, pr, init, fuel);
      if w1.Walked? {
        var st1 := w1.st;
        SubScanOk(src, subMap, st1, pr, x, fuel);
        var w2 := SubScan(src, subMap, st1, pr, x, fuel);
        if w2.Walked? {
          var st2 := w2.st;
          var r := |st1.heap.scans|;
          assert SubScans(src, subMap, st, pr, list, fuel) == Walked(st2.(byNumber := st2.byNumber[x := r]));
          GrownTrans(st.heap, st1.heap, st2.heap);
          FileOk(src, st2, x, r);
        }
      }
    }
  }

  /** ... and files every number of its list. */
  lemma {:induction false} SubScansFiles(src: Source, subMap: map<int, seq<int>>, st: MapState, pr: ScanRef, list: seq<int>, fuel: nat)
    requires MapOk(src, st) && pr < |st.heap.scans|
    ensures var w := SubScans(src, subMap, st, pr, list, fuel);
      w.Walked? ==> forall k :: 0 <= k < |list| ==> list[k] in w.st.byNumber
    decreases |list|
  {
    if list != [] {
      var init, x := list[..|list| - 1], list[|list| - 1];
      SubScansFiles(src, subMap, st, pr, init, fuel);
      SubScansOk(src, subMap, st, pr, init, fuel);
      var w1 := SubScans(src, subMap, st, pr, init, fuel);
      if w1.Walked? {
        SubScanOk(src, subMap, w1.st, pr, x, fuel);
        var w := SubScans(src, subMap, st, pr, list, fuel);
        if w.Walked? {
          forall k | 0 <= k < |list| ensures list[k] in w.st.byNumber {
            if k < |list| - 1 {
              assert list[k] == init[k];
            }
          }
        }
      }
    }
  }

  /**
   * The bound on the recursion matters only by cutting it: a walk that does
   * not run out of fuel gives the same result with any larger bound.
   */
  lemma {:induction false} SubScanFuel(src: Source, subMap: map<int, seq<int>>, st: MapState, pr: ScanRef, scanNo: int, fuel: nat, fuel': nat)
    requires MapShape(st) && pr < |st.heap.scans| && fuel <= fuel'
    requires !SubScan(src, subMap, st, pr, scanNo, fuel).Overflow?
    ensures SubScan(src, subMap, st, pr, scanNo, fuel') == SubScan(src, subMap, st, pr, scanNo, fuel)
    decreases fuel, 0, 0
  {
    if scanNo in src.scans && scanNo in subMap {
      assert fuel > 0;
      var f, f' := fuel - 1, fuel' - 1;
      var st1 := Hung(st, pr, src.scans[scanNo]);
      SubScanUnfold(src, subMap, st, pr, scanNo, f);
      SubScanUnfold(src, subMap, st, pr, scanNo, f');
      SubScansFuel(src, subMap, st1, |st.heap.scans|, subMap[scanNo], f, f');
    } else {
      assert fuel > 0;
      SubScanThrown(src, subMap, st, pr, scanNo, fuel);
      SubScanThrown(src, subMap, st, pr, scanNo, fuel');
      assert SubScan(src, subMap, st, pr, scanNo, fuel') == SubScan(src, subMap, st, pr, scanNo, fuel);
    }
  }

  /** A listed scan the file or the map lacks ends the walk with an exception, whatever the fuel left. */
  lemma SubScanThrown(src: Source, subMap: map<int, seq<int>>, st: MapState, pr: ScanRef, scanNo: int, fuel: nat)
    requires MapShape(st) && pr < |st.heap.scans| && fuel > 0 && !(scanNo in src.scans && scanNo in subMap)
    ensures SubScan(src, subMap, st, pr, scanNo, fuel) == Thrown
  {
  }

  /** A listed scan the file holds is hung, then its own list is walked with one less fuel. */
  lemma SubScanUnfold(src: Source, subMap: map<int, seq<int>>, st: MapState, pr: ScanRef, scanNo: int, fuel: nat)
    requires MapShape(st) && pr < |st.heap.scans| && scanNo in src.scans && scanNo in subMap
    ensures SubScan(src, subMap, st, pr, scanNo, fuel + 1) ==
      SubScans(src, subMap, Hung(st, pr, src.scans[scanNo]), |st.heap.scans|, subMap[scanNo], fuel)
  {
  }

  lemma {:induction false} SubScansFuel(src: Source, subMap: map<int, seq<int>>, st: MapState, pr: ScanRef, list: seq<int>, fuel: nat, fuel': nat)
    requires MapShape(st) && pr < |st.heap.scans| && fuel <= fuel'
    requires !SubScans(src, subMap, st, pr, list, fuel).Overflow?
    ensures SubScans(src, subMap, st, pr, list, fuel') == SubScans(src, subMap, st, pr, list, fuel)
    decreases fuel, 1, |list|
  {
    if list != [] {
      var init, x := list[..|list| - 1], list[|list| - 1];
      SubScansFuel(src, subMap, st, pr, init, fuel, fuel');
      var w1 := SubScans(src, subMap, st, pr, init, fuel);
      if w1.Walked? {
        SubScanFuel(src, subMap, w1.st, pr, x, fuel, fuel');
      }
    }
  }

  // ----- the builder -----

  /** The requested scan with its peaks loaded, filed under its header's number, before any sub-scan. */
  lemma TopOk(src: Source, canceled: Poll -> bool, pnum: int)
    requires pnum in src.scans
    ensures var raw := src.scans[pnum];
      var (heap1, r) := NewScan(EmptyHeap, ScanOfHeader(raw.header, MostAbundant(raw)));
      var loaded := LoadPolled(heap1, r, raw, canceled, pnum);
      loaded.Some? ==>
        var st0 := MapState(loaded.value, map[raw.header.num := 0], map[]);
        MapOk(src, st0) && r == 0 && |loaded.value.scans| == 1 && loaded.value.scans[0].scanNo == raw.header.num &&
        loaded.value.scans[0].msLevel == raw.header.msLevel && loaded.value.scans[0].parentScan.None? &&
        loaded.value.scans[0].precursor.None?
  {
    var raw := src.scans[pnum];
    var (heap1, r) := NewScan(EmptyHeap, ScanOfHeader(raw.header, MostAbundant(raw)));
    assert heap1.scans == [ScanOfHeader(raw.header, MostAbundant(raw))];
    LoadAllPeaksOk(heap1, r, raw);
  }

  /**
   * The builder is canceled exactly when a poll in the requested scan's peak
   * loop says so; it fails when the parser has no requested scan, or the map
   * no list for it.
   */
  lemma MapBuildEnds(src: Source, canceled: Poll -> bool, pnum: int, subMap: map<int, seq<int>>)
    ensures var run := MapBuild(src, canceled, pnum, subMap);
      (run.Canceled? <==>
        pnum in src.scans && src.scans[pnum].massIntensity.Some? &&
        exists j :: 0 <= j < |src.scans[pnum].massIntensity.value.mz| && canceled(AtPeak(pnum, j))) &&
      (pnum !in src.scans ==> run.Failed?) &&
      (pnum !in subMap && !run.Canceled? ==> run.Failed?)
  {
    if pnum in src.scans && src.scans[pnum].massIntensity.Some? {
      var a := src.scans[pnum].massIntensity.value;
      if exists j :: 0 <= j < |a.mz| && canceled(AtPeak(pnum, j)) {
        var j :| 0 <= j < |a.mz| && canceled(AtPeak(pnum, j));
        assert StopFrom(canceled, pnum, 0, |a.mz|).Some?;
      }
    }
  }

  /**
   * A completed build keeps the invariant; scan 0 is the requested scan,
   * with no parent and no precursor; its header's number and every number
   * of its sub-scan list are filed.
   */
  lemma MapBuildRunning(src: Source, canceled: Poll -> bool, pnum: int, subMap: map<int, seq<int>>)
    requires MapBuild(src, canceled, pnum, subMap).Running?
    ensures pnum in src.scans && pnum in subMap
    ensures var st, h := MapBuild(src, canceled, pnum, subMap).st, src.scans[pnum].header;
      MapOk(src, st) && 0 < |st.heap.scans| &&
      st.heap.scans[0].scanNo == h.num && st.heap.scans[0].msLevel == h.msLevel &&
      st.heap.scans[0].parentScan.None? && st.heap.scans[0].precursor.None? &&
      h.num in st.byNumber &&
      forall k :: 0 <= k < |subMap[pnum]| ==> subMap[pnum][k] in st.byNumber
  {
    var raw := src.scans[pnum];
    TopOk(src, canceled, pnum);
    var (heap1, r) := NewScan(EmptyHeap, ScanOfHeader(raw.header, MostAbundant(raw)));
    var heap2 := LoadPolled(heap1, r, raw, canceled, pnum).value;
    var st0 := MapState(heap2, map[raw.header.num := 0], map[]);
    SubScansOk(src, subMap, st0, 0, subMap[pnum], Fuel(subMap));
    SubScansFiles(src, subMap, st0, 0, subMap[pnum], Fuel(subMap));
    var st := SubScans(src, subMap, st0, 0, subMap[pnum], Fuel(subMap)).st;
    assert Kept(heap2.scans[0], st.heap.scans[0]);
  }

  /**
   * With every table peak kept, the MS1 list is the table's peaks in
   * iteration order, each peak's id one past its last position in the list.
   */
  lemma MapMs1List(src: Source, st: MapState, keys1: seq<real>)
    requires MapOk(src, st) && IsOrderOf(keys1, st.ms1.Keys) && RefsIn(ValuesIn(st.ms1, keys1), |st.heap.peaks|)
    ensures var refs1 := ValuesIn(st.ms1, keys1);
      var n := Renumber(st.heap.peaks, refs1, true);
      n.list == refs1 &&
      forall k :: 0 <= k < |refs1| && refs1[k] !in refs1[k + 1..] ==> n.peaks[refs1[k]].id == k + 1
  {
    var refs1 := ValuesIn(st.ms1, keys1);
    assert forall x :: x in st.ms1 ==> Ms1Kept(st.heap.peaks[st.ms1[x]]);
    assert forall k :: 0 <= k < |refs1| ==> keys1[k] in st.ms1 && refs1[k] == st.ms1[keys1[k]];
    RenumberAllKept(st.heap.peaks, refs1);
    RenumberListComplete(st.heap.peaks, refs1, false);
    RenumberIds(st.heap.peaks, refs1, false);
  }

  /**
   * What the builder returns when the closing loops are not canceled: one
   * scan per map entry; every entry but the requested scan's is a scan made
   * from the listed number's header; MS1 scans carry the ms1 table's peaks,
   * each listed peak's id one past its last position in the list (1 .. n
   * when no peak repeats); other scans are the stored ones.
   */
  lemma MapResultSpec(src: Source, st: MapState, keys1: seq<real>, keys2: seq<int>, canceled: Poll -> bool)
    requires MapOk(src, st) && IsOrderOf(keys1, st.ms1.Keys) && IsOrderOf(keys2, st.byNumber.Keys)
    requires RefsIn(ValuesIn(st.ms1, keys1), |st.heap.peaks|) && RefsIn(ValuesIn(st.byNumber, keys2), |st.heap.scans|)
    requires !CanceledInMs1(canceled, |keys1|) && !CanceledInCollect(canceled, |keys2|)
    ensures var refs1, refs2 := ValuesIn(st.ms1, keys1), ValuesIn(st.byNumber, keys2);
      var out := Closing(st.heap, refs1, refs2, true, canceled);
      ScanListOk(out) && |out.scans| == |st.byNumber| && |refs2| == |keys2| &&
      (forall k :: 0 <= k < |out.scans| && refs2[k] != 0 ==>
        keys2[k] in src.scans &&
        out.scans[k].scanNo == src.scans[keys2[k]].header.num &&
        out.scans[k].parentScan == Some(src.scans[keys2[k]].header.precursorScanNum) &&
        out.scans[k].precursor.Some?) &&
      (forall k :: 0 <= k < |out.scans| && out.scans[k].msLevel == 1 ==> out.scans[k].peaklist == refs1) &&
      (forall k :: 0 <= k < |out.scans| && out.scans[k].msLevel != 1 ==> out.scans[k] == st.heap.scans[refs2[k]]) &&
      (forall k :: 0 <= k < |refs1| && refs1[k] !in refs1[k + 1..] ==> out.peaks[refs1[k]].id == k + 1)
  {
    var refs1, refs2 := ValuesIn(st.ms1, keys1), ValuesIn(st.byNumber, keys2);
    MapMs1List(src, st, keys1);
    ClosingSpec(st.heap, refs1, refs2, true, canceled);
    KeysCount(keys2, st.byNumber.Keys);
    var out := Closing(st.heap, refs1, refs2, true, canceled);
    forall k | 0 <= k < |out.scans| && refs2[k] != 0
      ensures keys2[k] in src.scans && out.scans[k].scanNo == src.scans[keys2[k]].header.num &&
              out.scans[k].parentScan == Some(src.scans[keys2[k]].header.precursorScanNum) && out.scans[k].precursor.Some?
    {
      assert out.scans[k] == Ms1View(st.heap.scans[refs2[k]], Renumber(st.heap.peaks, refs1, true).list);
      assert keys2[k] in st.byNumber && refs2[k] == st.byNumber[keys2[k]];
      assert SubFiled(src, st.heap, keys2[k], refs2[k]);
    }
  }

  /**
   * addAllScansLCMSMS(parser, parentScanNum, subScanMap)'s result (`None`
   * is a null map): the sequential reader's for a null or empty map; null
   * when the build fails; the empty list when canceled; otherwise the
   * closing phase, with the filter, over the tables' orders.
   */
  ghost predicate MapOutcome(src: Source, canceled: Poll -> bool, pnum: int, subMap: Option<map<int, seq<int>>>,
                             out: Option<ScanList>, keys1: seq<real>, keys2: seq<int>)
  {
    if subMap.None? || |subMap.value| == 0 then LsOutcome(src, canceled, pnum, out, keys1, keys2)
    else
      match MapBuild(src, canceled, pnum, subMap.value)
      case Failed => out.None?
      case Canceled => out == Some(EmptyScanList)
      case Running(st) =>
        IsOrderOf(keys1, st.ms1.Keys) && IsOrderOf(keys2, st.byNumber.Keys) &&
        RefsIn(ValuesIn(st.ms1, keys1), |st.heap.peaks|) && RefsIn(ValuesIn(st.byNumber, keys2), |st.heap.scans|) &&
        out == Some(Closing(st.heap, ValuesIn(st.ms1, keys1), ValuesIn(st.byNumber, keys2), true, canceled))
  }

  // ----- the source's methods -----

  /** A sub-scan loop that stopped stays stopped over the rest of the list. */
  lemma {:induction false} SubScansStays(src: Source, subMap: map<int, seq<int>>, st: MapState, pr: ScanRef, list: seq<int>, k: nat, fuel: nat)
    requires MapShape(st) && pr < |st.heap.scans| && k <= |list|
    requires !SubScans(src, subMap, st, pr, list[..k], fuel).Walked?
    ensures SubScans(src, subMap, st, pr, list, fuel) == SubScans(src, subMap, st, pr, list[..k], fuel)
    decreases |list| - k
  {
    if k < |list| {
      var l' := list[..|list| - 1];
      assert l'[..k] == list[..k];
      SubScansStays(src, subMap, st, pr, l', k, fuel);
    } else {
      assert list[..k] == list;
    }
  }

  /** One more element of the list: the step SubScans takes after a prefix that walked. */
  lemma SubScansNext(src: Source, subMap: map<int, seq<int>>, st: MapState, pr: ScanRef, list: seq<int>, k: nat, fuel: nat)
    requires MapShape(st) && pr < |st.heap.scans| && k < |list|
    requires SubScans(src, subMap, st, pr, list[..k], fuel).Walked?
    ensures var st1 := SubScans(src, subMap, st, pr, list[..k], fuel).st;
      MapShape(st1) && pr < |st1.heap.scans| &&
      SubScans(src, subMap, st, pr, list[..k + 1], fuel) ==
        Filed(SubScan(src, subMap, st1, pr, list[k], fuel), list[k], |st1.heap.scans|)
  {
    assert list[..k + 1][..k] == list[..k];
  }

  /** The first part of processSubScan: the scan from the header, hung under the parent, with its peaks loaded. */
  method HangSubScan(st: MapState, pr: ScanRef, raw: RawScan) returns (st1: MapState)
    requires MapShape(st) && pr < |st.heap.scans|
    ensures st1 == Hung(st, pr, raw)
  {
    var h := raw.header;
    var maxIntensity := GetMostAbundantPeak(raw);
    var s := ScanOfHeader(h, maxIntensity).(parentScan := Some(h.precursorScanNum));
    var created := NewScan(st.heap, s);
    var heap, ref := created.0, created.1;
    AttachSpec(heap, ref, pr, h, st.ms1);
    var attached := Attach(heap, ref, pr, h, st.ms1);
    heap := LoadPeaks(attached.0, ref, raw);
    st1 := MapState(heap, st.byNumber, attached.1);
  }

  /** processSubScan, as the source writes it. */
  method ProcessSubScan(src: Source, subMap: map<int, seq<int>>, st: MapState, pr: ScanRef, scanNo: int, fuel: nat)
      returns (w: Walk)
    requires MapShape(st) && pr < |st.heap.scans|
    ensures w == SubScan(src, subMap, st, pr, scanNo, fuel)
    decreases fuel, 0
  {
    if fuel == 0 {
      return Overflow;
    }
    var jrap := Rap(src, scanNo);
    if jrap.None? {
      return Thrown;
    }
    var cur := HangSubScan(st, pr, jrap.value);
    if scanNo !in subMap {
      return Thrown;
    }
    w := SubScanLoop(src, subMap, cur, |st.heap.scans|, subMap[scanNo], fuel - 1);
  }

  /** The for-each loop over a sub-scan list: each processed, then put in the scan map under its listed number. */
  method SubScanLoop(src: Source, subMap: map<int, seq<int>>, st: MapState, pr: ScanRef, list: seq<int>, fuel: nat)
      returns (w: Walk)
    requires MapShape(st) && pr < |st.heap.scans|
    ensures w == SubScans(src, subMap, st, pr, list, fuel)
    decreases fuel, 2
  {
    w := Walked(st);
    var k := 0;
    while k < |list| && w.Walked?
      invariant 0 <= k <= |list|
      invariant w == SubScans(src, subMap, st, pr, list[..k], fuel)
      decreases |list| - k
    {
      w := SubScanFiled(src, subMap, st, pr, list, k, fuel, w);
      k := k + 1;
    }
    if w.Walked? {
      assert list[..k] == list;
    } else {
      SubScansStays(src, subMap, st, pr, list, k, fuel);
    }
  }

  /** One pass of that loop: the next listed sub-scan processed and filed. */
  method SubScanFiled(src: Source, subMap: map<int, seq<int>>, st: MapState, pr: ScanRef, list: seq<int>, k: nat, fuel: nat, w: Walk)
      returns (w': Walk)
    requires MapShape(st) && pr < |st.heap.scans| && k < |list|
    requires w == SubScans(src, subMap, st, pr, list[..k], fuel) && w.Walked?
    ensures w' == SubScans(src, subMap, st, pr, list[..k + 1], fuel)
    decreases fuel, 1
  {
    SubScansNext(src, subMap, st, pr, list, k, fuel);
    var ref := |w.st.heap.scans|;
    var sub := ProcessSubScan(src, subMap, w.st, pr, list[k], fuel);
    w' := Filed(sub, list[k], ref);
  }

  method AddAllScansLcMsMsMap(src: Source, canceled: Poll -> bool, pnum: int, subMap: Option<map<int, seq<int>>>)
      returns (out: Option<ScanList>, ghost keys1: seq<real>, ghost keys2: seq<int>)
    ensures MapOutcome(src, canceled, pnum, subMap, out, keys1, keys2)
  {
    if subMap.None? || |subMap.value| == 0 {
      out, keys1, keys2 := AddAllScansLcMsMs(src, canceled, pnum);
      return;
    }
    var subScanMap := subMap.value;
    keys1, keys2 := [], [];
    var jrap := Rap(src, pnum);
    if jrap.None? {
      return None, keys1, keys2;
    }
    var raw := jrap.value;
    var maxIntensity := GetMostAbundantPeak(raw);
    var created := NewScan(EmptyHeap, ScanOfHeader(raw.header, maxIntensity));
    var heap, ref := created.0, created.1;
    var byNumber := map[raw.header.num := ref];
    var loaded := LoadPeaksPolled(heap, ref, raw, canceled, pnum);
    if loaded.None? {
      return Some(EmptyScanList), keys1, keys2;
    }
    if pnum !in subScanMap {
      return None, keys1, keys2;
    }
    var walk := SubScanLoop(src, subScanMap, MapState(loaded.value, byNumber, map[]), ref, subScanMap[pnum], Fuel(subScanMap));
    if !walk.Walked? {
      return None, keys1, keys2;
    }
    var list;
    list, keys1, keys2 := Finalize(walk.st.heap, walk.st.ms1, walk.st.byNumber, true, canceled);
    out := Some(list);
  }
}
