/**
 * getScanViewData and readMSFileForView: the viewer's walk over the file.
 * It is getScanData without peaks and without the scan-number skip: every
 * scan the parent window lets through becomes a ScanView, hung under the
 * view its precursor number names (appended to that view's own sub-scan
 * list), and the selected views make the result, which readMSFileForView
 * sorts by compareTo.
 *
 * The loop is modelled on values: the views live in a store indexed by
 * creation order (`ViewRef`), a view's sub-scans are store indices, and the
 * objects are created from the store once the loop is done (`Materialize`),
 * with the same sharing: a sub-scan entry is the very object listed in the
 * result.
 */
module ViewData {
  import opened Wrappers
  import opened Numeric
  import opened Spectra
  import opened ScanSource
  import opened Sorting
  import opened ScanViews
  import opened ScanData

  type ViewRef = nat

  /** A view as a value: its scalars and its sub-scans as store indices. */
  datatype View = View(
    scanNo: int,
    retentionTime: Option<real>,
    parentScan: Option<int>,
    msLevel: int,
    preCursorIntensity: Option<real>,
    preCursorMz: Option<real>,
    subs: seq<ViewRef>)

  /** The made-up MS1 view of a file that starts above MS1: number 0, level 1, retention time 0. */
  const RootView := View(0, Some(0.0), None, 1, None, None, [])

  /** getScanView: null for a null scan; else the header's fields, parent the declared precursor or else `lastPrecursor`. */
  function ViewOf(raw: Option<RawScan>, lastPrecursor: int): (v: Option<View>)
    ensures v.None? <==> raw.None?
    ensures v.Some? ==> v.value.subs == [] && v.value.parentScan.Some?
  {
    if raw.None? then None
    else
      var h := raw.value.header;
      Some(View(h.num, h.retentionTime,
                Some(if h.precursorScanNum != -1 then h.precursorScanNum else lastPrecursor),
                h.msLevel, Some(h.precursorIntensity), Some(h.precursorMz), []))
  }

  /** Every sub-scan entry names a stored view. */
  ghost predicate SubsIn(views: seq<View>)
  {
    forall p, j :: 0 <= p < |views| && 0 <= j < |views[p].subs| ==> views[p].subs[j] < |views|
  }

  /**
   * The loop state: the view store, the result list, the last loop number
   * per level, the view map by number, iLastPossiblePrecursorMSLevel,
   * iMinMSLevel, the parent variable, and whether the made-up view exists
   * (it is then view 0).
   */
  datatype VsState = VsState(
    views: seq<View>,
    result: seq<ViewRef>,
    lastOfLevel: map<int, int>,
    byNumber: map<int, ViewRef>,
    lastPossible: int,
    minLevel: int,
    parent: Option<ViewRef>,
    root: bool)

  ghost predicate VsShape(st: VsState)
  {
    SubsIn(st.views) &&
    (forall n :: n in st.byNumber ==> st.byNumber[n] < |st.views|) &&
    (forall k :: 0 <= k < |st.result| ==> st.result[k] < |st.views|) &&
    (st.parent.Some? ==> st.parent.value < |st.views|) &&
    (st.root ==> |st.views| > 0)
  }

  /** Before the first pass, given the level of the first scan. */
  function VsInit(level: int): VsState
  {
    if level > 1 then VsState([RootView], [0], map[1 := 0], map[0 := 0], 1, level, None, true)
    else VsState([], [], map[], map[], level, level, None, false)
  }

  /** The numbers the loop reads: all, or the parent and the 1000 numbers after it. */
  predicate ViewWindow(sel: Selection, i: int)
  {
    !(sel.parentScanNum != -1 && (i < sel.parentScanNum || i > sel.parentScanNum + 1000))
  }

  /**
   * Whether pass i adds its view: the selectors of getScanData, except that
   * with a scan number given only that scan and the scans whose parent is
   * that scan are added.
   */
  predicate ViewAdded(sel: Selection, i: int, pre: int, cur: int)
  {
    Selected(sel, i, pre, cur) && !(sel.scanNum != -1 && i != sel.scanNum && sel.scanNum != pre)
  }

  /**
   * Looking up parent number `pre`: -1 keeps the parent variable; a filed
   * number gives its view; a number the file holds gives a new view (filed
   * under its own number). None: the file lacks it, and the pass ends with
   * the parent variable cleared.
   */
  function VsResolve(st: VsState, src: Source, pre: int): (r: Option<VsState>)
    requires VsShape(st)
    ensures r.Some? ==> VsShape(r.value) && r.value.result == st.result && r.value.root == st.root
    ensures r.Some? ==> st.views <= r.value.views && |r.value.views| <= |st.views| + 1
  {
    if pre == -1 then Some(st)
    else if pre in st.byNumber then Some(st.(parent := Some(st.byNumber[pre])))
    else if pre in src.scans then
      var fetched := ViewOf(Some(src.scans[pre]), -1).value;
      var views := st.views + [fetched];
      assert SubsIn(views) by {
        forall p, j | 0 <= p < |views| && 0 <= j < |views[p].subs| ensures views[p].subs[j] < |views| {
          if p < |st.views| {
            assert views[p] == st.views[p];
          }
        }
      }
      Some(st.(views := views, parent := Some(|st.views|), byNumber := st.byNumber[fetched.scanNo := |st.views|]))
    else None
  }

  /** The view store with view r appended to the sub-scans of view p. */
  function AddSub(views: seq<View>, p: ViewRef, r: ViewRef): (views': seq<View>)
    requires SubsIn(views) && p < |views| && r < |views|
    ensures SubsIn(views') && |views'| == |views|
    ensures views' == views[p := views[p].(subs := views[p].subs + [r])]
  {
    var views' := views[p := views[p].(subs := views[p].subs + [r])];
    assert SubsIn(views') by {
      forall q, j | 0 <= q < |views'| && 0 <= j < |views'[q].subs| ensures views'[q].subs[j] < |views'| {
        if q != p || j < |views[p].subs| {
          assert views'[q].subs[j] == views[q].subs[j];
        }
      }
    }
    views'
  }

  /**
   * The rest of a pass once the parent is resolved: view v is stored and
   * filed, appended to the parent's sub-scans when above the
   * possible-precursor level, and added to the result when selected.
   */
  function VsPlace(st: VsState, sel: Selection, i: int, cur: int, v: View, pre: int): (st': VsState)
    requires VsShape(st) && v.subs == []
    ensures VsShape(st') && |st'.views| == |st.views| + 1 && st'.root == st.root
  {
    var r := |st.views|;
    var views := st.views + [v];
    assert SubsIn(views) by {
      forall p, j | 0 <= p < |views| && 0 <= j < |views[p].subs| ensures views[p].subs[j] < |views| {
        if p < r {
          assert views[p] == st.views[p];
        }
      }
    }
    var views' := if cur > st.lastPossible && st.parent.Some? then AddSub(views, st.parent.value, r) else views;
    st.(views := views', lastOfLevel := st.lastOfLevel[cur := i], byNumber := st.byNumber[v.scanNo := r],
        result := if ViewAdded(sel, i, pre, cur) then st.result + [r] else st.result,
        minLevel := if cur < st.minLevel then cur else st.minLevel)
  }

  /** One pass of the view loop for number i. */
  function VsStep(st: VsState, src: Source, sel: Selection, i: int): (st': VsState)
    requires VsShape(st)
    ensures VsShape(st') && st'.root == st.root
  {
    if !ViewWindow(sel, i) || i !in src.scans then st
    else
      var h := src.scans[i].header;
      var lp := LastPossible(st.lastPossible, st.minLevel, h.msLevel);
      var pre := PrecursorNum(st.lastOfLevel, sel, h, lp);
      var v := ViewOf(Some(src.scans[i]), pre).value;
      match VsResolve(st.(lastPossible := lp), src, pre)
      case None => st.(lastPossible := lp, parent := None)
      case Some(st1) => VsPlace(st1, sel, i, h.msLevel, v, pre)
  }

  /** The view loop over numbers first .. n - 1, polling at the top of every pass; None: canceled. */
  function VsRun(src: Source, sel: Selection, canceled: Poll -> bool, first: int, n: int): (r: Option<VsState>)
    requires first in src.scans && first <= n
    ensures r.Some? ==> VsShape(r.value)
    decreases n - first
  {
    if n == first then Some(VsInit(src.scans[first].header.msLevel))
    else
      match VsRun(src, sel, canceled, first, n - 1)
      case None => None
      case Some(st) => if canceled(AtScan(n - 1)) then None else Some(VsStep(st, src, sel, n - 1))
  }

  /** Views with their store: the result list is `order`, each entry a store index. */
  datatype ViewList = ViewList(views: seq<View>, order: seq<ViewRef>)

  const EmptyViewList := ViewList([], [])

  ghost predicate ViewListOk(out: ViewList)
  {
    SubsIn(out.views) && forall k :: 0 <= k < |out.order| ==> out.order[k] < |out.views|
  }

  /** getScanViewData: the empty list for a file with no scan or a canceled loop, else the result in loop order. */
  function ScanViewDataOf(src: Source, sel: Selection, canceled: Poll -> bool): (out: ViewList)
    ensures ViewListOk(out)
  {
    var first := FirstScanNumber(src);
    if first == -1 then EmptyViewList
    else
      FirstScanNumberSpec(src);
      match VsRun(src, sel, canceled, first, src.maxScanNumber + 1)
      case None => EmptyViewList
      case Some(st) => ViewList(st.views, st.result)
  }

  /** The scan number of a stored view (0 for an index outside the store). */
  function NumberOf(views: seq<View>, r: ViewRef): int
  {
    if r < |views| then views[r].scanNo else 0
  }

  /** compareTo on stored views, as the "at most 0" order Collections.sort uses. */
  function ByScanNo(views: seq<View>): (ViewRef, ViewRef) -> bool
  {
    (a: ViewRef, b: ViewRef) => Compare(NumberOf(views, a), NumberOf(views, b)) <= 0
  }

  /** readMSFileForView on values: getScanViewData's list, sorted. */
  function ViewsForViewOf(src: Source, sel: Selection, canceled: Poll -> bool): (out: ViewList)
    ensures ViewListOk(out)
  {
    var data := ScanViewDataOf(src, sel, canceled);
    var order := Sort<ViewRef>(data.order, ByScanNo(data.views));
    SortPermutation<ViewRef>(data.order, ByScanNo(data.views));
    assert forall k :: 0 <= k < |order| ==> order[k] < |data.views| by {
      forall k | 0 <= k < |order| ensures order[k] < |data.views| {
        assert order[k] in multiset(data.order);
      }
    }
    ViewList(data.views, order)
  }

  /** A canceled loop stays canceled. */
  lemma {:induction false} VsRunStaysCanceled(src: Source, sel: Selection, canceled: Poll -> bool, first: int, n: int, m: int)
    requires first in src.scans && first <= n <= m && VsRun(src, sel, canceled, first, n).None?
    ensures VsRun(src, sel, canceled, first, m).None?
    decreases m - n
  {
    if m > n {
      VsRunStaysCanceled(src, sel, canceled, first, n, m - 1);
    }
  }

  // ----- what a pass does -----

  /**
   * One pass: outside the window, or for a number the file lacks, nothing
   * changes. Otherwise the possible-precursor level is updated first; a
   * parent number the file lacks ends the pass with the parent variable
   * cleared and nothing stored; else a view carrying the header's number,
   * level, retention time and precursor values, with the chosen parent
   * number, is stored; it is added to the result exactly when selected,
   * and appended to the parent variable's sub-scans exactly when its level
   * is above the possible-precursor level.
   */
  lemma VsStepSpec(st: VsState, src: Source, sel: Selection, i: int)
    requires VsShape(st)
    ensures var st' := VsStep(st, src, sel, i);
      (!ViewWindow(sel, i) || i !in src.scans ==> st' == st) &&
      (ViewWindow(sel, i) && i in src.scans ==>
        var h := src.scans[i].header;
        var lp := LastPossible(st.lastPossible, st.minLevel, h.msLevel);
        var pre := PrecursorNum(st.lastOfLevel, sel, h, lp);
        var res := VsResolve(st.(lastPossible := lp), src, pre);
        (res.None? <==> pre != -1 && pre !in st.byNumber && pre !in src.scans) &&
        (res.None? ==> st' == st.(lastPossible := lp, parent := None)) &&
        (res.Some? ==>
          var r, par := |res.value.views|, res.value.parent;
          |st'.views| == r + 1 &&
          st'.views[r].scanNo == h.num && st'.views[r].msLevel == h.msLevel &&
          st'.views[r].retentionTime == h.retentionTime && st'.views[r].parentScan == Some(pre) &&
          st'.views[r].preCursorMz == Some(h.precursorMz) && st'.views[r].preCursorIntensity == Some(h.precursorIntensity) &&
          st'.views[r].subs == [] &&
          st'.result == (if ViewAdded(sel, i, pre, h.msLevel) then st.result + [r] else st.result) &&
          (h.msLevel > lp && par.Some? ==>
             st'.views[par.value].subs == res.value.views[par.value].subs + [r]) &&
          (forall q :: 0 <= q < r && !(h.msLevel > lp && par == Some(q)) ==> st'.views[q] == res.value.views[q])))
  {
  }

  // ----- what the loop keeps -----

  /**
   * The sub-scan entries form a forest: every entry names a later view, and
   * no view is listed twice, under one parent or under two.
   */
  ghost predicate Forest(views: seq<View>)
  {
    SubsIn(views) &&
    (forall p, j :: 0 <= p < |views| && 0 <= j < |views[p].subs| ==> p < views[p].subs[j]) &&
    (forall p, j, q, k ::
       (0 <= p < |views| && 0 <= j < |views[p].subs| && 0 <= q < |views| && 0 <= k < |views[q].subs| &&
        views[p].subs[j] == views[q].subs[k]) ==> p == q && j == k)
  }

  /** View s carries the number, level and retention time of a header the window let through. */
  ghost predicate ViewReadIn(v: View, src: Source, sel: Selection)
  {
    exists i :: i in src.scans && ViewWindow(sel, i) &&
      v.scanNo == src.scans[i].header.num && v.msLevel == src.scans[i].header.msLevel &&
      v.retentionTime == src.scans[i].header.retentionTime &&
      (sel.scanNum != -1 ==> i == sel.scanNum || v.parentScan == Some(sel.scanNum))
  }

  /**
   * What the view loop keeps: the sub-scan forest; the result lists each
   * view at most once, in creation order; the made-up view keeps number 0,
   * level 1, no parent, and heads the result; every other result view was
   * read in the window (and, with a scan number, is that scan or one of its
   * children).
   */
  ghost predicate VsOk(st: VsState, src: Source, sel: Selection)
  {
    VsShape(st) && Forest(st.views) &&
    (forall a, b :: 0 <= a < b < |st.result| ==> st.result[a] < st.result[b]) &&
    (forall k :: 0 <= k < |st.result| ==> (st.root && k == 0) || ViewReadIn(st.views[st.result[k]], src, sel)) &&
    (st.root ==> st.views[0].scanNo == 0 && st.views[0].msLevel == 1 && st.views[0].parentScan.None? &&
                 |st.result| > 0 && st.result[0] == 0)
  }

  /** Looking up a parent keeps the invariant. */
  lemma VsResolveOk(st: VsState, src: Source, sel: Selection, pre: int)
    requires VsOk(st, src, sel)
    ensures var r := VsResolve(st, src, pre); r.Some? ==> VsOk(r.value, src, sel)
  {
    var r := VsResolve(st, src, pre);
    if r.Some? && pre != -1 && pre !in st.byNumber {
      var views := r.value.views;
      assert views == st.views + [ViewOf(Some(src.scans[pre]), -1).value];
      assert Forest(views) by {
        forall p, j | 0 <= p < |views| && 0 <= j < |views[p].subs| ensures p < views[p].subs[j] {
          assert p < |st.views|;
          assert views[p] == st.views[p];
        }
        forall p, j, q, k | 0 <= p < |views| && 0 <= j < |views[p].subs| && 0 <= q < |views| && 0 <= k < |views[q].subs| &&
          views[p].subs[j] == views[q].subs[k]
          ensures p == q && j == k
        {
          assert p < |st.views| && q < |st.views|;
          assert views[p] == st.views[p] && views[q] == st.views[q];
        }
      }
      forall k | 0 <= k < |r.value.result| && !(st.root && k == 0)
        ensures ViewReadIn(r.value.views[r.value.result[k]], src, sel)
      {
        assert r.value.views[r.value.result[k]] == st.views[st.result[k]];
      }
    }
  }

  /** Storing a view with no sub-scans, and optionally listing it under an earlier parent, keeps the forest. */
  lemma PlaceForest(views: seq<View>, v: View, parent: Option<ViewRef>)
    requires Forest(views) && v.subs == [] && (parent.Some? ==> parent.value < |views|)
    ensures var r := |views|;
      var views1 := views + [v];
      Forest(if parent.Some? then views1[parent.value := views1[parent.value].(subs := views1[parent.value].subs + [r])] else views1)
  {
    var r := |views|;
    var views1 := views + [v];
    assert Forest(views1) by {
      forall p, j | 0 <= p < |views1| && 0 <= j < |views1[p].subs| ensures p < views1[p].subs[j] && views1[p].subs[j] < |views1| {
        assert p < r;
        assert views1[p] == views[p];
      }
      forall p, j, q, k | 0 <= p < |views1| && 0 <= j < |views1[p].subs| && 0 <= q < |views1| && 0 <= k < |views1[q].subs| &&
        views1[p].subs[j] == views1[q].subs[k]
        ensures p == q && j == k
      {
        assert p < r && q < r;
        assert views1[p] == views[p] && views1[q] == views[q];
      }
    }
    if parent.Some? {
      var pa := parent.value;
      var views2 := views1[pa := views1[pa].(subs := views1[pa].subs + [r])];
      assert forall p, j :: 0 <= p < |views1| && 0 <= j < |views1[p].subs| ==> views1[p].subs[j] < r;
      forall p, j | 0 <= p < |views2| && 0 <= j < |views2[p].subs| ensures p < views2[p].subs[j] && views2[p].subs[j] < |views2| {
        if p != pa || j < |views1[pa].subs| {
          assert views2[p].subs[j] == views1[p].subs[j];
        }
      }
      forall p, j, q, k | 0 <= p < |views2| && 0 <= j < |views2[p].subs| && 0 <= q < |views2| && 0 <= k < |views2[q].subs| &&
        views2[p].subs[j] == views2[q].subs[k]
        ensures p == q && j == k
      {
        var old1 := p != pa || j < |views1[pa].subs|;
        var old2 := q != pa || k < |views1[pa].subs|;
        if old1 {
          assert views2[p].subs[j] == views1[p].subs[j];
        }
        if old2 {
          assert views2[q].subs[k] == views1[q].subs[k];
        }
      }
    }
  }

  /** Placing view v: it is stored as given; the earlier views change at most in their sub-scans. */
  lemma VsPlaceFacts(st: VsState, sel: Selection, i: int, cur: int, v: View, pre: int)
    requires VsShape(st) && v.subs == []
    ensures var st', r := VsPlace(st, sel, i, cur, v, pre), |st.views|;
      st'.views[r] == v && st'.root == st.root &&
      st'.result == (if ViewAdded(sel, i, pre, cur) then st.result + [r] else st.result) &&
      forall q :: 0 <= q < r ==> st'.views[q] == st.views[q].(subs := st'.views[q].subs)
  {
  }

  /** Placing the view of an in-window pass i keeps every result view read in the window. */
  lemma VsPlaceReadIn(st: VsState, src: Source, sel: Selection, i: int, pre: int)
    requires VsOk(st, src, sel) && i in src.scans && ViewWindow(sel, i)
    requires src.scans[i].header.precursorScanNum != -1 ==> pre == src.scans[i].header.precursorScanNum
    ensures var h := src.scans[i].header;
      var st' := VsPlace(st, sel, i, h.msLevel, ViewOf(Some(src.scans[i]), pre).value, pre);
      forall k :: 0 <= k < |st'.result| ==> (st'.root && k == 0) || ViewReadIn(st'.views[st'.result[k]], src, sel)
  {
    var h := src.scans[i].header;
    var v := ViewOf(Some(src.scans[i]), pre).value;
    var r := |st.views|;
    VsPlaceFacts(st, sel, i, h.msLevel, v, pre);
    var st' := VsPlace(st, sel, i, h.msLevel, v, pre);
    forall k | 0 <= k < |st'.result| && !(st'.root && k == 0)
      ensures ViewReadIn(st'.views[st'.result[k]], src, sel)
    {
      if k < |st.result| {
        var q := st.result[k];
        assert ViewReadIn(st.views[q], src, sel);
        var j :| j in src.scans && ViewWindow(sel, j) &&
          st.views[q].scanNo == src.scans[j].header.num && st.views[q].msLevel == src.scans[j].header.msLevel &&
          st.views[q].retentionTime == src.scans[j].header.retentionTime &&
          (sel.scanNum != -1 ==> j == sel.scanNum || st.views[q].parentScan == Some(sel.scanNum));
        assert st'.views[q] == st.views[q].(subs := st'.views[q].subs);
      } else {
        assert st'.result[k] == r;
      }
    }
  }

  /** Placing the view of an in-window pass i keeps the invariant; the result grows by at most that view. */
  lemma VsPlaceOk(st: VsState, src: Source, sel: Selection, i: int, pre: int)
    requires VsOk(st, src, sel) && i in src.scans && ViewWindow(sel, i)
    requires src.scans[i].header.precursorScanNum != -1 ==> pre == src.scans[i].header.precursorScanNum
    ensures var h := src.scans[i].header;
      var st' := VsPlace(st, sel, i, h.msLevel, ViewOf(Some(src.scans[i]), pre).value, pre);
      VsOk(st', src, sel) && st.result <= st'.result && |st'.result| <= |st.result| + 1
  {
    var h := src.scans[i].header;
    var v := ViewOf(Some(src.scans[i]), pre).value;
    var r := |st.views|;
    var par := if h.msLevel > st.lastPossible && st.parent.Some? then st.parent else None;
    PlaceForest(st.views, v, par);
    VsPlaceFacts(st, sel, i, h.msLevel, v, pre);
    VsPlaceReadIn(st, src, sel, i, pre);
    var st' := VsPlace(st, sel, i, h.msLevel, v, pre);
    assert Forest(st'.views);
    assert forall a :: 0 <= a < |st.result| ==> st.result[a] < r;
    if st.root {
      assert st'.views[0] == st.views[0].(subs := st'.views[0].subs);
    }
  }

  /** One pass keeps the invariant, and the result only grows. */
  lemma VsStepOk(st: VsState, src: Source, sel: Selection, i: int)
    requires VsOk(st, src, sel)
    ensures var st' := VsStep(st, src, sel, i);
      VsOk(st', src, sel) && st.result <= st'.result && |st'.result| <= |st.result| + 1
  {
    if ViewWindow(sel, i) && i in src.scans {
      var h := src.scans[i].header;
      var lp := LastPossible(st.lastPossible, st.minLevel, h.msLevel);
      var pre := PrecursorNum(st.lastOfLevel, sel, h, lp);
      var st0 := st.(lastPossible := lp);
      VsResolveOk(st0, src, sel, pre);
      var res := VsResolve(st0, src, pre);
      if res.Some? {
        VsPlaceOk(res.value, src, sel, i, pre);
      }
    }
  }

  /** The invariant holds all along the view loop; the made-up view exists exactly when the first scan is above MS1. */
  lemma {:induction false} VsRunOk(src: Source, sel: Selection, canceled: Poll -> bool, first: int, n: int)
    requires first in src.scans && first <= n
    ensures var run := VsRun(src, sel, canceled, first, n);
      run.Some? ==> VsOk(run.value, src, sel) && run.value.root == (src.scans[first].header.msLevel > 1)
    decreases n - first
  {
    if n > first {
      VsRunOk(src, sel, canceled, first, n - 1);
      var prev := VsRun(src, sel, canceled, first, n - 1);
      if prev.Some? {
        VsStepOk(prev.value, src, sel, n - 1);
      }
    }
  }

  /**
   * getScanViewData's result: empty when canceled; otherwise each view at
   * most once, the made-up view (number 0, level 1, no parent) first when
   * the file starts above MS1, every other view read in the window, and
   * the sub-scan lists a forest.
   */
  lemma ScanViewDataSpec(src: Source, sel: Selection, canceled: Poll -> bool)
    requires FirstScanNumber(src) != -1
    ensures FirstScanNumber(src) in src.scans && FirstScanNumber(src) <= src.maxScanNumber
    ensures var first := FirstScanNumber(src);
      var run := VsRun(src, sel, canceled, first, src.maxScanNumber + 1);
      var out := ScanViewDataOf(src, sel, canceled);
      var root := src.scans[first].header.msLevel > 1;
      (run.None? ==> out == EmptyViewList) &&
      (run.Some? ==>
        Forest(out.views) &&
        (forall a, b :: 0 <= a < b < |out.order| ==> out.order[a] != out.order[b]) &&
        (root ==> |out.order| > 0 && out.views[out.order[0]] .scanNo == 0 && out.views[out.order[0]].msLevel == 1 &&
                  out.views[out.order[0]].parentScan.None?) &&
        (forall k :: 0 <= k < |out.order| && !(root && k == 0) ==> ViewReadIn(out.views[out.order[k]], src, sel)))
  {
    FirstScanNumberSpec(src);
    VsRunOk(src, sel, canceled, FirstScanNumber(src), src.maxScanNumber + 1);
  }

  /** With valid scan numbers, compareTo's "at most 0" is the numeric order on scan numbers, a total preorder. */
  lemma ByScanNoOrder(views: seq<View>)
    requires forall k :: 0 <= k < |views| ==> NonNegInt32(views[k].scanNo)
    ensures forall a, b :: ByScanNo(views)(a, b) <==> NumberOf(views, a) <= NumberOf(views, b)
    ensures TotalPreorder(ByScanNo(views))
  {
    forall a, b ensures ByScanNo(views)(a, b) <==> NumberOf(views, a) <= NumberOf(views, b) {
      CompareSign(NumberOf(views, a), NumberOf(views, b));
    }
  }

  /**
   * readMSFileForView: the list is getScanViewData's, reordered; when every
   * scan number is a valid one it is in ascending scan number.
   */
  lemma ViewsForViewSorted(src: Source, sel: Selection, canceled: Poll -> bool)
    ensures var data, out := ScanViewDataOf(src, sel, canceled), ViewsForViewOf(src, sel, canceled);
      out.views == data.views && multiset(out.order) == multiset(data.order) &&
      ((forall k :: 0 <= k < |out.views| ==> NonNegInt32(out.views[k].scanNo)) ==>
        forall a, b :: 0 <= a < b < |out.order| ==> out.views[out.order[a]].scanNo <= out.views[out.order[b]].scanNo)
  {
    var data := ScanViewDataOf(src, sel, canceled);
    SortPermutation<ViewRef>(data.order, ByScanNo(data.views));
    var out := ViewsForViewOf(src, sel, canceled);
    if forall k :: 0 <= k < |data.views| ==> NonNegInt32(data.views[k].scanNo) {
      ByScanNoOrder(data.views);
      SortSorted<ViewRef>(data.order, ByScanNo(data.views));
      forall a, b | 0 <= a < b < |out.order| ensures out.views[out.order[a]].scanNo <= out.views[out.order[b]].scanNo {
        assert ByScanNo(data.views)(out.order[a], out.order[b]);
      }
    }
  }

  // ----- the source's loop, written out -----

  /** The scalars a view object holds for a stored view. */
  function ScalarsOf(v: View): Scalars
  {
    Scalars(Some(v.scanNo), v.retentionTime, v.parentScan, Some(v.msLevel), v.preCursorIntensity, v.preCursorMz)
  }

  /** The objects a list of store indices names. */
  function Objects(objs: seq<ScanView>, refs: seq<ViewRef>): (r: seq<ScanView>)
    requires forall j :: 0 <= j < |refs| ==> refs[j] < |objs|
    ensures |r| == |refs| && forall j :: 0 <= j < |refs| ==> r[j] == objs[refs[j]]
  {
    seq(|refs|, j requires 0 <= j < |refs| => objs[refs[j]])
  }

  /** new ScanView() and its setters, as getScanView and the made-up view's code call them. */
  method NewView(v: View) returns (o: ScanView)
    ensures fresh(o) && o.Fields() == ScalarsOf(v) && o.subScans == []
  {
    o := new ScanView();
    o.SetPreCursorMz(v.preCursorMz);
    o.SetPreCursorIntensity(v.preCursorIntensity);
    o.SetParentScan(v.parentScan);
    o.SetMsLevel(Some(v.msLevel));
    o.SetScanNo(Some(v.scanNo));
    o.SetRetentionTime(v.retentionTime);
  }

  /**
   * The store as objects: one fresh, distinct ScanView per stored view, with
   * its scalars, and whose sub-scan list holds the very objects the view's
   * sub-scan indices name.
   */
  method Materialize(views: seq<View>) returns (objs: seq<ScanView>)
    requires SubsIn(views)
    ensures |objs| == |views|
    ensures forall k :: 0 <= k < |objs| ==> fresh(objs[k])
    ensures forall a, b :: 0 <= a < b < |objs| ==> objs[a] != objs[b]
    ensures forall k :: 0 <= k < |objs| ==> objs[k].Fields() == ScalarsOf(views[k])
    ensures forall k :: 0 <= k < |objs| ==> objs[k].subScans == Objects(objs, views[k].subs)
  {
    objs := [];
    while |objs| < |views|
      invariant |objs| <= |views|
      invariant forall k :: 0 <= k < |objs| ==> fresh(objs[k])
      invariant forall a, b :: 0 <= a < b < |objs| ==> objs[a] != objs[b]
      invariant forall k :: 0 <= k < |objs| ==> objs[k].Fields() == ScalarsOf(views[k]) && objs[k].subScans == []
      decreases |views| - |objs|
    {
      var o := NewView(views[|objs|]);
      objs := objs + [o];
    }
    var k := 0;
    while k < |objs|
      invariant 0 <= k <= |objs|
      invariant forall q :: 0 <= q < |objs| ==> objs[q].Fields() == ScalarsOf(views[q])
      invariant forall q :: 0 <= q < k ==> objs[q].subScans == Objects(objs, views[q].subs)
      decreases |objs| - k
    {
      objs[k].SetSubScans(Objects(objs, views[k].subs));
      k := k + 1;
    }
  }

  /** Looking up the parent number of one pass, as the source writes it; None: the fetched parent is null. */
  method ResolveView(st: VsState, src: Source, pre: int) returns (r: Option<VsState>)
    requires VsShape(st)
    ensures r == VsResolve(st, src, pre)
  {
    if pre == -1 {
      return Some(st);
    }
    if pre in st.byNumber {
      return Some(st.(parent := Some(st.byNumber[pre])));
    }
    var fetched := ViewOf(Rap(src, pre), -1);
    if fetched.None? {
      return None;
    }
    r := Some(st.(views := st.views + [fetched.value], parent := Some(|st.views|),
                  byNumber := st.byNumber[fetched.value.scanNo := |st.views|]));
  }

  /** One pass of the view loop, as the source writes it. */
  method ReadScanView(st: VsState, src: Source, sel: Selection, i: int) returns (st': VsState)
    requires VsShape(st)
    ensures st' == VsStep(st, src, sel, i)
  {
    if sel.parentScanNum != -1 && (i < sel.parentScanNum || i > sel.parentScanNum + 1000) {
      return st;
    }
    var jrap := Rap(src, i);
    if jrap.None? {
      return st;
    }
    var h := jrap.value.header;
    var cur := h.msLevel;
    var lp := PossibleLevel(st.lastPossible, st.minLevel, cur);
    var pre := PrecursorNumber(st.lastOfLevel, sel, h, lp);
    var msScan := ViewOf(jrap, pre).value;
    var resolved := ResolveView(st.(lastPossible := lp), src, msScan.parentScan.value);
    if resolved.None? {
      return st.(lastPossible := lp, parent := None);
    }
    st' := PlaceView(resolved.value, sel, i, msScan, pre);
  }

  /** The rest of a pass once the parent is resolved, as the source writes it. */
  method PlaceView(st: VsState, sel: Selection, i: int, msScan: View, pre: int) returns (st': VsState)
    requires VsShape(st) && msScan.subs == []
    ensures st' == VsPlace(st, sel, i, msScan.msLevel, msScan, pre)
  {
    var cur := msScan.msLevel;
    var r := |st.views|;
    st' := st.(views := st.views + [msScan], lastOfLevel := st.lastOfLevel[cur := i],
               byNumber := st.byNumber[msScan.scanNo := r]);
    if msScan.msLevel > st.lastPossible && st.parent.Some? {
      var p := st.parent.value;
      st' := st'.(views := st'.views[p := st'.views[p].(subs := st'.views[p].subs + [r])]);
    }
    if Selected(sel, i, pre, cur) {
      if sel.scanNum != -1 && i != sel.scanNum && sel.scanNum != pre {
      } else {
        st' := st'.(result := st'.result + [r]);
      }
    }
    if cur < st'.minLevel {
      st' := st'.(minLevel := cur);
    }
  }

  /** The state before the view loop, as the source sets it up. */
  method StartViews(level: int) returns (st: VsState)
    ensures st == VsInit(level)
  {
    st := VsState([], [], map[], map[], level, level, None, false);
    if level > 1 {
      var root := RootView;
      st := st.(views := [root], byNumber := map[root.scanNo := 0], lastPossible := 1,
                lastOfLevel := map[1 := 0], result := [0], root := true);
    }
  }

  /** One more pass of the view loop: canceled by the poll at its top, else one more step. */
  lemma VsRunNext(src: Source, sel: Selection, canceled: Poll -> bool, first: int, i: int, st: VsState)
    requires first in src.scans && first <= i && VsRun(src, sel, canceled, first, i) == Some(st)
    ensures VsShape(st)
    ensures VsRun(src, sel, canceled, first, i + 1) ==
      if canceled(AtScan(i)) then None else Some(VsStep(st, src, sel, i))
  {
  }

  /** The view loop from the first scan to the last scan number, as the source writes it. */
  method ViewLoop(src: Source, sel: Selection, canceled: Poll -> bool, first: int, init: VsState) returns (r: Option<VsState>)
    requires first in src.scans && first <= src.maxScanNumber + 1
    requires init == VsInit(src.scans[first].header.msLevel)
    ensures r == VsRun(src, sel, canceled, first, src.maxScanNumber + 1)
  {
    r := Some(init);
    var i := first;
    while i <= src.maxScanNumber && r.Some?
      invariant first <= i <= src.maxScanNumber + 1
      invariant r == VsRun(src, sel, canceled, first, i)
      decreases src.maxScanNumber - i
    {
      r := ViewPass(src, sel, canceled, first, i, r.value);
      i := i + 1;
    }
    VsRunEnd(src, sel, canceled, first, i, r);
  }

  /** The view loop leaves the last-pass result once it runs out of numbers or is canceled. */
  lemma VsRunEnd(src: Source, sel: Selection, canceled: Poll -> bool, first: int, i: int, r: Option<VsState>)
    requires first in src.scans && first <= i <= src.maxScanNumber + 1
    requires r == VsRun(src, sel, canceled, first, i) && (i == src.maxScanNumber + 1 || r.None?)
    ensures r == VsRun(src, sel, canceled, first, src.maxScanNumber + 1)
  {
    if r.None? {
      VsRunStaysCanceled(src, sel, canceled, first, i, src.maxScanNumber + 1);
    }
  }

  /** One pass of the view loop: the poll at its top, then the number's step. */
  method ViewPass(src: Source, sel: Selection, canceled: Poll -> bool, first: int, i: int, st: VsState) returns (r: Option<VsState>)
    requires first in src.scans && first <= i && VsRun(src, sel, canceled, first, i) == Some(st)
    ensures r == VsRun(src, sel, canceled, first, i + 1)
  {
    VsRunNext(src, sel, canceled, first, i, st);
    if canceled(AtScan(i)) {
      r := None;
    } else {
      var next := ReadScanView(st, src, sel, i);
      r := Some(next);
    }
  }

  /** getScanViewData on values, with its loop written out. */
  method GetScanViewData(src: Source, sel: Selection, canceled: Poll -> bool) returns (out: ViewList)
    ensures out == ScanViewDataOf(src, sel, canceled)
  {
    var first := GetFirstScanNumber(src);
    if first == -1 {
      return EmptyViewList;
    }
    FirstScanNumberSpec(src);
    var init := StartViews(Rap(src, first).value.header.msLevel);
    var run := ViewLoop(src, sel, canceled, first, init);
    if run.None? {
      return EmptyViewList;
    }
    out := ViewList(run.value.views, run.value.result);
  }

  /**
   * readMSFileForView: getScanViewData, sorted by compareTo, as ScanView
   * objects; each object's sub-scans are the objects of its sub-scan
   * indices, so a child listed in the result is the same object its parent
   * lists.
   */
  method ReadMsFileForView(src: Source, sel: Selection, canceled: Poll -> bool) returns (out: seq<ScanView>, ghost objs: seq<ScanView>)
    ensures var list := ViewsForViewOf(src, sel, canceled);
      |objs| == |list.views| &&
      (forall k :: 0 <= k < |objs| ==> fresh(objs[k])) &&
      (forall a, b :: 0 <= a < b < |objs| ==> objs[a] != objs[b]) &&
      (forall k :: 0 <= k < |objs| ==> objs[k].Fields() == ScalarsOf(list.views[k]) &&
                                       objs[k].subScans == Objects(objs, list.views[k].subs)) &&
      out == Objects(objs, list.order)
  {
    var data := GetScanViewData(src, sel, canceled);
    var order := Sort<ViewRef>(data.order, ByScanNo(data.views));
    assert ViewsForViewOf(src, sel, canceled) == ViewList(data.views, order);
    var all := Materialize(data.views);
    objs := all;
    out := Objects(all, order);
  }
}
