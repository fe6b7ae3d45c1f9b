/**
 * The two number-only queries of MzXmlReader: getScanList, which lists scan
 * numbers at the file's lowest level or under a given parent, and
 * readMSFileForSubscans, which maps every scan number to the numbers of the
 * scans that name it as their precursor.
 */
module ScanLists {
  import opened Wrappers
  import opened Spectra
  import opened ScanSource

  // ----- getScanList -----

  /** The state of getScanList's loop: the list so far, bFoundParent, iParentMSLevel. */
  datatype SlState = SlState(list: seq<int>, found: bool, parentLevel: int)

  const SlInit := SlState([], false, -1)

  /**
   * One pass for number i. Without a parent (a negative number) scans at the
   * lowest level are listed. With one, a header carrying the parent's number
   * opens a run; inside a run, scans one level BELOW the parent are listed
   * and a scan at the parent's level closes the run.
   */
  function SlStep(st: SlState, src: Source, parentScanNum: int, minLevel: int, i: int): SlState
  {
    if i !in src.scans then st
    else
      var h := src.scans[i].header;
      if parentScanNum < 0 then
        if h.msLevel == minLevel then st.(list := st.list + [i]) else st
      else if !st.found then
        if h.num == parentScanNum then st.(found := true, parentLevel := h.msLevel) else st
      else if h.msLevel == st.parentLevel - 1 then st.(list := st.list + [i])
      else if h.msLevel == st.parentLevel then st.(found := false)
      else st
  }

  /** The loop over first .. n - 1, polling at the top of every pass; None: canceled. */
  function SlRun(src: Source, parentScanNum: int, minLevel: int, canceled: Poll -> bool, first: int, n: int): Option<SlState>
    requires first <= n
    decreases n - first
  {
    if n == first then Some(SlInit)
    else
      match SlRun(src, parentScanNum, minLevel, canceled, first, n - 1)
      case None => None
      case Some(st) => if canceled(AtScan(n - 1)) then None else Some(SlStep(st, src, parentScanNum, minLevel, n - 1))
  }

  /** getScanList: empty for a file without scans or a canceled loop, else the listed numbers. */
  function ScanListOf(src: Source, parentScanNum: int, canceled: Poll -> bool): seq<int>
  {
    var first := FirstScanNumber(src);
    if first == -1 then []
    else
      FirstScanNumberSpec(src);
      match SlRun(src, parentScanNum, MinMsLevel(src), canceled, first, src.maxScanNumber + 1)
      case None => []
      case Some(st) => st.list
  }

  predicate Increasing(xs: seq<int>)
  {
    forall a, b :: 0 <= a < b < |xs| ==> xs[a] < xs[b]
  }

  /** A canceled loop stays canceled. */
  lemma {:induction false} SlRunStaysCanceled(src: Source, parentScanNum: int, minLevel: int, canceled: Poll -> bool,
                                              first: int, n: int, m: int)
    requires first <= n <= m && SlRun(src, parentScanNum, minLevel, canceled, first, n).None?
    ensures SlRun(src, parentScanNum, minLevel, canceled, first, m).None?
    decreases m - n
  {
    if m > n {
      SlRunStaysCanceled(src, parentScanNum, minLevel, canceled, first, n, m - 1);
    }
  }

  /** Without a parent, the loop lists exactly the present numbers below n at the lowest level, in increasing order. */
  lemma {:induction false} SlRunNoParent(src: Source, parentScanNum: int, minLevel: int, canceled: Poll -> bool, first: int, n: int)
    requires first <= n && parentScanNum < 0
    ensures var run := SlRun(src, parentScanNum, minLevel, canceled, first, n);
      run.Some? ==>
        Increasing(run.value.list) &&
        forall x :: x in run.value.list <==> first <= x < n && x in src.scans && src.scans[x].header.msLevel == minLevel
    decreases n - first
  {
    if n > first {
      SlRunNoParent(src, parentScanNum, minLevel, canceled, first, n - 1);
      var prev := SlRun(src, parentScanNum, minLevel, canceled, first, n - 1);
      if prev.Some? {
        var list := prev.value.list;
        assert forall a :: 0 <= a < |list| ==> list[a] < n - 1 by {
          forall a | 0 <= a < |list| ensures list[a] < n - 1 {
            assert list[a] in list;
          }
        }
      }
    }
  }

  /**
   * With a parent, every listed number is a present scan one level below a
   * header that carries the parent's number and comes earlier; the list is
   * increasing. While a run is open, its level is that of such a header.
   */
  lemma {:induction false} SlRunParent(src: Source, parentScanNum: int, minLevel: int, canceled: Poll -> bool, first: int, n: int)
    requires first <= n && parentScanNum >= 0
    ensures var run := SlRun(src, parentScanNum, minLevel, canceled, first, n);
      run.Some? ==>
        Increasing(run.value.list) &&
        (forall x :: x in run.value.list ==> first <= x < n) &&
        (run.value.found ==>
           exists j :: first <= j < n && j in src.scans && src.scans[j].header.num == parentScanNum &&
                       src.scans[j].header.msLevel == run.value.parentLevel) &&
        (forall x :: x in run.value.list ==>
           x in src.scans &&
           exists j :: first <= j < x && j in src.scans && src.scans[j].header.num == parentScanNum &&
                       src.scans[x].header.msLevel == src.scans[j].header.msLevel - 1)
    decreases n - first
  {
    if n > first {
      SlRunParent(src, parentScanNum, minLevel, canceled, first, n - 1);
      var prev := SlRun(src, parentScanNum, minLevel, canceled, first, n - 1);
      if prev.Some? {
        var list := prev.value.list;
        assert forall a :: 0 <= a < |list| ==> list[a] < n - 1 by {
          forall a | 0 <= a < |list| ensures list[a] < n - 1 {
            assert list[a] in list;
          }
        }
      }
    }
  }

  /** Before any header carries the parent's number, nothing is listed. */
  lemma {:induction false} SlRunBeforeParent(src: Source, parentScanNum: int, minLevel: int, canceled: Poll -> bool, first: int, n: int)
    requires first <= n && parentScanNum >= 0
    requires forall j :: first <= j < n && j in src.scans ==> src.scans[j].header.num != parentScanNum
    ensures var run := SlRun(src, parentScanNum, minLevel, canceled, first, n);
      run.Some? ==> run.value == SlInit
    decreases n - first
  {
    if n > first {
      SlRunBeforeParent(src, parentScanNum, minLevel, canceled, first, n - 1);
    }
  }

  /**
   * getScanList without a parent: the numbers of all scans at the file's
   * lowest level, in increasing order, unless the loop is canceled.
   */
  lemma ScanListNoParent(src: Source, parentScanNum: int, canceled: Poll -> bool)
    requires parentScanNum < 0
    requires forall i :: FirstScanNumber(src) <= i <= src.maxScanNumber ==> !canceled(AtScan(i))
    ensures var list := ScanListOf(src, parentScanNum, canceled);
      Increasing(list) &&
      forall x :: x in list <==> 1 <= x <= src.maxScanNumber && x in src.scans && src.scans[x].header.msLevel == MinMsLevel(src)
  {
    FirstScanNumberSpec(src);
    var first := FirstScanNumber(src);
    if first != -1 {
      SlRunLive(src, parentScanNum, MinMsLevel(src), canceled, first, src.maxScanNumber + 1);
      SlRunNoParent(src, parentScanNum, MinMsLevel(src), canceled, first, src.maxScanNumber + 1);
    }
  }

  /** Without polls that answer yes, the loop is not canceled. */
  lemma {:induction false} SlRunLive(src: Source, parentScanNum: int, minLevel: int, canceled: Poll -> bool, first: int, n: int)
    requires first <= n
    requires forall i :: first <= i < n ==> !canceled(AtScan(i))
    ensures SlRun(src, parentScanNum, minLevel, canceled, first, n).Some?
    decreases n - first
  {
    if n > first {
      SlRunLive(src, parentScanNum, minLevel, canceled, first, n - 1);
    }
  }

  /** getScanList, with its loop written out. */
  method GetScanList(src: Source, parentScanNum: int, canceled: Poll -> bool) returns (list: seq<int>)
    ensures list == ScanListOf(src, parentScanNum, canceled)
  {
    var minLevel := GetMinMsLevel(src);
    var first := GetFirstScanNumber(src);
    if first == -1 {
      return [];
    }
    FirstScanNumberSpec(src);
    list := [];
    var found := false;
    var parentLevel := -1;
    var i := first;
    while i <= src.maxScanNumber
      invariant first <= i <= src.maxScanNumber + 1
      invariant SlRun(src, parentScanNum, minLevel, canceled, first, i) == Some(SlState(list, found, parentLevel))
      decreases src.maxScanNumber - i
    {
      if canceled(AtScan(i)) {
        assert SlRun(src, parentScanNum, minLevel, canceled, first, i + 1).None?;
        SlRunStaysCanceled(src, parentScanNum, minLevel, canceled, first, i + 1, src.maxScanNumber + 1);
        return [];
      }
      var header := Rap(src, i);
      if header.Some? {
        var h := header.value.header;
        if parentScanNum < 0 {
          if h.msLevel == minLevel {
            list := list + [i];
          }
        } else {
          if !found {
            if h.num == parentScanNum {
              found := true;
              parentLevel := h.msLevel;
            }
          } else {
            if h.msLevel == parentLevel - 1 {
              list := list + [i];
            } else if h.msLevel == parentLevel {
              found := false;
            }
          }
        }
      }
      i := i + 1;
    }
  }

  // ----- readMSFileForSubscans -----

  /** The second loop of readMSFileForSubscans: still going with its map, or ended by an exception with the map so far. */
  datatype SsFold = Going(m: map<int, seq<int>>) | Stopped(m: map<int, seq<int>>)

  /** The first loop's map: an empty list for every number from the first scan up to, but not including, the last. */
  function EmptyLists(first: int, last: int): (m: map<int, seq<int>>)
    ensures forall k :: k in m <==> first <= k < last
    ensures forall k :: k in m ==> m[k] == []
    decreases last - first
  {
    if last <= first then map[] else EmptyLists(first, last - 1)[last - 1 := []]
  }

  /**
   * One pass for number i: a number rap does not answer throws (the header
   * of null); a scan above MS1 is appended to its precursor's list, and a
   * precursor number that is not a key throws.
   */
  function SsStep(m: map<int, seq<int>>, src: Source, i: int): SsFold
  {
    if i !in src.scans then Stopped(m)
    else
      var h := src.scans[i].header;
      if h.msLevel > 1 then
        if h.precursorScanNum in m then Going(m[h.precursorScanNum := m[h.precursorScanNum] + [i]]) else Stopped(m)
      else Going(m)
  }

  function SsRun(src: Source, first: int, last: int, n: int): SsFold
    requires first <= n
    decreases n - first
  {
    if n == first then Going(EmptyLists(first, last))
    else
      match SsRun(src, first, last, n - 1)
      case Stopped(m) => Stopped(m)
      case Going(m) => SsStep(m, src, n - 1)
  }

  /** readMSFileForSubscans: the map, whether the second loop ran to its end or threw. */
  function SubscansOf(src: Source): map<int, seq<int>>
  {
    var first := FirstScanNumber(src);
    var last := src.maxScanNumber;
    if first <= last then SsRun(src, first, last, last).m else EmptyLists(first, last)
  }

  /**
   * The loop keeps the keys; every listed number is a present scan above MS1,
   * below n, naming its key as precursor; each list is increasing; and, when
   * the loop has not thrown, every scan above MS1 below n is listed under
   * its precursor.
   */
  lemma {:induction false} SsRunSpec(src: Source, first: int, last: int, n: int)
    requires first <= n
    ensures var f := SsRun(src, first, last, n);
      (forall k :: k in f.m <==> first <= k < last) &&
      (forall k :: k in f.m ==>
         Increasing(f.m[k]) &&
         forall x :: x in f.m[k] ==>
           first <= x < n && x in src.scans && src.scans[x].header.msLevel > 1 && src.scans[x].header.precursorScanNum == k) &&
      (f.Going? ==>
         forall x :: first <= x < n ==>
           x in src.scans &&
           (src.scans[x].header.msLevel > 1 ==>
              src.scans[x].header.precursorScanNum in f.m && x in f.m[src.scans[x].header.precursorScanNum]))
    decreases n - first
  {
    if n > first {
      SsRunSpec(src, first, last, n - 1);
      var prev := SsRun(src, first, last, n - 1);
      if prev.Going? && n - 1 in src.scans && src.scans[n - 1].header.msLevel > 1 {
        var k := src.scans[n - 1].header.precursorScanNum;
        if k in prev.m {
          var m' := prev.m[k := prev.m[k] + [n - 1]];
          forall q | q in m' ensures Increasing(m'[q]) {
            if q == k {
              var list := prev.m[k];
              forall a | 0 <= a < |list| ensures list[a] < n - 1 {
                assert list[a] in list;
              }
            }
          }
        }
      }
    }
  }

  /**
   * readMSFileForSubscans: the keys are the numbers from the first scan up to
   * but not including the last scan number, so the last scan is never a key
   * and never listed; every listed number is a scan above MS1 naming its key;
   * when every number in that range is a scan and every precursor number of
   * a scan above MS1 is a key, every such scan is listed under its precursor.
   */
  lemma SubscansSpec(src: Source)
    ensures var m, first, last := SubscansOf(src), FirstScanNumber(src), src.maxScanNumber;
      (forall k :: k in m <==> first <= k < last) &&
      (forall k :: k in m ==>
         Increasing(m[k]) &&
         forall x :: x in m[k] ==>
           first <= x < last && x in src.scans && src.scans[x].header.msLevel > 1 &&
           src.scans[x].header.precursorScanNum == k) &&
      (Complete(src, first, last) ==>
       forall x :: first <= x < last && src.scans[x].header.msLevel > 1 ==> x in m[src.scans[x].header.precursorScanNum])
  {
    var first, last := FirstScanNumber(src), src.maxScanNumber;
    if first <= last {
      SsRunSpec(src, first, last, last);
      if Complete(src, first, last) {
        SsRunGoing(src, first, last, last);
      }
    }
  }

  /** Every number first .. last - 1 is a scan, and every scan above MS1 among them names a precursor in that range. */
  ghost predicate Complete(src: Source, first: int, last: int)
  {
    forall x :: first <= x < last ==>
      x in src.scans && (src.scans[x].header.msLevel > 1 ==> first <= src.scans[x].header.precursorScanNum < last)
  }

  /** When every number is a scan and every precursor number is a key, the loop never throws. */
  lemma {:induction false} SsRunGoing(src: Source, first: int, last: int, n: int)
    requires first <= n
    requires n <= last && Complete(src, first, last)
    ensures SsRun(src, first, last, n).Going?
    decreases n - first
  {
    if n > first {
      SsRunGoing(src, first, last, n - 1);
      SsRunSpec(src, first, last, n - 1);
    }
  }

  /** readMSFileForSubscans, with both loops written out. */
  method ReadMsFileForSubscans(src: Source) returns (m: map<int, seq<int>>)
    ensures m == SubscansOf(src)
  {
    m := map[];
    var first := GetFirstScanNumber(src);
    var last := src.maxScanNumber;
    var i := first;
    while i < last
      invariant i == first || first < i <= last
      invariant m == EmptyLists(first, i)
      decreases last - i
    {
      m := m[i := []];
      i := i + 1;
    }
    if first > last {
      assert m == EmptyLists(first, last);
      return;
    }
    i := first;
    while i < last
      invariant first <= i <= last
      invariant SsRun(src, first, last, i) == Going(m)
      decreases last - i
    {
      var jrap := Rap(src, i);
      if jrap.None? {
        assert SsRun(src, first, last, i + 1) == Stopped(m);
        SsRunStopped(src, first, last, i + 1, last);
        return;
      }
      var h := jrap.value.header;
      if h.msLevel > 1 {
        var parentScan := h.precursorScanNum;
        if parentScan !in m {
          assert SsRun(src, first, last, i + 1) == Stopped(m);
          SsRunStopped(src, first, last, i + 1, last);
          return;
        }
        m := m[parentScan := m[parentScan] + [i]];
      }
      i := i + 1;
    }
  }

  /** A stopped loop keeps its map. */
  lemma {:induction false} SsRunStopped(src: Source, first: int, last: int, n: int, k: int)
    requires first <= n <= k && SsRun(src, first, last, n).Stopped?
    ensures SsRun(src, first, last, k) == SsRun(src, first, last, n)
    decreases k - n
  {
    if k > n {
      SsRunStopped(src, first, last, n, k - 1);
    }
  }
}
