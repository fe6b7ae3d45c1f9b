/**
 * FileReaderUtils: a scan list turned into a map from scan number to scan,
 * either with every peak list sorted (listToHashMap) or with the peak lists
 * cut down by an intensity threshold (listToFilteredHashMap, through
 * filterPeakList). The scans are changed where they are, so the list the
 * caller holds sees the same changes; here the changed list is returned next
 * to the map, whose values are indices into it.
 */
module ScanMaps {
  import opened Wrappers
  import opened Records
  import opened Sorting

  // ----- keying scans by number -----

  /** A map from scan number to the index of the scan put last with it, and its keys in first-insertion order. */
  datatype Keying = Keying(order: seq<int>, at: map<int, nat>)

  /** The map after putting scans[0..n) by scan number: a repeated number takes the later scan and keeps its place. */
  function Keyed(scans: seq<Scan>, n: nat): Keying
    requires n <= |scans|
  {
    if n == 0 then Keying([], map[])
    else
      var k := Keyed(scans, n - 1);
      var key := scans[n - 1].scanNo;
      Keying(if key in k.at then k.order else k.order + [key], k.at[key := n - 1])
  }

  /**
   * The keys are exactly the scan numbers put; each is bound to the last
   * scan with that number; the insertion order lists each key once.
   */
  lemma KeyedSpec(scans: seq<Scan>, n: nat)
    requires n <= |scans|
    ensures forall x :: x in Keyed(scans, n).at <==> exists j :: 0 <= j < n && scans[j].scanNo == x
    ensures forall x :: x in Keyed(scans, n).at ==>
      Keyed(scans, n).at[x] < n && scans[Keyed(scans, n).at[x]].scanNo == x &&
      forall j :: Keyed(scans, n).at[x] < j < n ==> scans[j].scanNo != x
    ensures forall x :: x in Keyed(scans, n).order <==> x in Keyed(scans, n).at
    ensures forall a, b :: 0 <= a < b < |Keyed(scans, n).order| ==> Keyed(scans, n).order[a] != Keyed(scans, n).order[b]
  {
    KeyedKeys(scans, n);
    KeyedLast(scans, n);
    KeyedOrder(scans, n);
  }

  /** The keys are exactly the scan numbers put. */
  lemma {:induction false} KeyedKeys(scans: seq<Scan>, n: nat)
    requires n <= |scans|
    ensures forall x :: x in Keyed(scans, n).at <==> exists j :: 0 <= j < n && scans[j].scanNo == x
  {
    if n > 0 {
      KeyedKeys(scans, n - 1);
      var k := Keyed(scans, n - 1);
      var key := scans[n - 1].scanNo;
      var k' := Keyed(scans, n);
      assert k'.at == k.at[key := n - 1];
      forall x ensures x in k'.at <==> exists j :: 0 <= j < n && scans[j].scanNo == x {
        if x in k'.at && x != key {
          assert x in k.at;
          var j :| 0 <= j < n - 1 && scans[j].scanNo == x;
          assert 0 <= j < n && scans[j].scanNo == x;
        }
        if exists j :: 0 <= j < n && scans[j].scanNo == x {
          var j :| 0 <= j < n && scans[j].scanNo == x;
          if j < n - 1 {
            assert exists j' :: 0 <= j' < n - 1 && scans[j'].scanNo == x;
            assert x in k.at;
          }
        }
      }
    }
  }

  /** Each key is bound to the last scan put with that number. */
  lemma {:induction false} KeyedLast(scans: seq<Scan>, n: nat)
    requires n <= |scans|
    ensures forall x :: x in Keyed(scans, n).at ==>
      Keyed(scans, n).at[x] < n && scans[Keyed(scans, n).at[x]].scanNo == x &&
      forall j :: Keyed(scans, n).at[x] < j < n ==> scans[j].scanNo != x
  {
    if n > 0 {
      KeyedLast(scans, n - 1);
      var k := Keyed(scans, n - 1);
      var key := scans[n - 1].scanNo;
      var k' := Keyed(scans, n);
      assert k'.at == k.at[key := n - 1];
      forall x | x in k'.at
        ensures k'.at[x] < n && scans[k'.at[x]].scanNo == x && forall j :: k'.at[x] < j < n ==> scans[j].scanNo != x
      {
        if x != key {
          assert x in k.at && k'.at[x] == k.at[x];
        }
      }
    }
  }

  /** The insertion order lists the keys, each once. */
  lemma {:induction false} KeyedOrder(scans: seq<Scan>, n: nat)
    requires n <= |scans|
    ensures forall x :: x in Keyed(scans, n).order <==> x in Keyed(scans, n).at
    ensures forall a, b :: 0 <= a < b < |Keyed(scans, n).order| ==> Keyed(scans, n).order[a] != Keyed(scans, n).order[b]
  {
    if n > 0 {
      KeyedOrder(scans, n - 1);
      var k := Keyed(scans, n - 1);
      var key := scans[n - 1].scanNo;
      var k' := Keyed(scans, n);
      assert k' == Keying(if key in k.at then k.order else k.order + [key], k.at[key := n - 1]);
      forall x ensures x in k'.order <==> x in k'.at {
      }
      forall a, b | 0 <= a < b < |k'.order| ensures k'.order[a] != k'.order[b] {
        if key !in k.at && b == |k.order| {
          assert k'.order[b] == key;
          assert k'.order[a] == k.order[a] && k.order[a] in k.order;
        } else {
          assert k'.order[a] == k.order[a] && k'.order[b] == k.order[b];
        }
      }
    }
  }

  /** Scan numbers that repeat: the map keeps the later scan. */
  lemma KeyedLastWins(scans: seq<Scan>, i: nat, j: nat)
    requires i < j < |scans| && scans[i].scanNo == scans[j].scanNo
    requires forall m :: j < m < |scans| ==> scans[m].scanNo != scans[j].scanNo
    ensures scans[i].scanNo in Keyed(scans, |scans|).at && Keyed(scans, |scans|).at[scans[i].scanNo] == j
  {
    KeyedSpec(scans, |scans|);
    var x := scans[i].scanNo;
    assert 0 <= j < |scans| && scans[j].scanNo == x;
  }

  // ----- listToHashMap -----

  /**
   * The Peak order read through references; a reference to no stored peak
   * sorts after every peak, which keeps a total preorder total.
   */
  function RefOrder(peaks: seq<Peak>, le: (Peak, Peak) -> bool): (PeakRef, PeakRef) -> bool
  {
    (a: PeakRef, b: PeakRef) => b >= |peaks| || (a < |peaks| && le(peaks[a], peaks[b]))
  }

  /** A total preorder on peaks gives one on references. */
  lemma RefOrderTotal(peaks: seq<Peak>, le: (Peak, Peak) -> bool)
    requires TotalPreorder(le)
    ensures TotalPreorder(RefOrder(peaks, le))
  {
    var o := RefOrder(peaks, le);
    forall a: PeakRef, b: PeakRef ensures o(a, b) || o(b, a) {
      if a < |peaks| && b < |peaks| {
        assert le(peaks[a], peaks[b]) || le(peaks[b], peaks[a]);
      }
    }
    forall a: PeakRef, b: PeakRef, c: PeakRef | o(a, b) && o(b, c) ensures o(a, c) {
      if a < |peaks| && b < |peaks| && c < |peaks| {
        assert le(peaks[a], peaks[b]) && le(peaks[b], peaks[c]);
      }
    }
  }

  /** Collections.sort on one scan's peak list. */
  function SortPeaks(peaks: seq<Peak>, s: Scan, le: (Peak, Peak) -> bool): Scan
  {
    s.(peaklist := Sort(s.peaklist, RefOrder(peaks, le)))
  }

  /**
   * Sorting a peak list changes nothing else about the scan, keeps the
   * same references, and lays the stored peaks out in the Peak order.
   */
  lemma SortPeaksSpec(peaks: seq<Peak>, s: Scan, le: (Peak, Peak) -> bool)
    ensures var s' := SortPeaks(peaks, s, le);
      s' == s.(peaklist := s'.peaklist) &&
      multiset(s'.peaklist) == multiset(s.peaklist) &&
      (ScanRefsOk(peaks, s) ==> ScanRefsOk(peaks, s'))
    ensures TotalPreorder(le) && ScanRefsOk(peaks, s) ==>
      var ps := SortPeaks(peaks, s, le).peaklist;
      forall i, j :: 0 <= i < j < |ps| ==> le(peaks[ps[i]], peaks[ps[j]])
  {
    var ps := Sort(s.peaklist, RefOrder(peaks, le));
    SortPermutation(s.peaklist, RefOrder(peaks, le));
    SortLength(s.peaklist, RefOrder(peaks, le));
    if ScanRefsOk(peaks, s) {
      forall k | 0 <= k < |ps| ensures ps[k] < |peaks| {
        assert ps[k] in multiset(s.peaklist);
      }
    }
    if TotalPreorder(le) && ScanRefsOk(peaks, s) {
      RefOrderTotal(peaks, le);
      SortSorted(s.peaklist, RefOrder(peaks, le));
      forall i, j | 0 <= i < j < |ps| ensures le(peaks[ps[i]], peaks[ps[j]]) {
        assert RefOrder(peaks, le)(ps[i], ps[j]);
        assert ps[j] < |peaks|;
      }
    }
  }

  /** The list after listToHashMap: every scan's peak list sorted, the peaks themselves unchanged. */
  function SortAllPeaks(l: ScanList, le: (Peak, Peak) -> bool): (l': ScanList)
    ensures |l'.scans| == |l.scans| && l'.peaks == l.peaks
    ensures forall j :: 0 <= j < |l.scans| ==> l'.scans[j] == SortPeaks(l.peaks, l.scans[j], le)
  {
    ScanList(seq(|l.scans|, j requires 0 <= j < |l.scans| => SortPeaks(l.peaks, l.scans[j], le)), l.peaks)
  }

  /** A well-formed list stays well-formed, and its scans keep their numbers. */
  lemma SortAllPeaksOk(l: ScanList, le: (Peak, Peak) -> bool)
    ensures forall j :: 0 <= j < |l.scans| ==> SortAllPeaks(l, le).scans[j].scanNo == l.scans[j].scanNo
    ensures ScanListOk(l) ==> ScanListOk(SortAllPeaks(l, le))
  {
    forall j | 0 <= j < |l.scans| ensures ScanRefsOk(l.peaks, l.scans[j]) ==> ScanRefsOk(l.peaks, SortAllPeaks(l, le).scans[j]) {
      SortPeaksSpec(l.peaks, l.scans[j], le);
    }
  }

  /**
   * listToHashMap: null for a null list (the source's only null); otherwise
   * every peak list sorted and the scans keyed by number.
   */
  method ListToHashMap(scans: Option<ScanList>, le: (Peak, Peak) -> bool) returns (r: Option<(ScanList, Keying)>)
    ensures scans.None? <==> r.None?
    ensures scans.Some? ==> r == Some((SortAllPeaks(scans.value, le), Keyed(scans.value.scans, |scans.value.scans|)))
  {
    if scans.None? {
      return None;
    }
    var l := scans.value;
    var out: seq<Scan> := [];
    var order: seq<int> := [];
    var at: map<int, nat> := map[];
    var j := 0;
    while j < |l.scans|
      invariant 0 <= j <= |l.scans|
      invariant |out| == j && forall m :: 0 <= m < j ==> out[m] == SortPeaks(l.peaks, l.scans[m], le)
      invariant Keying(order, at) == Keyed(l.scans, j)
    {
      var s := l.scans[j];
      assert Keyed(l.scans, j + 1) == Keying(if s.scanNo in at then order else order + [s.scanNo], at[s.scanNo := j]);
      out := out + [s.(peaklist := Sort(s.peaklist, RefOrder(l.peaks, le)))];
      if s.scanNo !in at {
        order := order + [s.scanNo];
      }
      at := at[s.scanNo := j];
      j := j + 1;
    }
    assert ScanList(out, l.peaks) == SortAllPeaks(l, le);
    r := Some((ScanList(out, l.peaks), Keying(order, at)));
  }

  // ----- filterPeakList -----

  /** IMSFileReader.FILTER_PERCENTAGE; any other cut-off type is an absolute threshold. */
  const FilterPercentage: string := "Percentage"

  /** A reference filterPeakList keeps: a peak with positive m/z above the threshold. */
  predicate Keeps(peaks: seq<Peak>, x: PeakRef, threshold: real)
    requires x < |peaks|
  {
    peaks[x].mz > 0.0 && peaks[x].intensity > threshold
  }

  /** The new peak list: the kept references, in their order. */
  function KeptRefs(peaks: seq<Peak>, list: seq<PeakRef>, threshold: real): seq<PeakRef>
    requires forall k :: 0 <= k < |list| ==> list[k] < |peaks|
  {
    if |list| == 0 then []
    else
      var rest := KeptRefs(peaks, list[..|list| - 1], threshold);
      var x := list[|list| - 1];
      if Keeps(peaks, x, threshold) then rest + [x] else rest
  }

  /** The peaks with positive m/z: what totalNumPeaks counts. */
  function MzCount(peaks: seq<Peak>, list: seq<PeakRef>): nat
    requires forall k :: 0 <= k < |list| ==> list[k] < |peaks|
  {
    if |list| == 0 then 0
    else MzCount(peaks, list[..|list| - 1]) + (if peaks[list[|list| - 1]].mz > 0.0 then 1 else 0)
  }

  /** What totalIntensity sums: the m/z, not the intensity, of the peaks with positive m/z. */
  function MzTotal(peaks: seq<Peak>, list: seq<PeakRef>): real
    requires forall k :: 0 <= k < |list| ==> list[k] < |peaks|
  {
    if |list| == 0 then 0.0
    else MzTotal(peaks, list[..|list| - 1]) + (if peaks[list[|list| - 1]].mz > 0.0 then peaks[list[|list| - 1]].mz else 0.0)
  }

  /** `xs` is `ys` with some elements left out, the rest in order. */
  predicate SubsequenceOf<T(==)>(xs: seq<T>, ys: seq<T>)
    decreases |ys|
  {
    if |xs| == 0 then true
    else if |ys| == 0 then false
    else (xs[|xs| - 1] == ys[|ys| - 1] && SubsequenceOf(xs[..|xs| - 1], ys[..|ys| - 1])) ||
         SubsequenceOf(xs, ys[..|ys| - 1])
  }

  /**
   * The kept list is an order-preserving subsequence of the old one; it
   * holds a reference exactly when the old list does and the peak passes;
   * it is no longer than the count of positive m/z peaks.
   */
  lemma KeptRefsSpec(peaks: seq<Peak>, list: seq<PeakRef>, threshold: real)
    requires forall k :: 0 <= k < |list| ==> list[k] < |peaks|
    ensures var kept := KeptRefs(peaks, list, threshold);
      SubsequenceOf(kept, list) &&
      (forall x :: x in kept <==> x in list && Keeps(peaks, x, threshold)) &&
      |kept| <= MzCount(peaks, list) <= |list|
  {
    KeptRefsOrder(peaks, list, threshold);
    KeptRefsMembers(peaks, list, threshold);
    KeptRefsCount(peaks, list, threshold);
  }

  lemma {:induction false} KeptRefsOrder(peaks: seq<Peak>, list: seq<PeakRef>, threshold: real)
    requires forall k :: 0 <= k < |list| ==> list[k] < |peaks|
    ensures SubsequenceOf(KeptRefs(peaks, list, threshold), list)
  {
    if |list| > 0 {
      var init := list[..|list| - 1];
      KeptRefsOrder(peaks, init, threshold);
      var kept := KeptRefs(peaks, list, threshold);
      var rest := KeptRefs(peaks, init, threshold);
      if Keeps(peaks, list[|list| - 1], threshold) {
        assert kept[..|kept| - 1] == rest;
      }
    }
  }

  lemma {:induction false} KeptRefsMembers(peaks: seq<Peak>, list: seq<PeakRef>, threshold: real)
    requires forall k :: 0 <= k < |list| ==> list[k] < |peaks|
    ensures forall x :: x in KeptRefs(peaks, list, threshold) <==> x in list && Keeps(peaks, x, threshold)
  {
    if |list| > 0 {
      var init := list[..|list| - 1];
      KeptRefsMembers(peaks, init, threshold);
      assert list == init + [list[|list| - 1]];
    }
  }

  lemma {:induction false} KeptRefsCount(peaks: seq<Peak>, list: seq<PeakRef>, threshold: real)
    requires forall k :: 0 <= k < |list| ==> list[k] < |peaks|
    ensures |KeptRefs(peaks, list, threshold)| <= MzCount(peaks, list) <= |list|
  {
    if |list| > 0 {
      KeptRefsCount(peaks, list[..|list| - 1], threshold);
    }
  }

  /** The total is positive exactly when some peak has a positive m/z. */
  lemma {:induction false} MzTotalPositive(peaks: seq<Peak>, list: seq<PeakRef>)
    requires forall k :: 0 <= k < |list| ==> list[k] < |peaks|
    ensures MzTotal(peaks, list) >= 0.0
    ensures MzTotal(peaks, list) > 0.0 <==> MzCount(peaks, list) > 0
  {
    if |list| > 0 {
      MzTotalPositive(peaks, list[..|list| - 1]);
    }
  }

  /** The threshold filterPeakList compares intensities with. */
  function Threshold(mostAbundant: real, cutOff: real, percentage: bool): real
  {
    if !percentage then cutOff
    else if mostAbundant != 0.0 then mostAbundant * (cutOff / 100.0)
    else 0.0
  }

  /**
   * filterPeakList on one scan: a percentage filter on a scan without a most
   * abundant intensity throws before any change, so the scan stays as it is;
   * otherwise the kept list and the two totals replace the old ones.
   */
  function FilteredScan(peaks: seq<Peak>, s: Scan, cutOff: real, cutOffType: string): Scan
    requires ScanRefsOk(peaks, s)
  {
    var percentage := cutOffType == FilterPercentage;
    if percentage && s.mostAbundantPeak.None? then s
    else
      var t := Threshold(if percentage then s.mostAbundantPeak.value else 0.0, cutOff, percentage);
      s.(totalNumPeaks := Some(MzCount(peaks, s.peaklist)), totalIntensity := Some(MzTotal(peaks, s.peaklist)),
         peaklist := KeptRefs(peaks, s.peaklist, t))
  }

  /**
   * What filtering promises: only the peak list and the two totals change;
   * kept peaks have positive m/z and an intensity above the cut-off (the
   * percentage of the most abundant intensity, or above 0 when that is 0);
   * the count is that of the positive m/z peaks.
   */
  lemma FilteredScanSpec(peaks: seq<Peak>, s: Scan, cutOff: real, cutOffType: string)
    requires ScanRefsOk(peaks, s)
    ensures var s' := FilteredScan(peaks, s, cutOff, cutOffType);
      s' == s.(peaklist := s'.peaklist, totalNumPeaks := s'.totalNumPeaks, totalIntensity := s'.totalIntensity) &&
      ScanRefsOk(peaks, s') &&
      SubsequenceOf(s'.peaklist, s.peaklist)
    ensures !(cutOffType == FilterPercentage && s.mostAbundantPeak.None?) ==>
      var s' := FilteredScan(peaks, s, cutOff, cutOffType);
      s'.totalNumPeaks == Some(MzCount(peaks, s.peaklist)) &&
      s'.totalIntensity == Some(MzTotal(peaks, s.peaklist)) &&
      (cutOffType != FilterPercentage ==>
        forall x :: x in s'.peaklist <==> x in s.peaklist && peaks[x].mz > 0.0 && peaks[x].intensity > cutOff) &&
      (cutOffType == FilterPercentage ==> var top := s.mostAbundantPeak.value;
        forall x :: x in s'.peaklist <==>
          (x in s.peaklist && peaks[x].mz > 0.0 && peaks[x].intensity > (if top != 0.0 then top * cutOff / 100.0 else 0.0)))
  {
    var percentage := cutOffType == FilterPercentage;
    if !(percentage && s.mostAbundantPeak.None?) {
      var t := Threshold(if percentage then s.mostAbundantPeak.value else 0.0, cutOff, percentage);
      KeptRefsSpec(peaks, s.peaklist, t);
      var s' := FilteredScan(peaks, s, cutOff, cutOffType);
      forall k | 0 <= k < |s'.peaklist| ensures s'.peaklist[k] < |peaks| {
        assert s'.peaklist[k] in s.peaklist;
      }
    } else {
      SubsequenceSelf(s.peaklist);
    }
  }

  /** Every list is a subsequence of itself. */
  lemma {:induction false} SubsequenceSelf<T>(xs: seq<T>)
    ensures SubsequenceOf(xs, xs)
    decreases |xs|
  {
    if |xs| > 0 {
      SubsequenceSelf(xs[..|xs| - 1]);
    }
  }

  /** totalIntensity sums m/z: a single peak at m/z 100 with intensity 5 gives a total of 100. */
  lemma TotalSumsMz()
    ensures var peaks := [NewPeak(1, 100.0, 5.0)];
      var s := Scan(1, 2, None, None, None, None, None, 0.0, 0.0, Some(5.0), None, None, [0], [], None);
      FilteredScan(peaks, s, 1.0, "Absolute Value").totalIntensity == Some(100.0)
  {
    var peaks := [NewPeak(1, 100.0, 5.0)];
    assert [0][..0] == [];
  }

  /** The loop of filterPeakList over a peak list. */
  method FilterPeakList(peaks: seq<Peak>, s: Scan, cutOff: real, cutOffType: string) returns (s': Scan)
    requires ScanRefsOk(peaks, s)
    ensures s' == FilteredScan(peaks, s, cutOff, cutOffType)
  {
    var percentage := cutOffType == FilterPercentage;
    var maxIntensity, minIntensity := 0.0, 0.0;
    if percentage {
      if s.mostAbundantPeak.None? {
        return s;
      }
      maxIntensity := s.mostAbundantPeak.value;
    }
    if maxIntensity != 0.0 {
      minIntensity := maxIntensity * (cutOff / 100.0);
    }
    var threshold := if percentage then minIntensity else cutOff;
    assert threshold == Threshold(if percentage then s.mostAbundantPeak.value else 0.0, cutOff, percentage);
    var list := s.peaklist;
    var kept: seq<PeakRef> := [];
    var total := 0.0;
    var count := 0;
    var i := 0;
    while i < |list|
      invariant 0 <= i <= |list|
      invariant kept == KeptRefs(peaks, list[..i], threshold)
      invariant count == MzCount(peaks, list[..i]) && total == MzTotal(peaks, list[..i])
    {
      assert list[..i + 1][..i] == list[..i];
      var p := peaks[list[i]];
      if p.mz > 0.0 {
        count := count + 1;
        total := total + p.mz;
        if p.intensity > threshold {
          kept := kept + [list[i]];
        }
      }
      i := i + 1;
    }
    assert list[..i] == list;
    s' := s.(totalNumPeaks := Some(count), totalIntensity := Some(total), peaklist := kept);
  }

  // ----- listToFilteredHashMap -----

  /** One scan through listToFilteredHashMap: the fragment filter off MS1, the precursor filter on MS1. */
  function FilterForLevel(peaks: seq<Peak>, s: Scan, fragCutoff: real, fragType: Option<string>,
                          preCutoff: real, preType: Option<string>): Scan
    requires ScanRefsOk(peaks, s)
  {
    if fragType.Some? && fragCutoff > 0.0 && s.msLevel != 1 then FilteredScan(peaks, s, fragCutoff, fragType.value)
    else if preType.Some? && preCutoff > 0.0 && s.msLevel == 1 then FilteredScan(peaks, s, preCutoff, preType.value)
    else s
  }

  /** A scan is filtered at most once, and only when its filter is set with a positive cut-off. */
  lemma FilterForLevelSpec(peaks: seq<Peak>, s: Scan, fragCutoff: real, fragType: Option<string>,
                           preCutoff: real, preType: Option<string>)
    requires ScanRefsOk(peaks, s)
    ensures var s' := FilterForLevel(peaks, s, fragCutoff, fragType, preCutoff, preType);
      s'.scanNo == s.scanNo && s'.msLevel == s.msLevel && ScanRefsOk(peaks, s') &&
      (s.msLevel != 1 && fragType.Some? && fragCutoff > 0.0 ==> s' == FilteredScan(peaks, s, fragCutoff, fragType.value)) &&
      (s.msLevel == 1 && preType.Some? && preCutoff > 0.0 ==> s' == FilteredScan(peaks, s, preCutoff, preType.value)) &&
      (s.msLevel != 1 && !(fragType.Some? && fragCutoff > 0.0) ==> s' == s) &&
      (s.msLevel == 1 && !(preType.Some? && preCutoff > 0.0) ==> s' == s)
  {
    if fragType.Some? && fragCutoff > 0.0 && s.msLevel != 1 {
      FilteredScanSpec(peaks, s, fragCutoff, fragType.value);
    } else if preType.Some? && preCutoff > 0.0 && s.msLevel == 1 {
      FilteredScanSpec(peaks, s, preCutoff, preType.value);
    }
  }

  /**
   * listToFilteredHashMap: each scan filtered for its level, then keyed by
   * number. A null list throws at the loop and leaves the map empty.
   */
  method ListToFilteredHashMap(scans: Option<ScanList>, fragCutoff: real, fragType: Option<string>,
                               preCutoff: real, preType: Option<string>)
      returns (out: Option<ScanList>, at: map<int, nat>)
    requires scans.Some? ==> ScanListOk(scans.value)
    ensures scans.None? ==> out.None? && at == map[]
    ensures scans.Some? ==> var l := scans.value;
      out.Some? && out.value.peaks == l.peaks && |out.value.scans| == |l.scans| &&
      (forall j :: 0 <= j < |l.scans| ==>
        out.value.scans[j] == FilterForLevel(l.peaks, l.scans[j], fragCutoff, fragType, preCutoff, preType)) &&
      at == Keyed(l.scans, |l.scans|).at
  {
    if scans.None? {
      return None, map[];
    }
    var l := scans.value;
    var filtered: seq<Scan> := [];
    var order: seq<int> := [];
    at := map[];
    var j := 0;
    while j < |l.scans|
      invariant 0 <= j <= |l.scans|
      invariant |filtered| == j
      invariant forall m :: 0 <= m < j ==> filtered[m] == FilterForLevel(l.peaks, l.scans[m], fragCutoff, fragType, preCutoff, preType)
      invariant Keying(order, at) == Keyed(l.scans, j)
    {
      var s := l.scans[j];
      assert ScanRefsOk(l.peaks, s);
      var s' := FilterOne(l.peaks, s, fragCutoff, fragType, preCutoff, preType);
      FilterForLevelSpec(l.peaks, s, fragCutoff, fragType, preCutoff, preType);
      assert Keyed(l.scans, j + 1) == Keying(if s.scanNo in at then order else order + [s.scanNo], at[s.scanNo := j]);
      filtered := filtered + [s'];
      if s'.scanNo !in at {
        order := order + [s'.scanNo];
      }
      at := at[s'.scanNo := j];
      j := j + 1;
    }
    out := Some(ScanList(filtered, l.peaks));
  }

  /** The filter of one scan of the loop, as the source writes it. */
  method FilterOne(peaks: seq<Peak>, s: Scan, fragCutoff: real, fragType: Option<string>,
                   preCutoff: real, preType: Option<string>) returns (s': Scan)
    requires ScanRefsOk(peaks, s)
    ensures s' == FilterForLevel(peaks, s, fragCutoff, fragType, preCutoff, preType)
  {
    s' := s;
    if fragType.Some? && fragCutoff > 0.0 && s.msLevel != 1 {
      s' := FilterPeakList(peaks, s, fragCutoff, fragType.value);
    }
    if preType.Some? && preCutoff > 0.0 && s.msLevel == 1 {
      s' := FilterPeakList(peaks, s, preCutoff, preType.value);
    }
  }
}
