/**
 * MSXMLReader: the external-quantitation reader. It reads one scan list
 * through readMzXmlFile with its selectors, takes the scan numbered 1, and
 * matches every marked precursor peak it was given against that scan's peak
 * list, keeping a QuantPeak for each precursor that matches. Any exception
 * inside read is caught, and read returns whatever m_data then holds.
 */
module QuantReader {
  import opened Wrappers
  import opened Spectra
  import opened Records
  import opened ScanData
  import opened Readers
  import opened ScanMaps
  import opened QuantSearch
  import opened QuantData

  /** One precursor that matched: its m/z, the sum written into its QuantPeak, and its match's fields. */
  datatype Hit = Hit(mz: real, sum: real, fields: MatchFields)

  /**
   * The matching loop over the precursor peaks: an unmarked peak is skipped,
   * a marked one is searched for with its own tolerance, and a match adds a hit.
   */
  function Hits(prec: seq<Peak>, dest: seq<Peak>, interval: real, ppm: bool): seq<Hit>
  {
    if |prec| == 0 then []
    else
      var rest := Hits(prec[..|prec| - 1], dest, interval, ppm);
      var p := prec[|prec| - 1];
      if !p.isPrecursor then rest
      else
        var tol := DaTolerance(p.mz, interval, ppm);
        match MatchOf(Some(dest), p.mz, tol)
        case None => rest
        case Some(f) => rest + [Hit(p.mz, f.gathered.sum, FoundFields(dest, f, tol))]
  }

  /** The hits of a precursor list are those of its halves, in order. */
  lemma {:induction false} HitsAppend(prec: seq<Peak>, more: seq<Peak>, dest: seq<Peak>, interval: real, ppm: bool)
    ensures Hits(prec + more, dest, interval, ppm) == Hits(prec, dest, interval, ppm) + Hits(more, dest, interval, ppm)
    decreases |more|
  {
    if |more| == 0 {
      assert prec + more == prec;
    } else {
      assert (prec + more)[..|prec + more| - 1] == prec + more[..|more| - 1];
      HitsAppend(prec, more[..|more| - 1], dest, interval, ppm);
    }
  }

  /**
   * One hit per marked precursor that matches under its own getDaTolerance,
   * none for the others; so no marked precursor means no hit.
   */
  lemma {:induction false} HitsOne(p: Peak, dest: seq<Peak>, interval: real, ppm: bool)
    ensures var hs, tol := Hits([p], dest, interval, ppm), DaTolerance(p.mz, interval, ppm);
      (|hs| == 1 <==> p.isPrecursor && MatchOf(Some(dest), p.mz, tol).Some?) &&
      (|hs| != 1 ==> hs == []) &&
      (|hs| == 1 ==> var f := MatchOf(Some(dest), p.mz, tol).value;
        hs[0] == Hit(p.mz, f.gathered.sum, FoundFields(dest, f, tol)))
  {
    assert [p][..0] == [];
  }

  /** At most one hit per precursor peak, none from an unmarked one. */
  lemma {:induction false} HitsBound(prec: seq<Peak>, dest: seq<Peak>, interval: real, ppm: bool)
    ensures |Hits(prec, dest, interval, ppm)| <= |prec|
    ensures (forall k :: 0 <= k < |prec| ==> !prec[k].isPrecursor) ==> Hits(prec, dest, interval, ppm) == []
  {
    if |prec| > 0 {
      var init := prec[..|prec| - 1];
      HitsBound(init, dest, interval, ppm);
      if forall k :: 0 <= k < |prec| ==> !prec[k].isPrecursor {
        assert forall k :: 0 <= k < |init| ==> !init[k].isPrecursor by {
          forall k | 0 <= k < |init| ensures !init[k].isPrecursor {
            assert init[k] == prec[k];
          }
        }
      }
    }
  }

  /** What read leaves behind. */
  datatype ReadOutcome =
    | Kept                                        // thrown before m_data was replaced
    | Fresh(fields: DataFields, hits: seq<Hit>)   // a new QuantPeakData with these fields and peaks

  /** The selectors as readMzXmlFile gets them; an unset one throws on unboxing. */
  function SelectionOf(msLevel: Option<int>, parentScanNum: Option<int>, scanNum: Option<int>): Option<Selection>
  {
    if msLevel.None? || parentScanNum.None? || scanNum.None? then None
    else Some(Selection(msLevel.value, parentScanNum.value, scanNum.value))
  }

  /** The scan list readMzXmlFile gives a fresh (never canceled) reader. */
  function ReadScans(src: Source, sel: Selection, scanLe: (Scan, Scan) -> bool): (r: ScanList)
    ensures ScanListOk(r)
  {
    ScanDataRefsOk(src, sel, NeverCanceled());
    SortListOk(ScanDataOf(src, sel, NeverCanceled()), scanLe);
    SortList(Some(ScanDataOf(src, sel, NeverCanceled())), scanLe).value
  }

  /**
   * The scan listToHashMap binds to key 1: the last scan numbered 1, and
   * none when no scan has that number.
   */
  function ScanOne(scans: seq<Scan>): (r: Option<nat>)
    ensures r.None? <==> forall j :: 0 <= j < |scans| ==> scans[j].scanNo != 1
    ensures r.Some? ==>
      r.value < |scans| && scans[r.value].scanNo == 1 &&
      forall j :: r.value < j < |scans| ==> scans[j].scanNo != 1
  {
    KeyedSpec(scans, |scans|);
    var at := Keyed(scans, |scans|).at;
    if 1 in at then Some(at[1]) else None
  }

  /**
   * What read builds once the list is read: a missing scan 1, a null most
   * abundant intensity, a null retention time or a null precursor list
   * throw after m_data was replaced, leaving the new data as far as it got;
   * otherwise one hit per matching precursor.
   */
  function Build(l: ScanList, one: Option<nat>, prec: Option<seq<Peak>>, interval: real, ppm: bool): ReadOutcome
    requires ScanListOk(l) && (one.Some? ==> one.value < |l.scans|)
  {
    if one.None? then Fresh(DefaultDataFields, [])
    else
      var s := l.scans[one.value];
      if s.mostAbundantPeak.None? then Fresh(DefaultDataFields, [])
      else
        var f1 := DefaultDataFields.(maxIntensity := s.mostAbundantPeak.value, scanNo := s.scanNo);
        if s.retentionTime.None? then Fresh(f1, [])
        else
          var f2 := f1.(retentionTime := s.retentionTime.value);
          if prec.None? then Fresh(f2, [])
          else Fresh(f2, Hits(prec.value, Deref(l.peaks, s.peaklist), interval, ppm))
  }

  /** read as a function of what it reads: unset selectors throw before anything changes. */
  function ReadOf(src: Source, prec: Option<seq<Peak>>, sel: Option<Selection>, ppm: bool, interval: real,
                  scanLe: (Scan, Scan) -> bool, peakLe: (Peak, Peak) -> bool): ReadOutcome
  {
    if sel.None? then Kept
    else
      var r := ReadScans(src, sel.value, scanLe);
      SortAllPeaksOk(r, peakLe);
      Build(SortAllPeaks(r, peakLe), ScanOne(r.scans), prec, interval, ppm)
  }

  /**
   * Only unset selectors keep the old data; a new data set holds at most
   * one QuantPeak per precursor peak, none without a precursor list; its
   * scan fields come from the last scan numbered 1, and without such a
   * scan it keeps every default and holds nothing.
   */
  lemma ReadOfSpec(src: Source, prec: Option<seq<Peak>>, sel: Option<Selection>, ppm: bool, interval: real,
                   scanLe: (Scan, Scan) -> bool, peakLe: (Peak, Peak) -> bool)
    ensures sel.None? <==> ReadOf(src, prec, sel, ppm, interval, scanLe, peakLe).Kept?
    ensures var o := ReadOf(src, prec, sel, ppm, interval, scanLe, peakLe);
      o.Fresh? ==> (prec.Some? ==> |o.hits| <= |prec.value|) && (prec.None? ==> o.hits == [])
    ensures sel.Some? ==> var scans := ReadScans(src, sel.value, scanLe).scans;
      var o := ReadOf(src, prec, sel, ppm, interval, scanLe, peakLe);
      ((forall j :: 0 <= j < |scans| ==> scans[j].scanNo != 1) ==> o == Fresh(DefaultDataFields, [])) &&
      (o.Fresh? && o.fields != DefaultDataFields ==>
        exists j :: 0 <= j < |scans| && scans[j].scanNo == 1 && o.fields.scanNo == 1 &&
          Some(o.fields.maxIntensity) == scans[j].mostAbundantPeak &&
          forall m :: j < m < |scans| ==> scans[m].scanNo != 1)
  {
    if sel.Some? {
      var r := ReadScans(src, sel.value, scanLe);
      SortAllPeaksOk(r, peakLe);
      var l := SortAllPeaks(r, peakLe);
      var one := ScanOne(r.scans);
      if one.Some? {
        var s := l.scans[one.value];
        if s.mostAbundantPeak.Some? && s.retentionTime.Some? && prec.Some? {
          HitsBound(prec.value, Deref(l.peaks, s.peaklist), interval, ppm);
        }
        assert s.scanNo == 1;
      }
    }
  }

  /** What a QuantPeak of the result holds for a hit: its m/z and sum, and exactly one match, tied to it. */
  ghost predicate Holds(qp: QuantPeak, h: Hit)
    reads qp, qp.matches
  {
    qp.Fields() == NoPeakFields.(mz := Some(h.mz), sumIntensity := Some(h.sum)) &&
    |qp.matches| == 1 && qp.matches[0].parent == qp && qp.matches[0].Fields() == h.fields
  }

  class MsXmlReader {
    var precursorPeaks: Option<seq<Peak>>
    var msLevel: Option<int>
    var parentScanNum: Option<int>
    var scanNum: Option<int>
    var ppm: bool
    var intervalValue: real
    var data: QuantPeakData?

    /** A fresh reader: no precursor list, no selectors, no data, and the inherited defaults false and 500. */
    constructor()
      ensures precursorPeaks.None? && msLevel.None? && parentScanNum.None? && scanNum.None?
      ensures !ppm && intervalValue == 500.0 && data == null
    {
      precursorPeaks, msLevel, parentScanNum, scanNum := None, None, None, None;
      ppm, intervalValue, data := false, 500.0, null;
    }

    method SetPrecursorPeaks(list: Option<seq<Peak>>)
      modifies this
      ensures precursorPeaks == list
      ensures msLevel == old(msLevel) && parentScanNum == old(parentScanNum) && scanNum == old(scanNum)
      ensures ppm == old(ppm) && intervalValue == old(intervalValue) && data == old(data)
    {
      precursorPeaks := list;
    }

    method SetMsLevel(n: int)
      modifies this
      ensures msLevel == Some(n)
      ensures precursorPeaks == old(precursorPeaks) && parentScanNum == old(parentScanNum) && scanNum == old(scanNum)
      ensures ppm == old(ppm) && intervalValue == old(intervalValue) && data == old(data)
    {
      msLevel := Some(n);
    }

    method SetParentScanNum(n: int)
      modifies this
      ensures parentScanNum == Some(n)
      ensures precursorPeaks == old(precursorPeaks) && msLevel == old(msLevel) && scanNum == old(scanNum)
      ensures ppm == old(ppm) && intervalValue == old(intervalValue) && data == old(data)
    {
      parentScanNum := Some(n);
    }

    method SetScanNum(n: int)
      modifies this
      ensures scanNum == Some(n)
      ensures precursorPeaks == old(precursorPeaks) && msLevel == old(msLevel) && parentScanNum == old(parentScanNum)
      ensures ppm == old(ppm) && intervalValue == old(intervalValue) && data == old(data)
    {
      scanNum := Some(n);
    }

    /**
     * The three-argument read: ppm and interval are stored first; what
     * follows is ReadOf, with the objects of the new data fresh and distinct.
     */
    method Read(src: Source, ppmIn: bool, interval: real, scanLe: (Scan, Scan) -> bool, peakLe: (Peak, Peak) -> bool)
        returns (d: QuantPeakData?)
      modifies this
      ensures ppm == ppmIn && intervalValue == interval && d == data
      ensures precursorPeaks == old(precursorPeaks) && msLevel == old(msLevel) &&
              parentScanNum == old(parentScanNum) && scanNum == old(scanNum)
      ensures var o := ReadOf(src, old(precursorPeaks), SelectionOf(old(msLevel), old(parentScanNum), old(scanNum)),
                              ppmIn, interval, scanLe, peakLe);
        (o.Kept? ==> data == old(data)) &&
        (o.Fresh? ==>
          data != null && fresh(data) && data.Fields() == o.fields && |data.peaks| == |o.hits| &&
          (forall k :: 0 <= k < |o.hits| ==> fresh(data.peaks[k]) && Holds(data.peaks[k], o.hits[k])) &&
          (forall a, b :: 0 <= a < b < |data.peaks| ==> data.peaks[a] != data.peaks[b]))
    {
      ppm := ppmIn;
      intervalValue := interval;
      var sel := SelectionOf(msLevel, parentScanNum, scanNum);
      if sel.None? {
        return data;
      }
      var scans := ReadMzXmlFile(src, sel.value, NeverCanceled(), scanLe);
      var keyed := ListToHashMap(scans, peakLe);
      var l, keys := keyed.value.0, keyed.value.1;
      ghost var r := ReadScans(src, sel.value, scanLe);
      assert keys == Keyed(r.scans, |r.scans|) && l == SortAllPeaks(r, peakLe);
      SortAllPeaksOk(r, peakLe);
      var one := if 1 in keys.at then Some(keys.at[1]) else None;
      assert one == ScanOne(r.scans);
      data := BuildData(l, one, precursorPeaks, interval, ppmIn);
      d := data;
    }

    /** The six-argument read: the selectors are stored, then the three-argument read runs. */
    method ReadWithSelectors(src: Source, ppmIn: bool, interval: real, level: int, parent: int, number: int,
                             scanLe: (Scan, Scan) -> bool, peakLe: (Peak, Peak) -> bool)
        returns (d: QuantPeakData?)
      modifies this
      ensures msLevel == Some(level) && parentScanNum == Some(parent) && scanNum == Some(number)
      ensures ppm == ppmIn && intervalValue == interval && d == data && precursorPeaks == old(precursorPeaks)
      ensures var o := ReadOf(src, old(precursorPeaks), Some(Selection(level, parent, number)), ppmIn, interval, scanLe, peakLe);
        o.Fresh? && data != null && fresh(data) && data.Fields() == o.fields && |data.peaks| == |o.hits| &&
        (forall k :: 0 <= k < |o.hits| ==> fresh(data.peaks[k]) && Holds(data.peaks[k], o.hits[k])) &&
        (forall a, b :: 0 <= a < b < |data.peaks| ==> data.peaks[a] != data.peaks[b])
    {
      SetMsLevel(level);
      SetParentScanNum(parent);
      SetScanNum(number);
      d := Read(src, ppmIn, interval, scanLe, peakLe);
    }
  }

  /** The part of read after the list is read: a new QuantPeakData, filled as far as Build gets. */
  method BuildData(l: ScanList, one: Option<nat>, prec: Option<seq<Peak>>, interval: real, ppm: bool)
      returns (nd: QuantPeakData)
    requires ScanListOk(l) && (one.Some? ==> one.value < |l.scans|)
    ensures var o := Build(l, one, prec, interval, ppm);
      o.Fresh? && fresh(nd) && nd.Fields() == o.fields && |nd.peaks| == |o.hits| &&
      (forall k :: 0 <= k < |o.hits| ==> fresh(nd.peaks[k]) && Holds(nd.peaks[k], o.hits[k])) &&
      (forall a, b :: 0 <= a < b < |nd.peaks| ==> nd.peaks[a] != nd.peaks[b])
  {
    nd := new QuantPeakData();
    if one.None? {
      return;
    }
    var s := l.scans[one.value];
    if s.mostAbundantPeak.None? {
      return;
    }
    nd.SetMaxIntensity(s.mostAbundantPeak.value);
    nd.SetScanNo(s.scanNo);
    if s.retentionTime.None? {
      return;
    }
    nd.SetRetentionTime(s.retentionTime.value);
    if prec.None? {
      return;
    }
    assert ScanRefsOk(l.peaks, s);
    MatchAll(nd, prec.value, Deref(l.peaks, s.peaklist), interval, ppm);
  }

  /**
   * The loop of read over the precursor list: each marked precursor gets a
   * new QuantPeak at its m/z, is searched for, and is kept with its one
   * match when the search succeeds.
   */
  method MatchAll(nd: QuantPeakData, prec: seq<Peak>, dest: seq<Peak>, interval: real, ppm: bool)
    requires nd.peaks == []
    modifies nd
    ensures nd.Fields() == old(nd.Fields())
    ensures |nd.peaks| == |Hits(prec, dest, interval, ppm)|
    ensures forall k :: 0 <= k < |nd.peaks| ==>
      fresh(nd.peaks[k]) && Holds(nd.peaks[k], Hits(prec, dest, interval, ppm)[k])
    ensures forall a, b :: 0 <= a < b < |nd.peaks| ==> nd.peaks[a] != nd.peaks[b]
  {
    var i := 0;
    while i < |prec|
      invariant 0 <= i <= |prec|
      invariant nd.Fields() == old(nd.Fields())
      invariant |nd.peaks| == |Hits(prec[..i], dest, interval, ppm)|
      invariant forall k :: 0 <= k < |nd.peaks| ==>
        fresh(nd.peaks[k]) && Holds(nd.peaks[k], Hits(prec[..i], dest, interval, ppm)[k])
      invariant forall a, b :: 0 <= a < b < |nd.peaks| ==> nd.peaks[a] != nd.peaks[b]
    {
      var peak := prec[i];
      HitsAppend(prec[..i], [peak], dest, interval, ppm);
      assert prec[..i + 1] == prec[..i] + [peak];
      MatchOne(nd, peak, dest, interval, ppm, Hits(prec[..i], dest, interval, ppm));
      i := i + 1;
    }
    assert prec[..i] == prec;
  }

  /** One pass of that loop: a marked peak's new QuantPeak, added to the data with its match when the search succeeds. */
  method MatchOne(nd: QuantPeakData, peak: Peak, dest: seq<Peak>, interval: real, ppm: bool, ghost hits: seq<Hit>)
    requires |nd.peaks| == |hits| && forall k :: 0 <= k < |nd.peaks| ==> Holds(nd.peaks[k], hits[k])
    requires forall a, b :: 0 <= a < b < |nd.peaks| ==> nd.peaks[a] != nd.peaks[b]
    modifies nd
    ensures nd.Fields() == old(nd.Fields())
    ensures var hs, n := Hits([peak], dest, interval, ppm), |old(nd.peaks)|;
      |nd.peaks| == n + |hs| && nd.peaks[..n] == old(nd.peaks) &&
      (|hs| == 1 ==> fresh(nd.peaks[n])) &&
      (forall k :: 0 <= k < |nd.peaks| ==> Holds(nd.peaks[k], (hits + hs)[k]))
    ensures forall a, b :: 0 <= a < b < |nd.peaks| ==> nd.peaks[a] != nd.peaks[b]
  {
    HitsOne(peak, dest, interval, ppm);
    if peak.isPrecursor {
      var qp := QuantPeak.GetQuantPeakData(peak.mz);
      var tol := DaTolerance(peak.mz, interval, ppm);
      var qpm := QuantPeakMatch.FindQuantPeakMatch(qp, peak.mz, Some(dest), tol);
      if qpm != null {
        var _ := qp.Add(qpm);
        var _ := nd.Add(qp);
      }
    }
  }
}
