/**
 * The Peak and Scan objects the readers build, with only the fields they set.
 * Both are shared and mutated by identity (a precursor peak sits in its
 * parent's peak list and is referenced by the child scan; a scan map and a
 * result list hold the same scan), so objects live in a `Heap`: an arena per
 * class, a reference being an index into it.
 */
module Records {
  import opened Wrappers
  import opened Spectra

  type PeakRef = nat
  type ScanRef = nat

  /** Peak; fields the source never sets keep the class defaults (false / null). */
  datatype Peak = Peak(
    id: int,
    mz: real,
    intensity: real,
    relativeIntensity: Option<real>,
    isPrecursor: bool,
    precursorMz: Option<real>,
    precursorIntensity: Option<real>,
    precursorCharge: Option<int>,
    charge: Option<int>)

  /** new Peak() followed by setId, setMz and setIntensity. */
  function NewPeak(id: int, mz: real, intensity: real): (p: Peak)
    ensures p.id == id && p.mz == mz && p.intensity == intensity && !p.isPrecursor
  {
    Peak(id, mz, intensity, None, false, None, None, None, None)
  }

  /** Scan; `None` marks a field the reader left at its default. */
  datatype Scan = Scan(
    scanNo: int,
    msLevel: int,
    parentScan: Option<int>,
    polarity: Option<bool>,
    centroided: Option<bool>,
    activationMethod: Option<string>,
    retentionTime: Option<real>,
    scanStart: real,
    scanEnd: real,
    mostAbundantPeak: Option<real>,
    totalNumPeaks: Option<int>,
    totalIntensity: Option<real>,
    peaklist: seq<PeakRef>,
    subScans: seq<int>,
    precursor: Option<PeakRef>)

  /**
   * The setters every reader applies to a new Scan from a parsed header:
   * most abundant intensity, level, polarity, low/high m/z as scan start/end,
   * number, activation method, retention time when it parses, centroided.
   */
  function ScanOfHeader(h: ScanHeader, mostAbundant: real): (s: Scan)
    ensures s.scanNo == h.num && s.msLevel == h.msLevel && s.parentScan.None?
    ensures s.polarity == PolarityOf(h.polarity) && s.retentionTime == h.retentionTime
    ensures s.scanStart == h.lowMz && s.scanEnd == h.highMz
    ensures s.peaklist == [] && s.subScans == [] && s.precursor.None?
  {
    Scan(h.num, h.msLevel, None, PolarityOf(h.polarity), Some(h.centroided == 1),
      h.activationMethod, h.retentionTime, h.lowMz, h.highMz, Some(mostAbundant),
      None, None, [], [], None)
  }

  datatype Heap = Heap(peaks: seq<Peak>, scans: seq<Scan>)

  const EmptyHeap := Heap([], [])

  /** Every peak some scan refers to exists. */
  ghost predicate ScanRefsOk(peaks: seq<Peak>, s: Scan)
  {
    (forall k :: 0 <= k < |s.peaklist| ==> s.peaklist[k] < |peaks|) &&
    (s.precursor.Some? ==> s.precursor.value < |peaks|)
  }

  ghost predicate HeapOk(h: Heap)
  {
    forall r :: 0 <= r < |h.scans| ==> ScanRefsOk(h.peaks, h.scans[r])
  }

  /** No stored peak has a non-positive intensity unless it was marked as a precursor. */
  ghost predicate PeaksOk(peaks: seq<Peak>)
  {
    forall q :: 0 <= q < |peaks| ==> peaks[q].intensity > 0.0 || peaks[q].isPrecursor
  }

  /** A peak list read through the heap. */
  function Deref(peaks: seq<Peak>, list: seq<PeakRef>): (ps: seq<Peak>)
    requires forall k :: 0 <= k < |list| ==> list[k] < |peaks|
    ensures |ps| == |list| && forall k :: 0 <= k < |list| ==> ps[k] == peaks[list[k]]
  {
    seq(|list|, k requires 0 <= k < |list| => peaks[list[k]])
  }

  /** A reader's result: the scans it returns, and the peaks their lists refer to. */
  datatype ScanList = ScanList(scans: seq<Scan>, peaks: seq<Peak>)

  const EmptyScanList := ScanList([], [])

  ghost predicate ScanListOk(l: ScanList)
  {
    forall k :: 0 <= k < |l.scans| ==> ScanRefsOk(l.peaks, l.scans[k])
  }
}
