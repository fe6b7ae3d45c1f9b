/**
 * What the mzXML parser (jrap's MSXMLParser) hands the readers, reduced to
 * the values they read. The parser itself is not modelled: a file is a
 * `Source`, a total map from scan number to an optional parsed scan
 * (`rap(i)` returning null is a number the map does not hold).
 */
module Spectra {
  import opened Wrappers

  /** The header fields of one parsed scan (ScanHeader). */
  datatype ScanHeader = ScanHeader(
    num: int,
    msLevel: int,
    precursorScanNum: int,        // -1 when the file names no precursor scan
    precursorMz: real,
    precursorIntensity: real,
    precursorCharge: int,         // -1 when unknown
    polarity: Option<string>,
    lowMz: real,
    highMz: real,
    centroided: int,
    retentionTime: Option<real>,  // None: getDoubleRetentionTime throws
    totIonCurrent: real,
    activationMethod: Option<string>)

  datatype PeakArrays = PeakArrays(mz: seq<real>, intensity: seq<real>)

  /** getMassIntensityList: row 0 the m/z values, row 1 the intensities, of equal length. */
  type MassIntensityList = a: PeakArrays | |a.mz| == |a.intensity| witness PeakArrays([], [])

  /** One parsed scan; `massIntensity` is None when the parser returns a null array. */
  datatype RawScan = RawScan(header: ScanHeader, massIntensity: Option<MassIntensityList>)

  datatype Source = Source(maxScanNumber: int, scans: map<int, RawScan>)

  /** parser.rap(i) / parser.rapHeader(i). */
  function Rap(src: Source, i: int): (r: Option<RawScan>)
    ensures r.Some? <==> i in src.scans
  {
    if i in src.scans then Some(src.scans[i]) else None
  }

  /**
   * The points at which a reader asks isCanceled(). Cancellation is an input,
   * `canceled: Poll -> bool`, answered afresh at every point.
   */
  datatype Poll =
    | AtScan(i: int)              // top of the loop over scan numbers
    | AtPeak(i: int, j: int)      // inside a peak loop, scan i, peak j
    | AtMs1(k: int)               // k-th pass of the MS1 renumbering loop
    | AtCollect(k: int)           // k-th pass of the loop collecting the result
    | AtWarning                   // before a warning is sent

  /** A reader nobody cancels (a fresh reader object no other code can reach). */
  function NeverCanceled(): Poll -> bool
  {
    (p: Poll) => false
  }

  /** The polarity string: "+" is positive, any other non-empty string negative, null or "" unknown. */
  function PolarityOf(p: Option<string>): (r: Option<bool>)
    ensures r == Some(true) <==> p == Some("+")
    ensures r.None? <==> (p.None? || p == Some(""))
  {
    match p
    case None => None
    case Some(s) => if s == "" then None else Some(s == "+")
  }
}
