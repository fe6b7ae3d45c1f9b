/**
 * The reader's public entry points: the readMzXmlFile* shells, each of which
 * runs one builder and sorts the scans it returns, and the readMSFile
 * dispatch on the file's experiment type. A builder's null result makes the
 * shell's emptiness test throw; the shell catches that and returns null, so
 * a shell gives null exactly when its builder does.
 */
module Readers {
  import opened Wrappers
  import opened Spectra
  import opened Records
  import opened Sorting
  import opened ScanData
  import opened DirectInfusion
  import opened TotalIonMapping
  import opened LcMsMsSequential
  import opened LcMsMsSubScans
  import opened MsProfile

  /** The experiment types readMSFile tells apart; any other type is Other. */
  datatype ExperimentType = Infusion | Tim | Lc | Profiling | Other

  /**
   * Collections.sort on a builder's result, under the Scan order `le`: the
   * scans are reordered, the peak store is untouched, a null list stays null.
   */
  function SortList(built: Option<ScanList>, le: (Scan, Scan) -> bool): Option<ScanList>
  {
    match built
    case None => None
    case Some(l) => Some(ScanList(Sort(l.scans, le), l.peaks))
  }

  /**
   * A shell returns null exactly when the builder does; otherwise the same
   * scans, each as often, with the same peaks, and in order when `le` is a
   * total preorder.
   */
  lemma SortListSpec(built: Option<ScanList>, le: (Scan, Scan) -> bool)
    ensures SortList(built, le).None? <==> built.None?
    ensures built.Some? ==>
      SortList(built, le).value.peaks == built.value.peaks &&
      multiset(SortList(built, le).value.scans) == multiset(built.value.scans) &&
      |SortList(built, le).value.scans| == |built.value.scans|
    ensures built.Some? && TotalPreorder(le) ==> SortedBy(SortList(built, le).value.scans, le)
  {
    if built.Some? {
      SortPermutation(built.value.scans, le);
      SortLength(built.value.scans, le);
      if TotalPreorder(le) {
        SortSorted(built.value.scans, le);
      }
    }
  }

  /** Sorting keeps a list well-formed: every reference still names a stored peak. */
  lemma SortListOk(l: ScanList, le: (Scan, Scan) -> bool)
    requires ScanListOk(l)
    ensures SortList(Some(l), le).Some? && ScanListOk(SortList(Some(l), le).value)
  {
    var sorted := Sort(l.scans, le);
    SortPermutation(l.scans, le);
    forall k | 0 <= k < |sorted| ensures ScanRefsOk(l.peaks, sorted[k]) {
      assert sorted[k] in multiset(l.scans);
    }
  }

  /** readMzXmlFile: getScanData on the selectors, sorted; getScanData never gives null. */
  method ReadMzXmlFile(src: Source, sel: Selection, canceled: Poll -> bool, le: (Scan, Scan) -> bool)
      returns (out: Option<ScanList>)
    ensures out.Some?
    ensures out == SortList(Some(ScanDataOf(src, sel, canceled)), le)
  {
    var scans := GetScanData(src, sel, canceled);
    out := Some(ScanList(Sort(scans.scans, le), scans.peaks));
  }

  /** readMzXmlFileForTIM: addAllScansTIM, sorted. */
  method ReadMzXmlFileForTim(src: Source, canceled: Poll -> bool, le: (Scan, Scan) -> bool)
      returns (out: Option<ScanList>, ghost built: Option<ScanList>, ghost keys1: seq<real>, ghost keys2: seq<int>)
    ensures TimOutcome(src, canceled, built, keys1, keys2) && out == SortList(built, le)
  {
    var b;
    b, keys1, keys2 := AddAllScansTim(src, canceled);
    built := b;
    out := SortList(b, le);
  }

  /** readMzXmlFileForDirectInfusion: addAllScansDirectInfusion, sorted. */
  method ReadMzXmlFileForDirectInfusion(src: Source, canceled: Poll -> bool, le: (Scan, Scan) -> bool)
      returns (out: Option<ScanList>, ghost built: Option<ScanList>, ghost keys1: seq<real>, ghost keys2: seq<int>)
    ensures DiOutcome(src, canceled, built, keys1, keys2) && out == SortList(built, le)
  {
    var b;
    b, keys1, keys2 := AddAllScansDirectInfusion(src, canceled);
    built := b;
    out := SortList(b, le);
  }

  /**
   * readMzXmlFileForLCMSMS with a sub-scan map (None is the null map, which
   * the two-argument overload passes): addAllScansLCMSMS, sorted.
   */
  method ReadMzXmlFileForLcMsMs(src: Source, canceled: Poll -> bool, scanNumber: int,
                                subMap: Option<map<int, seq<int>>>, le: (Scan, Scan) -> bool)
      returns (out: Option<ScanList>, ghost built: Option<ScanList>, ghost keys1: seq<real>, ghost keys2: seq<int>)
    ensures MapOutcome(src, canceled, scanNumber, subMap, built, keys1, keys2) && out == SortList(built, le)
  {
    var b;
    b, keys1, keys2 := AddAllScansLcMsMsMap(src, canceled, scanNumber, subMap);
    built := b;
    out := SortList(b, le);
  }

  /** readMzXmlFileForMSProfile: addAllScansMSProfile, sorted; that builder never gives null. */
  method ReadMzXmlFileForMsProfile(src: Source, canceled: Poll -> bool, parentScanNum: int, le: (Scan, Scan) -> bool)
      returns (out: Option<ScanList>)
    ensures out.Some?
    ensures out == SortList(Some(Profile(src, canceled, parentScanNum)), le)
  {
    var scans := AddAllScansMsProfile(src, canceled, parentScanNum);
    out := SortList(Some(scans), le);
  }

  /** readMSFile(file): direct infusion and TIM files only; null for every other type. */
  method ReadMsFile(src: Source, kind: ExperimentType, canceled: Poll -> bool, le: (Scan, Scan) -> bool)
      returns (out: Option<ScanList>, ghost built: Option<ScanList>, ghost keys1: seq<real>, ghost keys2: seq<int>)
    ensures kind == Infusion ==> DiOutcome(src, canceled, built, keys1, keys2) && out == SortList(built, le)
    ensures kind == Tim ==> TimOutcome(src, canceled, built, keys1, keys2) && out == SortList(built, le)
    ensures kind != Infusion && kind != Tim ==> out.None?
  {
    if kind == Infusion {
      out, built, keys1, keys2 := ReadMzXmlFileForDirectInfusion(src, canceled, le);
    } else if kind == Tim {
      out, built, keys1, keys2 := ReadMzXmlFileForTim(src, canceled, le);
    } else {
      out, built, keys1, keys2 := None, None, [], [];
    }
  }

  /**
   * readMSFile(file, scanNumber, subScanMap): LC-MS/MS and MS-profile files
   * read the given scan, direct infusion and TIM files are read whole, any
   * other type gives null. The two-argument overload passes a null map.
   */
  method ReadMsFileForScan(src: Source, kind: ExperimentType, canceled: Poll -> bool, scanNumber: int,
                           subMap: Option<map<int, seq<int>>>, le: (Scan, Scan) -> bool)
      returns (out: Option<ScanList>, ghost built: Option<ScanList>, ghost keys1: seq<real>, ghost keys2: seq<int>)
    ensures kind == Lc ==> MapOutcome(src, canceled, scanNumber, subMap, built, keys1, keys2) && out == SortList(built, le)
    ensures kind == Profiling ==> built == Some(Profile(src, canceled, scanNumber)) && out == SortList(built, le)
    ensures kind == Infusion ==> DiOutcome(src, canceled, built, keys1, keys2) && out == SortList(built, le)
    ensures kind == Tim ==> TimOutcome(src, canceled, built, keys1, keys2) && out == SortList(built, le)
    ensures kind == Other ==> out.None?
  {
    if kind == Lc {
      out, built, keys1, keys2 := ReadMzXmlFileForLcMsMs(src, canceled, scanNumber, subMap, le);
    } else if kind == Profiling {
      built, keys1, keys2 := Some(Profile(src, canceled, scanNumber)), [], [];
      out := ReadMzXmlFileForMsProfile(src, canceled, scanNumber, le);
    } else if kind == Infusion {
      out, built, keys1, keys2 := ReadMzXmlFileForDirectInfusion(src, canceled, le);
    } else if kind == Tim {
      out, built, keys1, keys2 := ReadMzXmlFileForTim(src, canceled, le);
    } else {
      out, built, keys1, keys2 := None, None, [], [];
    }
  }

  /** readMSFile(file, msLevel, parentScanNum, scanNum): readMzXmlFile on the selectors. */
  method ReadMsFileSelected(src: Source, sel: Selection, canceled: Poll -> bool, le: (Scan, Scan) -> bool)
      returns (out: Option<ScanList>)
    ensures out == SortList(Some(ScanDataOf(src, sel, canceled)), le)
  {
    out := ReadMzXmlFile(src, sel, canceled, le);
  }
}
