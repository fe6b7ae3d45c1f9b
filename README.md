# GRITS mzXML readers, modelled in Dafny

This project models the core of the GRITS Toolbox `ms.file` package. The
reader turns an mzXML file into a hierarchy of mass-spectrometry scans
(`Scan` records with peak lists, parent scans, sub-scans and precursor peaks).
It builds that hierarchy in one of several ways, one per experiment type:

- direct infusion;
- total ion mapping (TIM), with a made-up MS1 root scan 0;
- LC-MS/MS, read sequentially or through a sub-scan map;
- MS profiling;
- a selector-driven `getScanData` and its `ScanView` twin (`getScanViewData`).

Around the builders sit the small helpers the builders share:

- findPeakInPeakList, getPrecursorPeak, getMostAbundantPeak and setPeakList;
- scan counting, getScanList and readMSFileForSubscans;
- the `FileReaderUtils` maps and peak filtering;
- the external-quantification classes `QuantPeak`, `QuantPeakMatch` and `QuantPeakData`, and the `MSXMLReader` that fills them;
- `ScanView`, `MSFileInfo` and `FileCategory`.

## How the model is built

- **The parsed file is a value.** It is `Spectra.Source`: the last scan number, and a map from scan number to header and optional peak array. A number missing from the map is a scan the parser returns null for.
- **Objects the builders share are an arena.** Scans and peaks are shared and mutated in place through many references, so they live in an arena (`Records.Heap`): peaks and scans are stored in sequences and referred to by index. Changing a peak through any reference changes it for every holder, as in Java. A returned list is a `Records.ScanList`: the scans plus the peak store its references name.
- **Builders are specified, then written as loops.** Each builder is a specification function, one loop pass at a time (`DiStep`, `TimStep`, `LsStep`, `GsStep`, `VsStep` ...), folded over the scan numbers. The builder is then written as a `method` with the source's loops, proved equal to that function. Lemmas about the functions state what a builder promises: the invariants each pass keeps, when it fails or is canceled, and what the closing phase returns.
- **Cancellation is an input.** `isCanceled()` becomes a function `canceled: Poll -> bool` answered at each point the source polls.
- **HashMap iteration order is an input.** It is known only up to permutation, so it is a ghost order `keys1`/`keys2` constrained to be some order of the key set.
- **Numbers.** Doubles are reals. `Double.MAX_VALUE` and `Double.MIN_VALUE` are exact constants. Java int subtraction in `ScanView.compareTo` wraps explicitly (`Numeric.Wrap32`).
- **Class-to-class code stays as classes.** `QuantPeak`, `QuantPeakMatch`, `QuantPeakData`, `ScanView` and `MSXMLReader` are Dafny classes with the source's fields and setters. Their methods state their whole new state.

## Behaviour of the code worth knowing

These are properties of the code as written. The model keeps them, and a lemma states each one:

- **The start-index latch skips index 0.** `findQuantPeakMatch` latches `iStartInx` only while it is 0, so a start at index 0 is taken over by the next index within 4 tolerances. An exact hit at peak 0 can then be missed (`QuantSearch.ExactHitMissed`).
- **Filtering sums m/z, not intensity.** `filterPeakList` sets `totalIntensity` to the sum of the m/z values of every peak with positive m/z, kept by the cut-off or not (`ScanMaps.TotalSumsMz`, `ScanMaps.FilteredScanSpec`).
- **`readMSFileForSubscans` stops one short.** Its keys stop one before the last scan number, so the last scan is never a key (`ScanLists.SubscansSpec`).
- **A stale parent in `getScanData`.** It reuses the parent variable of the previous pass when a scan's precursor number comes out as -1 (`ScanData.GsStepStaleParent`).
- **No sibling cutoff in sequential LC-MS/MS.** The sequential builder's cutoff at the next sibling is commented out (MzXmlReader.java lines 1213-1216), and the model has none either.
- **`getScanViewData` reads the whole window.** Its scan-number pre-filter is commented out, so with a parent selected every number from the parent to the parent plus 1000 is read; the scan-number selector only chooses which views join the result.
- **`ScanView.compareTo` wraps.** It subtracts two ints, which wraps outside the scan-number range (`ScanViews.CompareWraps`). On scan numbers it is a total order (`ViewData.ByScanNoOrder`).
- **A shared MS1 peak is listed twice.** In the direct-infusion, LC-MS/MS and sub-scan-map builders, `findPeakInPeakList` finds the MS2 precursor in its parent's list and the builder files it under that scan's own precursor m/z. Two MS2 scans whose precursor m/z lie within 0.5 of the same parent peak put one peak under two keys. The renumbering loop then lists that peak twice, and its id is its later position, so the ids are not 1 .. n (`DirectInfusion.DiMs1List`, `LcMsMsSubScans.MapMs1List`). The TIM builder makes a fresh peak per new m/z key, so there the ids are 1 .. n (`TotalIonMapping.TimMs1List`).
- **A missing parent fails the TIM builder.** Filing a sub-scan under a parent that is not in the scan map throws, and the builder returns null (`TotalIonMapping.TimStepFails`).
- **`MSXMLReader.read` replaces its data early.** It replaces its `QuantPeakData` before looking up scan 1. A file without scan 1 therefore leaves fresh defaults rather than the old data (`QuantReader.ReadOfSpec`).

## Model

| member | source | states |
|---|---|---|
| Numeric.Abs | src/org/grits/toolbox/ms/file/reader/impl/MzXmlReader.java:324-337 | Math.abs as the window test uses it: never negative, and equal to x or -x. |
| Numeric.Wrap32 | src/org/grits/toolbox/ms/file/scan/data/ScanView.java:15-18 | Java int arithmetic: the result is an int, congruent to the exact value modulo 2^32, and equal to it whenever that is already an int. |
| Spectra.Rap | src/org/grits/toolbox/ms/file/reader/impl/MzXmlReader.java:1597-1604 | The parser yields a scan for number i exactly when the file holds scan i; null otherwise. |
| Spectra.PolarityOf | src/org/grits/toolbox/ms/file/reader/impl/MzXmlReader.java:416-429 | "+" is positive polarity and only "+"; a null or empty polarity string leaves polarity unset; any other string is negative. |
| Records.NewPeak | src/org/grits/toolbox/ms/file/reader/impl/MzXmlReader.java:699-701 | A new peak carries the given id, m/z and intensity and is not marked as a precursor. |
| Records.ScanOfHeader | src/org/grits/toolbox/ms/file/reader/impl/MzXmlReader.java:412-440 | A new scan takes number, level, polarity, low/high m/z as scan start/end and retention time from its header, with no parent, no peaks, no sub-scans and no precursor. |
| Sorting.SortPermutation | src/org/grits/toolbox/ms/file/reader/impl/MzXmlReader.java:149 | Collections.sort only reorders: same elements, each as often. |
| Sorting.SortSorted | src/org/grits/toolbox/ms/file/reader/impl/MzXmlReader.java:149 | Under a total preorder the sorted list is in order. |
| Sorting.SortIdempotent | src/org/grits/toolbox/ms/file/reader/impl/MzXmlReader.java:149 | Sorting a list already in order leaves it unchanged. |
| Sorting.SortLength | src/org/grits/toolbox/ms/file/reader/impl/MzXmlReader.java:149 | Sorting keeps the length. |
| PeakLists.Closest | src/org/grits/toolbox/ms/file/reader/impl/MzXmlReader.java:324-337 | The nearest-peak loop after a prefix: a peak replaces the best only when strictly closer, so the earliest of equally close peaks wins; the index is in range. |
| PeakLists.ClosestSpec | src/org/grits/toolbox/ms/file/reader/impl/MzXmlReader.java:324-337 | Nothing is found exactly when no peak lies inside the window; otherwise the result is a candidate, no candidate is closer, and every earlier candidate is strictly farther. |
| PeakLists.HalfWindowCandidate | src/org/grits/toolbox/ms/file/reader/impl/MzXmlReader.java:331 | With a 0.5 window the MAX_VALUE starting distance never excludes a peak inside the window. |
| PeakLists.FindPeakInPeakList | src/org/grits/toolbox/ms/file/reader/impl/MzXmlReader.java:324-337 | FindPeakInPeakList's loop proved equal to the closest-candidate specification; None for a null list. |
| PeakLists.SynthesizedPrecursor | src/org/grits/toolbox/ms/file/reader/impl/MzXmlReader.java:1655-1662 | The peak appended when no parent peak is near: id one past the list length, the precursor m/z, zero intensity and the precursor charge. |
| PeakLists.Anchor | src/org/grits/toolbox/ms/file/reader/impl/MzXmlReader.java:1647-1668 | Anchoring keeps the number of stored scans, returns a stored peak, and keeps every reference naming a stored peak. |
| PeakLists.AnchorSpec | src/org/grits/toolbox/ms/file/reader/impl/MzXmlReader.java:1647-1668 | The anchored peak carries the child's precursor m/z, intensity and charge and is marked; the list grows by one zero-intensity peak numbered size + 1 exactly when no peak lies within 0.5; nothing else changes. |
| PeakLists.PrecursorPeak | src/org/grits/toolbox/ms/file/reader/impl/MzXmlReader.java:1647-1668 | Nothing changes when the parent is null; otherwise as Anchor. |
| PeakLists.GetPrecursorPeak | src/org/grits/toolbox/ms/file/reader/impl/MzXmlReader.java:1647-1668 | The method's effect on the store equals PrecursorPeak. |
| PeakLists.NewPrecursorPeak | src/org/grits/toolbox/ms/file/reader/impl/MzXmlReader.java:304-322 | A free-standing precursor peak: marked, id -1, the precursor m/z, the total ion current or the precursor intensity as asked, the precursor intensity recorded, and no charge exactly when the header's charge is -1. |
| PeakLists.MaxFrom | src/org/grits/toolbox/ms/file/reader/impl/MzXmlReader.java:339-351 | The running maximum never falls below its starting floor. |
| PeakLists.MaxFromSpec | src/org/grits/toolbox/ms/file/reader/impl/MzXmlReader.java:339-351 | The maximum bounds every intensity and is attained or equals the floor. |
| PeakLists.MostAbundant | src/org/grits/toolbox/ms/file/reader/impl/MzXmlReader.java:339-351 | With a peak array the result is at least Double.MIN_VALUE, the loop's starting value. |
| PeakLists.MostAbundantSpec | src/org/grits/toolbox/ms/file/reader/impl/MzXmlReader.java:339-351 | The most abundant intensity bounds every intensity and is positive whenever there is an array. |
| PeakLists.GetMostAbundantPeak | src/org/grits/toolbox/ms/file/reader/impl/MzXmlReader.java:339-351 | The loop returns MostAbundant. |
| PeakLists.ScanFor | src/org/grits/toolbox/ms/file/reader/impl/MzXmlReader.java:1606-1645 | Null for a null scan; else the header's scan whose parent is the declared precursor number or, when none is declared, the given last precursor. |
| PeakLists.GetScan | src/org/grits/toolbox/ms/file/reader/impl/MzXmlReader.java:1606-1645 | The method returns ScanFor. |
| PeakLists.ParentLevelSpec | src/org/grits/toolbox/ms/file/reader/impl/MzXmlReader.java:1179-1183 | The level walk stops at the highest level from 2 up to the scan's that has a recorded scan, else at 1. |
| PeakLists.FindParentLevel | src/org/grits/toolbox/ms/file/reader/impl/MzXmlReader.java:1179-1183 | The walk loop returns that level. |
| Ingestion.PeakAt | src/org/grits/toolbox/ms/file/reader/impl/MzXmlReader.java:1683-1696 | The peak of raw position j has id j + 1, the row's m/z and intensity. |
| Ingestion.IngestKeepsStore | src/org/grits/toolbox/ms/file/reader/impl/MzXmlReader.java:1676-1699 | The peak loop only appends to the peak store. |
| Ingestion.IngestNewPeaks | src/org/grits/toolbox/ms/file/reader/impl/MzXmlReader.java:1676-1699 | Every new peak comes from a raw position below n with positive intensity, its id naming that position, in raw order. |
| Ingestion.IngestComplete | src/org/grits/toolbox/ms/file/reader/impl/MzXmlReader.java:1676-1699 | No positive intensity is dropped: each such raw position has its peak in the store. |
| Ingestion.IngestMade | src/org/grits/toolbox/ms/file/reader/impl/MzXmlReader.java:1676-1699 | The new part of the store is exactly the positive peaks of the raw rows, in order. |
| Ingestion.IngestAdded | src/org/grits/toolbox/ms/file/reader/impl/MzXmlReader.java:1697-1699 | The scan's list gains exactly the new peaks, in order. |
| Ingestion.IngestBounds | src/org/grits/toolbox/ms/file/reader/impl/MzXmlReader.java:1686-1692 | The running low/high m/z bound every new peak and are attained by one, or are still the MAX_VALUE/MIN_VALUE starts when no peak was added. |
| Ingestion.IngestTotal | src/org/grits/toolbox/ms/file/reader/impl/MzXmlReader.java:1694 | The running total is the intensity sum of the new peaks. |
| Ingestion.IngestRefsOk | src/org/grits/toolbox/ms/file/reader/impl/MzXmlReader.java:1676-1699 | New references name stored peaks, so the scan lists stay well-formed. |
| Ingestion.StopFrom | src/org/grits/toolbox/ms/file/reader/impl/MzXmlReader.java:1677-1679 | The first peak position at which a poll reports cancellation, or none. |
| Ingestion.IngestPeaks | src/org/grits/toolbox/ms/file/reader/impl/MzXmlReader.java:1676-1699 | The polled peak loop: its store and scan equal the specification run up to the first canceled position, and it reports cancellation exactly then. |
| Ingestion.Finish | src/org/grits/toolbox/ms/file/reader/impl/MzXmlReader.java:1700-1707 | After a full loop the list is extended and a non-positive start/end is replaced by the least/greatest peak m/z; the totals are the row count and the intensity sum. |
| Ingestion.LoadIntoPeaksOk | src/org/grits/toolbox/ms/file/reader/impl/MzXmlReader.java:1670-1710 | Loading keeps every stored peak positive or marked as a precursor. |
| Ingestion.PeakListSet | src/org/grits/toolbox/ms/file/reader/impl/MzXmlReader.java:1670-1710 | SetPeakList leaves everything unchanged for a null array; otherwise the polled loop, stopping on cancellation. |
| Ingestion.SetPeakList | src/org/grits/toolbox/ms/file/reader/impl/MzXmlReader.java:1670-1710 | The method's result equals PeakListSet. |
| Assembly.NewScan | src/org/grits/toolbox/ms/file/reader/impl/MzXmlReader.java:412-441 | A new scan goes at the end of the scan store; nothing stored changes. |
| Assembly.UpdateScan | src/org/grits/toolbox/ms/file/reader/impl/MzXmlReader.java:412-441 | Only scan r changes, and it keeps its peak references. |
| Assembly.WithPrecursor | src/org/grits/toolbox/ms/file/reader/impl/MzXmlReader.java:1041 | Scan r's precursor is set to a stored peak, nothing else changes. |
| Assembly.AttachSpec | src/org/grits/toolbox/ms/file/reader/impl/MzXmlReader.java:1022-1042 | Hanging a child under a parent: the child's level is the parent's plus one; its precursor is a marked peak of the parent's list with the child's precursor m/z, intensity and charge; the parent's sub-scans gain the child's number; the MS2 table gains that peak; nothing else changes. |
| Assembly.AttachPeaksOk | src/org/grits/toolbox/ms/file/reader/impl/MzXmlReader.java:1022-1042 | Attaching keeps every stored peak positive or marked. |
| Assembly.AttachKeepsTable | src/org/grits/toolbox/ms/file/reader/impl/MzXmlReader.java:679-686 | A table whose peaks are marked stays so through attaching. |
| Assembly.LoadAllPeaksOk | src/org/grits/toolbox/ms/file/reader/impl/MzXmlReader.java:689-722 | The non-polling peak loop keeps every stored peak positive or marked. |
| Assembly.LoadAllKeepsTable | src/org/grits/toolbox/ms/file/reader/impl/MzXmlReader.java:689-722 | Loading peaks only appends, so a marked table stays marked. |
| Assembly.LoadPolled | src/org/grits/toolbox/ms/file/reader/impl/MzXmlReader.java:909-945 | None exactly when a poll inside the loop reports cancellation; otherwise the full loop's result. |
| Assembly.LoadPeaksPolled | src/org/grits/toolbox/ms/file/reader/impl/MzXmlReader.java:909-945 | The polled loop method returns LoadPolled. |
| Assembly.LoadPeaks | src/org/grits/toolbox/ms/file/reader/impl/MzXmlReader.java:689-722 | The non-polling loop method returns LoadAll. |
| Assembly.LoadAllIs | src/org/grits/toolbox/ms/file/reader/impl/MzXmlReader.java:689-722 | The full peak loop is one run of the ingestion loop followed by finishing the scan. |
| Assembly.LoadAllPeaks | src/org/grits/toolbox/ms/file/reader/impl/MzXmlReader.java:689-722 | The peaks the full loop adds: one per positive intensity, in raw order. |
| Assembly.LoadAllList | src/org/grits/toolbox/ms/file/reader/impl/MzXmlReader.java:689-722 | The loop appends to scan r's list exactly the references of the peaks it allocates. |
| Assembly.LoadAllTotals | src/org/grits/toolbox/ms/file/reader/impl/MzXmlReader.java:714-721 | The totals of scan r after the loop: row count, intensity sum; non-positive start/end replaced by the least/greatest m/z or the MAX_VALUE/MIN_VALUE starts; no other field changes. |
| Assembly.ValuesInBounded | src/org/grits/toolbox/ms/file/reader/impl/MzXmlReader.java:739-747 | The values of a map read in a key order are stored scans when the map holds only stored scans. |
| Assembly.RenumberOnlyIds | src/org/grits/toolbox/ms/file/reader/impl/MzXmlReader.java:728-738 | Renumbering changes only the ids of the ms1 table's peaks; the next id is one past the list. |
| Assembly.RenumberListSound | src/org/grits/toolbox/ms/file/reader/impl/MzXmlReader.java:728-738 | Every peak of the shared MS1 list comes from the table and, under the filter, is marked. |
| Assembly.RenumberListComplete | src/org/grits/toolbox/ms/file/reader/impl/MzXmlReader.java:728-738 | Every marked table peak is in the MS1 list; without the filter the list is the table's peaks in iteration order. |
| Assembly.RenumberIds | src/org/grits/toolbox/ms/file/reader/impl/MzXmlReader.java:728-738 | With distinct table entries, the list's peaks carry ids 1..n in list order. |
| Assembly.RenumberAllKept | src/org/grits/toolbox/ms/file/reader/impl/MzXmlReader.java:734 | When every table peak is already marked, the filter changes nothing. |
| Assembly.TablesRefsIn | src/org/grits/toolbox/ms/file/reader/impl/MzXmlReader.java:728-747 | The iteration orders of both tables name stored peaks and scans. |
| Assembly.ClosingSpec | src/org/grits/toolbox/ms/file/reader/impl/MzXmlReader.java:728-747 | Closing returns one scan per entry of the scan map; every MS1 scan carries the same list, the renumbered table peaks; every other scan is the stored one; only peak ids change. |
| Assembly.KeysCount | src/org/grits/toolbox/ms/file/reader/impl/MzXmlReader.java:739 | An iteration order of a key set has one entry per key. |
| Assembly.OrderConcat | src/org/grits/toolbox/ms/file/reader/impl/MzXmlReader.java:739 | Orders of two disjoint key sets, one after the other, are an order of their union. |
| Assembly.OrderStep | src/org/grits/toolbox/ms/file/reader/impl/MzXmlReader.java:739 | One more key walked keeps the walked keys an order of what was taken out. |
| Assembly.OrderFinish | src/org/grits/toolbox/ms/file/reader/impl/MzXmlReader.java:739 | A walk cut short is completed by the keys not yet walked. |
| Assembly.KeysOf | src/org/grits/toolbox/ms/file/reader/impl/MzXmlReader.java:739 | Walking a HashMap's key set yields some order of that set. |
| Assembly.RenumberMs1 | src/org/grits/toolbox/ms/file/reader/impl/MzXmlReader.java:728-738 | The polled renumbering loop returns Renumber's result, or reports cancellation at the first canceled poll. |
| Assembly.CollectScans | src/org/grits/toolbox/ms/file/reader/impl/MzXmlReader.java:739-747 | The polled collecting loop returns Collect's result in the walked order, or reports cancellation. |
| Assembly.Finalize | src/org/grits/toolbox/ms/file/reader/impl/MzXmlReader.java:728-751 | The closing phase: the empty list on cancellation, else the closing result over the orders walked. |
| DirectInfusion.DiStepAbsent | src/org/grits/toolbox/ms/file/reader/impl/MzXmlReader.java:590-596 | An absent scan number is passed over unchanged. |
| DirectInfusion.DiStoredSpec | src/org/grits/toolbox/ms/file/reader/impl/MzXmlReader.java:602-637 | Storing keeps the loop invariant; the new scan is the header's, recorded as the last of its header level. |
| DirectInfusion.DiParentSpec | src/org/grits/toolbox/ms/file/reader/impl/MzXmlReader.java:639-650 | An MSn scan's parent number is its declared precursor, else the last scan of the highest lower level that has one; none exactly when no level 1..n-1 has a scan yet. |
| DirectInfusion.DiStepFails | src/org/grits/toolbox/ms/file/reader/impl/MzXmlReader.java:639-657 | The builder fails exactly on an MSn header naming no precursor before any scan of a lower level. |
| DirectInfusion.DiStepHangs | src/org/grits/toolbox/ms/file/reader/impl/MzXmlReader.java:651-687 | A present MSn scan that does not fail is hung under the parent DiParent names. |
| DirectInfusion.DiHangMissing | src/org/grits/toolbox/ms/file/reader/impl/MzXmlReader.java:651-657 | A parent not in the map: the scan keeps its parent number, gets no precursor and no peaks, and is listed as missing. |
| DirectInfusion.DiHangAttached | src/org/grits/toolbox/ms/file/reader/impl/MzXmlReader.java:667-687 | A parent in the map: level parent + 1, precursor a marked peak of the parent's list with the precursor m/z, the parent gains a sub-scan, MS2 puts the peak in the ms1 table. |
| DirectInfusion.DiHangOk | src/org/grits/toolbox/ms/file/reader/impl/MzXmlReader.java:651-722 | Hanging keeps the invariant and every scan number and only appends to the missing list. |
| DirectInfusion.DiAttachOk | src/org/grits/toolbox/ms/file/reader/impl/MzXmlReader.java:667-722 | The attaching branch keeps the invariant. |
| DirectInfusion.DiStepOk | src/org/grits/toolbox/ms/file/reader/impl/MzXmlReader.java:582-723 | One pass keeps the invariant and every scan number. |
| DirectInfusion.DiRunOk | src/org/grits/toolbox/ms/file/reader/impl/MzXmlReader.java:582-723 | The invariant holds all along the scan loop. |
| DirectInfusion.DiRunEnds | src/org/grits/toolbox/ms/file/reader/impl/MzXmlReader.java:582-723 | The loop is canceled only after a cancelling poll, fails only in a pass that starts running and whose step fails (the header DiStepFails names), and never fails on a file with no header above MS1. |
| DirectInfusion.DiResultSpec | src/org/grits/toolbox/ms/file/reader/impl/MzXmlReader.java:725-751 | A completed, uncanceled build returns one scan per map entry; MS1 scans all carry the table's peaks in iteration order, each listed peak's id one past its last position in the list (1 .. n when no peak repeats); the filter drops nothing. |
| DirectInfusion.DiMs1List | src/org/grits/toolbox/ms/file/reader/impl/MzXmlReader.java:728-738 | With every table peak marked, the MS1 list is the table's peaks in iteration order, each listed peak's id one past its last position in the list (1 .. n when no peak repeats). |
| DirectInfusion.ReadScan | src/org/grits/toolbox/ms/file/reader/impl/MzXmlReader.java:583-722 | One pass of the loop as written returns DiStep. |
| DirectInfusion.AddAllScansDirectInfusion | src/org/grits/toolbox/ms/file/reader/impl/MzXmlReader.java:558-758 | The builder's result satisfies DiOutcome: null on failure, empty on cancellation, otherwise the closing over the walked orders; an MS1-first file falls through to the same loop. |
| DirectInfusion.DiRunStaysCanceled | src/org/grits/toolbox/ms/file/reader/impl/MzXmlReader.java:583-585 | Once canceled the loop stays canceled. |
| DirectInfusion.DiRunStaysFailed | src/org/grits/toolbox/ms/file/reader/impl/MzXmlReader.java:753-756 | Once failed the loop stays failed. |
| TotalIonMapping.BackupIntensitySpec | src/org/grits/toolbox/ms/file/reader/impl/MzXmlReader.java:502-512 | The backup precursor intensity is positive: the last raw intensity within 0.5 of the precursor m/z, or 1.0. |
| TotalIonMapping.TimLoadSpec | src/org/grits/toolbox/ms/file/reader/impl/MzXmlReader.java:484-516 | The TIM peak loop adds the positive peaks and sets the totals; the precursor's intensity becomes the backup exactly when it is not positive and the scan has rows; nothing else changes. |
| TotalIonMapping.Ms1PrecursorSpec | src/org/grits/toolbox/ms/file/reader/impl/MzXmlReader.java:451-462 | The MS2 precursor is the ms1 table's peak for the exact m/z, else a new one put there; it is marked; nothing else changes. |
| TotalIonMapping.TimLinkSpec | src/org/grits/toolbox/ms/file/reader/impl/MzXmlReader.java:517-525 | The rest of a pass fails exactly when the parent number is not in the map once the scan is filed; otherwise precursor and peaks set, the parent gains the number, the range widens. |
| TotalIonMapping.TimParentOwnLevel | src/org/grits/toolbox/ms/file/reader/impl/MzXmlReader.java:442-448 | The level walk does not look at the scan's own level. |
| TotalIonMapping.TimStepFails | src/org/grits/toolbox/ms/file/reader/impl/MzXmlReader.java:442-518 | A pass fails exactly when the parent number is not in the map: for MS2 after the scan is filed, for other levels before. |
| TotalIonMapping.TimScanParts | src/org/grits/toolbox/ms/file/reader/impl/MzXmlReader.java:412-481 | The pieces of one pass that TimScan hands on. |
| TotalIonMapping.TimStepLinks | src/org/grits/toolbox/ms/file/reader/impl/MzXmlReader.java:412-525 | A pass that does not fail stores the header's scan with its level and parent number, files it, appends it to the parent's sub-scans and widens the range. |
| TotalIonMapping.TimLinkComposed | src/org/grits/toolbox/ms/file/reader/impl/MzXmlReader.java:451-525 | Linking after any precursor step that changes only peak lists keeps those changes. |
| TotalIonMapping.TimLinkPrecursor | src/org/grits/toolbox/ms/file/reader/impl/MzXmlReader.java:451-525 | What linking does to a precursor set by such a step. |
| TotalIonMapping.TimStepMs2Precursor | src/org/grits/toolbox/ms/file/reader/impl/MzXmlReader.java:451-462 | An MS2 scan's precursor carries the header's precursor m/z, intensity and charge and is the table's peak for that m/z; after the rows are read its intensity is positive. |
| TotalIonMapping.TimStepAnchoredPrecursor | src/org/grits/toolbox/ms/file/reader/impl/MzXmlReader.java:463-481 | Another level's precursor is anchored in the parent's list with the header's values; after the rows are read its intensity is positive. |
| TotalIonMapping.TimInitOk | src/org/grits/toolbox/ms/file/reader/impl/MzXmlReader.java:376-388 | The starting state with the made-up scan 0 satisfies the invariant. |
| TotalIonMapping.TimStepOk | src/org/grits/toolbox/ms/file/reader/impl/MzXmlReader.java:392-527 | One pass keeps the invariant. |
| TotalIonMapping.TimRunOk | src/org/grits/toolbox/ms/file/reader/impl/MzXmlReader.java:392-527 | The invariant holds along the loop. |
| TotalIonMapping.TimRunStaysCanceled | src/org/grits/toolbox/ms/file/reader/impl/MzXmlReader.java:393-395 | Once canceled the loop stays canceled. |
| TotalIonMapping.TimRunStaysFailed | src/org/grits/toolbox/ms/file/reader/impl/MzXmlReader.java:552-555 | Once failed the loop stays failed. |
| TotalIonMapping.TimResultSpec | src/org/grits/toolbox/ms/file/reader/impl/MzXmlReader.java:530-550 | A completed, uncanceled build returns one scan per map entry; MS1 scans carry every table peak in iteration order, numbered 1 .. n, since the TIM table holds each peak once; the made-up scan spans the running range. |
| TotalIonMapping.TimMs1List | src/org/grits/toolbox/ms/file/reader/impl/MzXmlReader.java:533-541 | Without the filter the MS1 list is the table's peaks in iteration order, numbered 1 .. n: each MS2 precursor m/z gets a fresh peak, so no table peak repeats. |
| TotalIonMapping.TimCloseNumbers | src/org/grits/toolbox/ms/file/reader/impl/MzXmlReader.java:530-531 | After closing every scan is still filed under its number and the made-up scan spans the range. |
| TotalIonMapping.TimPeakLoop | src/org/grits/toolbox/ms/file/reader/impl/MzXmlReader.java:484-516 | The TIM row loop method returns TimLoad's peaks, total and backup. |
| TotalIonMapping.LoadTimPeaks | src/org/grits/toolbox/ms/file/reader/impl/MzXmlReader.java:484-516 | The method's new store equals TimLoad. |
| TotalIonMapping.ReadScanTim | src/org/grits/toolbox/ms/file/reader/impl/MzXmlReader.java:393-525 | One pass as written returns TimStep. |
| TotalIonMapping.LinkTim | src/org/grits/toolbox/ms/file/reader/impl/MzXmlReader.java:517-525 | The method returns TimLink. |
| TotalIonMapping.AddAllScansTim | src/org/grits/toolbox/ms/file/reader/impl/MzXmlReader.java:354-556 | The result satisfies TimOutcome: the direct-infusion result when the first scan is MS1, null on failure, empty on cancellation, else the closing. |
| TotalIonMapping.TimLoop | src/org/grits/toolbox/ms/file/reader/impl/MzXmlReader.java:392-527 | The loop method returns TimRun. |
| LcMsMsSequential.LsRunBeforeParent | src/org/grits/toolbox/ms/file/reader/impl/MzXmlReader.java:1119-1123 | Before the requested number is reached the loop reads nothing. |
| LcMsMsSequential.LsRunFound | src/org/grits/toolbox/ms/file/reader/impl/MzXmlReader.java:1119-1123 | Once the requested number is passed, the found flag stays set. |
| LcMsMsSequential.LsStepFails | src/org/grits/toolbox/ms/file/reader/impl/MzXmlReader.java:1173-1189 | The builder fails exactly on a scan above the requested level, after the requested number, with no declared precursor and no scan found by the level walk. |
| LcMsMsSequential.LsStepCanceled | src/org/grits/toolbox/ms/file/reader/impl/MzXmlReader.java:1219-1255 | A pass is canceled only by a poll inside its peak loop. |
| LcMsMsSequential.LsStepRoot | src/org/grits/toolbox/ms/file/reader/impl/MzXmlReader.java:1169-1172 | A scan at or below the requested level is filed with no parent and loaded. |
| LcMsMsSequential.LsStepDropped | src/org/grits/toolbox/ms/file/reader/impl/MzXmlReader.java:1186-1189 | A scan whose parent is not in the map is dropped: only the level table changes. |
| LcMsMsSequential.LsStepAttached | src/org/grits/toolbox/ms/file/reader/impl/MzXmlReader.java:1173-1217 | A scan whose parent is in the map becomes the parent's level plus one, gets a marked precursor in the parent's list, is listed as the parent's sub-scan, and is filed and loaded. |
| LcMsMsSequential.LsHangAttached | src/org/grits/toolbox/ms/file/reader/impl/MzXmlReader.java:1173-1217 | The attaching branch for a parent filed before the child. |
| LcMsMsSequential.LsStoredOk | src/org/grits/toolbox/ms/file/reader/impl/MzXmlReader.java:1144-1169 | Storing the header's scan keeps the invariant. |
| LcMsMsSequential.LsLoadOk | src/org/grits/toolbox/ms/file/reader/impl/MzXmlReader.java:1217-1255 | Filing and loading keeps the invariant. |
| LcMsMsSequential.LsHangOk | src/org/grits/toolbox/ms/file/reader/impl/MzXmlReader.java:1173-1255 | Hanging keeps the invariant whether or not the parent is filed. |
| LcMsMsSequential.LsAttachOk | src/org/grits/toolbox/ms/file/reader/impl/MzXmlReader.java:1173-1255 | The attaching branch keeps the invariant. |
| LcMsMsSequential.LsStepOk | src/org/grits/toolbox/ms/file/reader/impl/MzXmlReader.java:1111-1256 | One pass keeps the invariant and every scan number. |
| LcMsMsSequential.LsRunOk | src/org/grits/toolbox/ms/file/reader/impl/MzXmlReader.java:1111-1256 | The invariant holds along the loop. |
| LcMsMsSequential.LsRunStaysCanceled | src/org/grits/toolbox/ms/file/reader/impl/MzXmlReader.java:1111-1256 | Once canceled the loop stays canceled. |
| LcMsMsSequential.LsRunStaysFailed | src/org/grits/toolbox/ms/file/reader/impl/MzXmlReader.java:1111-1256 | Once failed the loop stays failed. |
| LcMsMsSequential.LsStepKeepsKeys | src/org/grits/toolbox/ms/file/reader/impl/MzXmlReader.java:1111-1256 | A pass never removes a number from the scan map. |
| LcMsMsSequential.LsStepFilesParent | src/org/grits/toolbox/ms/file/reader/impl/MzXmlReader.java:1119-1123 | The pass over the requested number files it at the root unless canceled. |
| LcMsMsSequential.LsRunHasParent | src/org/grits/toolbox/ms/file/reader/impl/MzXmlReader.java:1119-1123 | From the requested number on, it stays filed. |
| LcMsMsSequential.LsScansParent | src/org/grits/toolbox/ms/file/reader/impl/MzXmlReader.java:1111-1256 | A completed loop that reached the requested scan holds it; a number outside the file leaves nothing. |
| LcMsMsSequential.LsResultSpec | src/org/grits/toolbox/ms/file/reader/impl/MzXmlReader.java:1261-1279 | A completed uncanceled build returns one scan per map entry; MS1 scans carry the table's peaks, each listed peak's id one past its last position in the list (1 .. n when no peak repeats); others are the stored ones. |
| LcMsMsSequential.LsReadScan | src/org/grits/toolbox/ms/file/reader/impl/MzXmlReader.java:1112-1255 | One pass as written returns LsStep. |
| LcMsMsSequential.LsLoop | src/org/grits/toolbox/ms/file/reader/impl/MzXmlReader.java:1111-1256 | The loop method returns LsRun. |
| LcMsMsSequential.AddAllScansLcMsMs | src/org/grits/toolbox/ms/file/reader/impl/MzXmlReader.java:1091-1286 | The result satisfies LsOutcome. |
| LcMsMsSubScans.SubScanOfHeader | src/org/grits/toolbox/ms/file/reader/impl/MzXmlReader.java:997-1021 | A sub-scan takes its header's fields, with the declared precursor number as parent. |
| LcMsMsSubScans.HungGrown | src/org/grits/toolbox/ms/file/reader/impl/MzXmlReader.java:984-1079 | Making and hanging a sub-scan only grows the store; the scan is one level below its parent, which gains its number. |
| LcMsMsSubScans.HungOk | src/org/grits/toolbox/ms/file/reader/impl/MzXmlReader.java:984-1079 | Making and hanging keeps the invariant. |
| LcMsMsSubScans.FileOk | src/org/grits/toolbox/ms/file/reader/impl/MzXmlReader.java:947-951 | Filing a processed sub-scan keeps the invariant. |
| LcMsMsSubScans.SubScanOk | src/org/grits/toolbox/ms/file/reader/impl/MzXmlReader.java:980-1089 | A completed processSubScan keeps the invariant and only grows the store and the map's keys. |
| LcMsMsSubScans.SubScansOk | src/org/grits/toolbox/ms/file/reader/impl/MzXmlReader.java:947-951 | A completed sub-scan loop keeps the invariant and only grows. |
| LcMsMsSubScans.SubScansFiles | src/org/grits/toolbox/ms/file/reader/impl/MzXmlReader.java:947-951 | A completed sub-scan loop files every number of its list. |
| LcMsMsSubScans.SubScanFuel | src/org/grits/toolbox/ms/file/reader/impl/MzXmlReader.java:1081-1085 | A walk that does not run out of fuel gives the same result with any larger bound. |
| LcMsMsSubScans.SubScansFuel | src/org/grits/toolbox/ms/file/reader/impl/MzXmlReader.java:1081-1085 | The same for the list loop. |
| LcMsMsSubScans.TopOk | src/org/grits/toolbox/ms/file/reader/impl/MzXmlReader.java:882-945 | The requested scan, loaded and filed before any sub-scan, satisfies the invariant. |
| LcMsMsSubScans.MapBuildEnds | src/org/grits/toolbox/ms/file/reader/impl/MzXmlReader.java:851-951 | Canceled exactly when a poll in the requested scan's peak loop says so; failed when the parser lacks that scan or the map lacks its list. |
| LcMsMsSubScans.MapBuildRunning | src/org/grits/toolbox/ms/file/reader/impl/MzXmlReader.java:882-951 | A completed build has the requested scan first, without parent or precursor, and files every number of its sub-scan list. |
| LcMsMsSubScans.MapMs1List | src/org/grits/toolbox/ms/file/reader/impl/MzXmlReader.java:953-962 | With every table peak marked, the MS1 list is the table's peaks in iteration order, each listed peak's id one past its last position in the list (1 .. n when no peak repeats). |
| LcMsMsSubScans.MapResultSpec | src/org/grits/toolbox/ms/file/reader/impl/MzXmlReader.java:953-971 | The result has one scan per map entry; every entry but the requested one is built from the listed number's header; MS1 scans carry the table's peaks. |
| LcMsMsSubScans.SubScansStays | src/org/grits/toolbox/ms/file/reader/impl/MzXmlReader.java:947-951 | A stopped sub-scan loop stays stopped. |
| LcMsMsSubScans.HangSubScan | src/org/grits/toolbox/ms/file/reader/impl/MzXmlReader.java:984-1079 | The method returns Hung. |
| LcMsMsSubScans.ProcessSubScan | src/org/grits/toolbox/ms/file/reader/impl/MzXmlReader.java:980-1089 | The method returns SubScan. |
| LcMsMsSubScans.SubScanLoop | src/org/grits/toolbox/ms/file/reader/impl/MzXmlReader.java:947-951 | The method returns SubScans. |
| LcMsMsSubScans.AddAllScansLcMsMsMap | src/org/grits/toolbox/ms/file/reader/impl/MzXmlReader.java:851-978 | A null or empty map falls back to the sequential builder; otherwise the result satisfies MapOutcome. |
| MsProfile.ProfileEmpty | src/org/grits/toolbox/ms/file/reader/impl/MzXmlReader.java:760-849 | The list is empty exactly when the scan is absent, has no peak array, or a poll in its loop cancels. |
| MsProfile.ProfileScan | src/org/grits/toolbox/ms/file/reader/impl/MzXmlReader.java:778-801 | Otherwise one scan, the header's, with no parent and no precursor. |
| MsProfile.ProfilePeaks | src/org/grits/toolbox/ms/file/reader/impl/MzXmlReader.java:804-841 | Its peak list is every positive peak of the array in raw order. |
| MsProfile.ProfileTotals | src/org/grits/toolbox/ms/file/reader/impl/MzXmlReader.java:804-841 | Its totals are the row count and intensity sum; non-positive bounds are replaced by bounds of every peak m/z. |
| MsProfile.ProfileLoads | src/org/grits/toolbox/ms/file/reader/impl/MzXmlReader.java:804-842 | Without cancellation the list is the one-scan store after the full loop. |
| MsProfile.AddAllScansMsProfile | src/org/grits/toolbox/ms/file/reader/impl/MzXmlReader.java:760-849 | The method returns Profile. |
| ScanSource.FirstScanFromSpec | src/org/grits/toolbox/ms/file/reader/impl/MzXmlReader.java:1441-1450 | The first present number from a start, or -1. |
| ScanSource.FirstScanNumberSpec | src/org/grits/toolbox/ms/file/reader/impl/MzXmlReader.java:1441-1450 | The first scan is the lowest present number from 1, and -1 exactly when there is none. |
| ScanSource.GetFirstScanNumber | src/org/grits/toolbox/ms/file/reader/impl/MzXmlReader.java:1441-1450 | The loop returns FirstScanNumber. |
| ScanSource.MinLevelUpToSpec | src/org/grits/toolbox/ms/file/reader/impl/MzXmlReader.java:1359-1386 | The running minimum level is a scan's level and bounds every scan read. |
| ScanSource.MinMsLevelSpec | src/org/grits/toolbox/ms/file/reader/impl/MzXmlReader.java:1359-1386 | The least level is some scan's level and no scan has a lower one. |
| ScanSource.GetMinMsLevel | src/org/grits/toolbox/ms/file/reader/impl/MzXmlReader.java:1359-1386 | The loop returns MinMsLevel. |
| ScanSource.CountUpToIsSetSize | src/org/grits/toolbox/ms/file/reader/impl/MzXmlReader.java:1388-1415 | The count is the size of the set of present numbers at that level. |
| ScanSource.CountScansByMsLevel | src/org/grits/toolbox/ms/file/reader/impl/MzXmlReader.java:1388-1415 | -1 without scans, else the number of scans at the level. |
| ScanSource.CountScansByMsLevelSpec | src/org/grits/toolbox/ms/file/reader/impl/MzXmlReader.java:1388-1415 | The count is the size of the set of matching scan numbers. |
| ScanSource.CountScans | src/org/grits/toolbox/ms/file/reader/impl/MzXmlReader.java:1388-1415 | The loop returns the count. |
| ScanSource.NumScansAtLevel | src/org/grits/toolbox/ms/file/reader/impl/MzXmlReader.java:1418-1439 | GetNumMS1Scans/getNumMS2Scans: the level-1 or level-2 count, 0 for a file that cannot be opened. |
| ScanLists.SlRunStaysCanceled | src/org/grits/toolbox/ms/file/reader/impl/MzXmlReader.java:1301-1334 | Once canceled the loop stays canceled. |
| ScanLists.SlRunNoParent | src/org/grits/toolbox/ms/file/reader/impl/MzXmlReader.java:1316-1319 | Without a parent, exactly the present numbers at the lowest level are listed, in increasing order. |
| ScanLists.SlRunParent | src/org/grits/toolbox/ms/file/reader/impl/MzXmlReader.java:1320-1332 | With a parent, every listed number is one level below a header carrying the parent's number that comes earlier; the list increases. |
| ScanLists.SlRunBeforeParent | src/org/grits/toolbox/ms/file/reader/impl/MzXmlReader.java:1320-1332 | Before a header carries the parent's number nothing is listed. |
| ScanLists.ScanListNoParent | src/org/grits/toolbox/ms/file/reader/impl/MzXmlReader.java:1288-1341 | GetScanList without a parent lists every scan at the lowest level, unless canceled. |
| ScanLists.SlRunLive | src/org/grits/toolbox/ms/file/reader/impl/MzXmlReader.java:1301-1334 | Without a cancelling poll the loop is not canceled. |
| ScanLists.GetScanList | src/org/grits/toolbox/ms/file/reader/impl/MzXmlReader.java:1288-1341 | The method returns ScanListOf. |
| ScanLists.EmptyLists | src/org/grits/toolbox/ms/file/reader/impl/MzXmlReader.java:1928-1932 | The first loop maps every number from the first scan up to, excluding, the last to an empty list. |
| ScanLists.SsRunSpec | src/org/grits/toolbox/ms/file/reader/impl/MzXmlReader.java:1933-1942 | Keys are kept; every listed number is a scan above MS1 naming its key; lists increase; when the loop has not thrown, every such scan is listed. |
| ScanLists.SubscansSpec | src/org/grits/toolbox/ms/file/reader/impl/MzXmlReader.java:1921-1947 | The keys run from the first scan up to but excluding the last scan number; listed numbers name their key; complete when every precursor is a key. |
| ScanLists.SsRunGoing | src/org/grits/toolbox/ms/file/reader/impl/MzXmlReader.java:1933-1942 | When every number is a scan and every precursor a key, the loop does not throw. |
| ScanLists.ReadMsFileForSubscans | src/org/grits/toolbox/ms/file/reader/impl/MzXmlReader.java:1921-1947 | The method returns SubscansOf. |
| ScanLists.SsRunStopped | src/org/grits/toolbox/ms/file/reader/impl/MzXmlReader.java:1933-1942 | A stopped loop keeps its map. |
| ScanData.GsResolveSpec | src/org/grits/toolbox/ms/file/reader/impl/MzXmlReader.java:1529-1542 | The parent lookup fails exactly when the number is not -1, not filed, not in the file, and there is no made-up scan; -1 keeps the state; otherwise the parent carries the looked-up number. |
| ScanData.GsAnchorSpec | src/org/grits/toolbox/ms/file/reader/impl/MzXmlReader.java:1546-1560 | Anchoring gives scan r a marked precursor in the parent's list with the header's m/z; the parent gains a sub-scan; the range covers that peak; no stored number, level or parent number changes. |
| ScanData.GsSelectSpec | src/org/grits/toolbox/ms/file/reader/impl/MzXmlReader.java:1562-1568 | Loading a selected scan keeps every stored number, level, parent number, and positive-or-marked peaks. |
| ScanData.GsPlaceSpec | src/org/grits/toolbox/ms/file/reader/impl/MzXmlReader.java:1543-1568 | The new scan keeps its header's number, level and parent number; it joins the result exactly when selected; it is anchored exactly when above the possible-precursor level with a parent set. |
| ScanData.GsStepStaleParent | src/org/grits/toolbox/ms/file/reader/impl/MzXmlReader.java:1519-1560 | A scan whose precursor number is -1 but whose level is above the possible-precursor level is still anchored on the parent left by the previous pass. |
| ScanData.GsStepSpec | src/org/grits/toolbox/ms/file/reader/impl/MzXmlReader.java:1484-1577 | One pass: nothing changes outside the window or for an absent number; a failed lookup clears the parent and stores nothing; otherwise the header's scan is stored and placed. |
| ScanData.GsKeepsOk | src/org/grits/toolbox/ms/file/reader/impl/MzXmlReader.java:1484-1577 | A change that keeps the result, flag, headers and marked peaks keeps the invariant. |
| ScanData.GsPlaceOk | src/org/grits/toolbox/ms/file/reader/impl/MzXmlReader.java:1543-1568 | Placing keeps the invariant; the result grows by at most that scan. |
| ScanData.GsStepOk | src/org/grits/toolbox/ms/file/reader/impl/MzXmlReader.java:1484-1577 | One pass keeps the invariant; the result only grows. |
| ScanData.GsRunOk | src/org/grits/toolbox/ms/file/reader/impl/MzXmlReader.java:1469-1577 | The invariant holds along the loop; the made-up scan exists exactly when the first scan is above MS1. |
| ScanData.GsRunLive | src/org/grits/toolbox/ms/file/reader/impl/MzXmlReader.java:1486-1488 | A run not canceled at the end was not canceled before. |
| ScanData.GsRunIdle | src/org/grits/toolbox/ms/file/reader/impl/MzXmlReader.java:1493-1501 | Numbers outside the window or not in the file change nothing. |
| ScanData.GsRunScanNum | src/org/grits/toolbox/ms/file/reader/impl/MzXmlReader.java:1493-1495 | With a scan number selected only that number's pass reads anything. |
| ScanData.GsRunParentWindow | src/org/grits/toolbox/ms/file/reader/impl/MzXmlReader.java:1499-1501 | With a parent selected nothing before it and nothing more than 1000 numbers after it is read. |
| ScanData.GsResultSpec | src/org/grits/toolbox/ms/file/reader/impl/MzXmlReader.java:1579-1595 | The result of a finished loop: the made-up scan first, number 0, level 1, no parent, spanning the anchored range; every other scan was read in the window. |
| ScanData.ScanDataSpec | src/org/grits/toolbox/ms/file/reader/impl/MzXmlReader.java:1452-1595 | GetScanData: empty when canceled; otherwise the made-up scan first when the file starts above MS1; every other scan carries the number and level of a header inside the window. |
| ScanData.ScanDataRefsOk | src/org/grits/toolbox/ms/file/reader/impl/MzXmlReader.java:1452-1595 | Every scan of the result refers only to returned peaks. |
| ScanData.GsRootParent | src/org/grits/toolbox/ms/file/reader/impl/MzXmlReader.java:1469-1479 | The made-up scan never gets a parent number. |
| ScanData.GsStepHeaders | src/org/grits/toolbox/ms/file/reader/impl/MzXmlReader.java:1484-1577 | A pass keeps every stored number, level and parent number. |
| ScanData.ResolveParent | src/org/grits/toolbox/ms/file/reader/impl/MzXmlReader.java:1529-1542 | The method returns GsResolve. |
| ScanData.AnchorPass | src/org/grits/toolbox/ms/file/reader/impl/MzXmlReader.java:1546-1560 | The method returns GsAnchor. |
| ScanData.PlacePass | src/org/grits/toolbox/ms/file/reader/impl/MzXmlReader.java:1543-1568 | The method returns GsPlace. |
| ScanData.PossibleLevel | src/org/grits/toolbox/ms/file/reader/impl/MzXmlReader.java:1514-1518 | The method returns the updated possible-precursor level. |
| ScanData.PrecursorNumber | src/org/grits/toolbox/ms/file/reader/impl/MzXmlReader.java:1519-1526 | The method returns the chosen precursor number. |
| ScanData.ReadScanData | src/org/grits/toolbox/ms/file/reader/impl/MzXmlReader.java:1486-1576 | One pass as written returns GsStep. |
| ScanData.DataLoop | src/org/grits/toolbox/ms/file/reader/impl/MzXmlReader.java:1484-1577 | The loop method returns GsRun. |
| ScanData.GetScanData | src/org/grits/toolbox/ms/file/reader/impl/MzXmlReader.java:1452-1595 | The method returns ScanDataOf. |
| ViewData.ViewOf | src/org/grits/toolbox/ms/file/reader/impl/MzXmlReader.java:1894-1918 | GetScanView: null for a null scan; else the header's fields with the declared precursor or the last precursor as parent. |
| ViewData.VsRunStaysCanceled | src/org/grits/toolbox/ms/file/reader/impl/MzXmlReader.java:1778-1892 | Once canceled the loop stays canceled. |
| ViewData.VsStepSpec | src/org/grits/toolbox/ms/file/reader/impl/MzXmlReader.java:1821-1877 | One pass: nothing changes outside the window or for an absent number; a failed lookup clears the parent; otherwise the header's view is stored, hung and selected. |
| ViewData.VsResolveOk | src/org/grits/toolbox/ms/file/reader/impl/MzXmlReader.java:1849-1862 | The parent lookup keeps the invariant. |
| ViewData.PlaceForest | src/org/grits/toolbox/ms/file/reader/impl/MzXmlReader.java:1866-1868 | Storing a view with no sub-scans, listed under an earlier parent at most, keeps the sub-scan lists a forest. |
| ViewData.VsPlaceFacts | src/org/grits/toolbox/ms/file/reader/impl/MzXmlReader.java:1863-1877 | Placing a view stores it as given; earlier views change at most in their sub-scans. |
| ViewData.VsPlaceReadIn | src/org/grits/toolbox/ms/file/reader/impl/MzXmlReader.java:1863-1877 | Placing keeps every result view read in the window. |
| ViewData.VsPlaceOk | src/org/grits/toolbox/ms/file/reader/impl/MzXmlReader.java:1863-1877 | Placing keeps the invariant; the result grows by at most that view. |
| ViewData.VsStepOk | src/org/grits/toolbox/ms/file/reader/impl/MzXmlReader.java:1821-1877 | One pass keeps the invariant; the result only grows. |
| ViewData.VsRunOk | src/org/grits/toolbox/ms/file/reader/impl/MzXmlReader.java:1793-1877 | The invariant holds along the loop; the made-up view exists exactly when the first scan is above MS1. |
| ViewData.ScanViewDataSpec | src/org/grits/toolbox/ms/file/reader/impl/MzXmlReader.java:1778-1892 | GetScanViewData: empty when canceled; otherwise each view once, the made-up view (0, level 1, no parent) first when the file starts above MS1, every other view read in the window, and the sub-scan lists a forest. |
| ViewData.ByScanNoOrder | src/org/grits/toolbox/ms/file/scan/data/ScanView.java:15-18 | With valid scan numbers compareTo's "at most 0" is the numeric order, a total preorder. |
| ViewData.ViewsForViewSorted | src/org/grits/toolbox/ms/file/reader/impl/MzXmlReader.java:1758-1776 | ReadMSFileForView reorders getScanViewData's list and sorts it by ascending scan number. |
| ViewData.NewView | src/org/grits/toolbox/ms/file/reader/impl/MzXmlReader.java:1894-1918 | A new ScanView whose fields are the given scalars, with no sub-scans. |
| ViewData.Materialize | src/org/grits/toolbox/ms/file/reader/impl/MzXmlReader.java:1778-1892 | One fresh, distinct ScanView per stored view whose sub-scan list holds the very objects its indices name. |
| ViewData.ResolveView | src/org/grits/toolbox/ms/file/reader/impl/MzXmlReader.java:1849-1862 | The method returns VsResolve. |
| ViewData.ReadScanView | src/org/grits/toolbox/ms/file/reader/impl/MzXmlReader.java:1821-1877 | One pass as written returns VsStep. |
| ViewData.StartViews | src/org/grits/toolbox/ms/file/reader/impl/MzXmlReader.java:1793-1802 | The method returns the initial state. |
| ViewData.ViewLoop | src/org/grits/toolbox/ms/file/reader/impl/MzXmlReader.java:1805-1886 | The loop method returns VsRun. |
| ViewData.GetScanViewData | src/org/grits/toolbox/ms/file/reader/impl/MzXmlReader.java:1778-1892 | The method returns ScanViewDataOf. |
| ViewData.ReadMsFileForView | src/org/grits/toolbox/ms/file/reader/impl/MzXmlReader.java:1758-1776 | ReadMSFileForView returns ScanView objects for the sorted views, each child being the same object its parent lists. |
| Readers.SortListSpec | src/org/grits/toolbox/ms/file/reader/impl/MzXmlReader.java:142-160 | A shell returns null exactly when its builder does; otherwise the same scans, each as often, with the same peaks, in order under a total preorder. |
| Readers.SortListOk | src/org/grits/toolbox/ms/file/reader/impl/MzXmlReader.java:149 | Sorting keeps every reference naming a stored peak. |
| Readers.ReadMzXmlFile | src/org/grits/toolbox/ms/file/reader/impl/MzXmlReader.java:142-160 | ReadMzXmlFile never gives null and returns getScanData's list sorted. |
| Readers.ReadMzXmlFileForTim | src/org/grits/toolbox/ms/file/reader/impl/MzXmlReader.java:172-191 | The TIM builder's result, sorted. |
| Readers.ReadMzXmlFileForDirectInfusion | src/org/grits/toolbox/ms/file/reader/impl/MzXmlReader.java:202-222 | The direct-infusion builder's result, sorted. |
| Readers.ReadMzXmlFileForLcMsMs | src/org/grits/toolbox/ms/file/reader/impl/MzXmlReader.java:232-259 | The LC-MS/MS builder's result for the given map (null from the two-argument form), sorted. |
| Readers.ReadMzXmlFileForMsProfile | src/org/grits/toolbox/ms/file/reader/impl/MzXmlReader.java:266-285 | The MS-profile builder's result, never null, sorted. |
| Readers.ReadMsFile | src/org/grits/toolbox/ms/file/reader/impl/MzXmlReader.java:31-38 | Direct infusion and TIM files are read whole; every other type gives null. |
| Readers.ReadMsFileForScan | src/org/grits/toolbox/ms/file/reader/impl/MzXmlReader.java:45-65 | LC-MS/MS and MS-profile files read the given scan, direct infusion and TIM are read whole, any other type gives null. |
| Readers.ReadMsFileSelected | src/org/grits/toolbox/ms/file/reader/impl/MzXmlReader.java:1733-1735 | The four-argument readMSFile is readMzXmlFile on the selectors. |
| ScanMaps.KeyedSpec | src/org/grits/toolbox/ms/file/FileReaderUtils.java:19-36 | The keys are exactly the scan numbers; each is bound to the last scan with that number; the order lists each key once. |
| ScanMaps.KeyedLastWins | src/org/grits/toolbox/ms/file/FileReaderUtils.java:29 | A repeated scan number keeps the later scan. |
| ScanMaps.RefOrderTotal | src/org/grits/toolbox/ms/file/FileReaderUtils.java:25-28 | A total preorder on peaks gives one on references. |
| ScanMaps.SortPeaksSpec | src/org/grits/toolbox/ms/file/FileReaderUtils.java:25-28 | Sorting a peak list changes nothing else about the scan, keeps the same references, and orders the stored peaks. |
| ScanMaps.SortAllPeaks | src/org/grits/toolbox/ms/file/FileReaderUtils.java:25-28 | Every scan's peak list sorted, the peaks themselves unchanged. |
| ScanMaps.SortAllPeaksOk | src/org/grits/toolbox/ms/file/FileReaderUtils.java:25-28 | A well-formed list stays well-formed and keeps its scan numbers. |
| ScanMaps.ListToHashMap | src/org/grits/toolbox/ms/file/FileReaderUtils.java:19-36 | Null for a null list; else every peak list sorted and the scans keyed by number. |
| ScanMaps.KeptRefsSpec | src/org/grits/toolbox/ms/file/FileReaderUtils.java:66-81 | The kept list is an order-preserving subsequence holding a reference exactly when the peak passes; no longer than the positive-m/z count. |
| ScanMaps.MzTotalPositive | src/org/grits/toolbox/ms/file/FileReaderUtils.java:74 | The total is positive exactly when some peak has positive m/z. |
| ScanMaps.FilteredScanSpec | src/org/grits/toolbox/ms/file/FileReaderUtils.java:56-90 | Only the peak list and the two totals change; kept peaks have positive m/z and intensity above the cut-off; the count is that of positive-m/z peaks. |
| ScanMaps.SubsequenceSelf | src/org/grits/toolbox/ms/file/FileReaderUtils.java:66-81 | Every list is a subsequence of itself. |
| ScanMaps.TotalSumsMz | src/org/grits/toolbox/ms/file/FileReaderUtils.java:74 | The total sums m/z: one peak at m/z 100, intensity 5 gives a total of 100. |
| ScanMaps.FilterPeakList | src/org/grits/toolbox/ms/file/FileReaderUtils.java:56-90 | The method returns FilteredScan. |
| ScanMaps.FilterForLevelSpec | src/org/grits/toolbox/ms/file/FileReaderUtils.java:42-47 | A scan is filtered at most once, and only when its level's filter is set with a positive cut-off. |
| ScanMaps.ListToFilteredHashMap | src/org/grits/toolbox/ms/file/FileReaderUtils.java:38-54 | Each scan filtered for its level and keyed by number; a null list leaves the map empty. |
| QuantSearch.DaToleranceExample | src/org/grits/toolbox/ms/file/extquant/data/QuantPeakMatch.java:142-148 | 20 ppm of m/z 500 is 0.01 Da; without ppm the interval is used as is. |
| QuantSearch.DaTolerancePositive | src/org/grits/toolbox/ms/file/extquant/data/QuantPeakMatch.java:142-148 | A positive interval gives a positive tolerance (for a positive m/z in ppm); a non-positive interval gives none for a non-negative m/z, so with NoMatchWithoutTolerance no precursor matches. |
| QuantSearch.StartIndex | src/org/grits/toolbox/ms/file/extquant/data/QuantPeakMatch.java:84-94 | The start index latches at an index within 4 tolerances while still 0, so a latch at index 0 is overwritten. |
| QuantSearch.StartIndexSpec | src/org/grits/toolbox/ms/file/extquant/data/QuantPeakMatch.java:84-94 | The start is the first index from 1 within 4 tolerances, or 0 when there is none. |
| QuantSearch.Top | src/org/grits/toolbox/ms/file/extquant/data/QuantPeakMatch.java:99-110 | A peak replaces the best only when strictly more intense, so the earliest of equally intense peaks wins. |
| QuantSearch.TopSpec | src/org/grits/toolbox/ms/file/extquant/data/QuantPeakMatch.java:99-110 | No top peak exactly when no peak of the range is heavy; else the first of the most intense. |
| QuantSearch.GatherSpec | src/org/grits/toolbox/ms/file/extquant/data/QuantPeakMatch.java:115-136 | The low and high m/z bound every near peak and are sentinels or near-peak m/z values; the sum is 0 without near peaks. |
| QuantSearch.MatchOf | src/org/grits/toolbox/ms/file/extquant/data/QuantPeakMatch.java:74-140 | FindQuantPeakMatch's three passes; None where the source returns null. |
| QuantSearch.MatchNone | src/org/grits/toolbox/ms/file/extquant/data/QuantPeakMatch.java:74-140 | Null exactly when there is no list, no peak strictly within the tolerance, or no heavy peak from the start index. |
| QuantSearch.NoMatchWithoutTolerance | src/org/grits/toolbox/ms/file/extquant/data/QuantPeakMatch.java:74-94 | A non-positive tolerance never matches. |
| QuantSearch.MatchSpec | src/org/grits/toolbox/ms/file/extquant/data/QuantPeakMatch.java:74-140 | On success the closest peak is the first nearest within the tolerance, the top peak the first most intense heavy peak from the start, and the range holds every summed peak. |
| QuantSearch.MatchReachesClosest | src/org/grits/toolbox/ms/file/extquant/data/QuantPeakMatch.java:84-110 | A heavy closest peak at or after the start index guarantees a match whose top is at least as intense. |
| QuantSearch.ExactHitMissed | src/org/grits/toolbox/ms/file/extquant/data/QuantPeakMatch.java:87-89 | Peaks at 500.10 and 500.30 with tolerance 0.1: the search for 500.10 returns null. |
| QuantSearch.MatchExample | src/org/grits/toolbox/ms/file/extquant/data/QuantPeakMatch.java:74-140 | A worked example: closest and top is 500.11; the sum is 50 + 80 over m/z 500.08 to 500.11. |
| QuantData.QuantPeak.constructor | src/org/grits/toolbox/ms/file/extquant/data/QuantPeak.java:10-15 | A fresh QuantPeak: every mass null, no matches. |
| QuantData.QuantPeak.SetSumIntensity | src/org/grits/toolbox/ms/file/extquant/data/QuantPeak.java:17-19 | Sets the sum intensity, nothing else. |
| QuantData.QuantPeak.SetMz | src/org/grits/toolbox/ms/file/extquant/data/QuantPeak.java:28-30 | Sets the m/z, nothing else. |
| QuantData.QuantPeak.SetMassMonoIsotopic | src/org/grits/toolbox/ms/file/extquant/data/QuantPeak.java:35-38 | Sets the monoisotopic mass, nothing else. |
| QuantData.QuantPeak.SetMassAveragine | src/org/grits/toolbox/ms/file/extquant/data/QuantPeak.java:43-46 | Sets the averagine mass, nothing else. |
| QuantData.QuantPeak.SetMatch | src/org/grits/toolbox/ms/file/extquant/data/QuantPeak.java:51-54 | Replaces the match list. |
| QuantData.QuantPeak.Add | src/org/grits/toolbox/ms/file/extquant/data/QuantPeak.java:55-58 | Appends the match at the end and returns true. |
| QuantData.QuantPeak.GetQuantPeakData | src/org/grits/toolbox/ms/file/extquant/data/QuantPeak.java:60-70 | A new QuantPeak with the given m/z and no matches. |
| QuantData.CompareMzSpec | src/org/grits/toolbox/ms/file/extquant/data/QuantPeakMatch.java:66-72 | The order is the numeric order of minMz, and antisymmetric. |
| QuantData.CompareMzTransitive | src/org/grits/toolbox/ms/file/extquant/data/QuantPeakMatch.java:66-72 | "compares at most 0" is transitive. |
| QuantData.QuantPeakMatch.constructor | src/org/grits/toolbox/ms/file/extquant/data/QuantPeakMatch.java:16-18 | A fresh match for its parent, every field null. |
| QuantData.QuantPeakMatch.SetCharge | src/org/grits/toolbox/ms/file/extquant/data/QuantPeakMatch.java:28-31 | Sets the charge, nothing else. |
| QuantData.QuantPeakMatch.SetMzMostAbundant | src/org/grits/toolbox/ms/file/extquant/data/QuantPeakMatch.java:36-39 | Sets the most abundant m/z, nothing else. |
| QuantData.QuantPeakMatch.SetIntensitySum | src/org/grits/toolbox/ms/file/extquant/data/QuantPeakMatch.java:44-47 | Sets the intensity sum, nothing else. |
| QuantData.QuantPeakMatch.SetMinMz | src/org/grits/toolbox/ms/file/extquant/data/QuantPeakMatch.java:52-55 | Sets the lower bound, nothing else. |
| QuantData.QuantPeakMatch.SetMaxMz | src/org/grits/toolbox/ms/file/extquant/data/QuantPeakMatch.java:60-63 | Sets the upper bound, nothing else. |
| QuantData.QuantPeakMatch.CompareTo | src/org/grits/toolbox/ms/file/extquant/data/QuantPeakMatch.java:66-72 | The sign of the minMz comparison; None when a bound is null. |
| QuantData.QuantPeakMatch.SetMinMax | src/org/grits/toolbox/ms/file/extquant/data/QuantPeakMatch.java:150-159 | Sets the bounds of the given match to m/z minus and plus the tolerance; a null m/z changes nothing. |
| QuantData.QuantPeakMatch.FindQuantPeakMatch | src/org/grits/toolbox/ms/file/extquant/data/QuantPeakMatch.java:74-140 | Null when MatchOf finds nothing (qp untouched); otherwise a new match for qp with the top peak's m/z, the widened gathered range and charge -1, and the gathered sum written into qp. |
| QuantData.FirstPass | src/org/grits/toolbox/ms/file/extquant/data/QuantPeakMatch.java:84-94 | The first loop returns the start index and the closest peak. |
| QuantData.TopPass | src/org/grits/toolbox/ms/file/extquant/data/QuantPeakMatch.java:99-110 | The second loop returns Top. |
| QuantData.GatherPass | src/org/grits/toolbox/ms/file/extquant/data/QuantPeakMatch.java:115-136 | The third loop returns the gathered sum and range. |
| QuantData.AllMatchesAppend | src/org/grits/toolbox/ms/file/extquant/data/QuantPeakData.java:37-47 | Collecting over two runs of peaks is collecting over each in turn. |
| QuantData.AllMatchesLength | src/org/grits/toolbox/ms/file/extquant/data/QuantPeakData.java:37-47 | The collected list is as long as the match counts add up to. |
| QuantData.AllMatchesMembers | src/org/grits/toolbox/ms/file/extquant/data/QuantPeakData.java:37-47 | A match is collected exactly when some peak holds it. |
| QuantData.QuantPeakData.constructor | src/org/grits/toolbox/ms/file/extquant/data/QuantPeakData.java:9-12 | A fresh container: no peaks, scan -1, time -1.0, max intensity 0. |
| QuantData.QuantPeakData.SetMaxIntensity | src/org/grits/toolbox/ms/file/extquant/data/QuantPeakData.java:18-20 | Sets the maximum intensity, nothing else. |
| QuantData.QuantPeakData.SetScanNo | src/org/grits/toolbox/ms/file/extquant/data/QuantPeakData.java:53-55 | Sets the scan number, nothing else. |
| QuantData.QuantPeakData.SetRetentionTime | src/org/grits/toolbox/ms/file/extquant/data/QuantPeakData.java:61-63 | Sets the retention time, nothing else. |
| QuantData.QuantPeakData.SetPeaks | src/org/grits/toolbox/ms/file/extquant/data/QuantPeakData.java:27-30 | Replaces the peak list. |
| QuantData.QuantPeakData.Add | src/org/grits/toolbox/ms/file/extquant/data/QuantPeakData.java:32-35 | Appends the peak at the end, earlier peaks unchanged, and returns true. |
| QuantData.QuantPeakData.GenerateAllMatches | src/org/grits/toolbox/ms/file/extquant/data/QuantPeakData.java:37-47 | Every peak's matches in peak order, nothing changed. |
| QuantReader.HitsAppend | src/org/grits/toolbox/ms/file/reader/impl/MSXMLReader.java:75-85 | The hits of a precursor list are those of its halves, in order. |
| QuantReader.HitsOne | src/org/grits/toolbox/ms/file/reader/impl/MSXMLReader.java:75-85 | One hit per marked precursor that matches under its own tolerance, none otherwise. |
| QuantReader.HitsBound | src/org/grits/toolbox/ms/file/reader/impl/MSXMLReader.java:75-85 | At most one hit per precursor peak; none without a marked one. |
| QuantReader.ReadScans | src/org/grits/toolbox/ms/file/reader/impl/MSXMLReader.java:69 | ReadMzXmlFile's list for a fresh reader, well-formed. |
| QuantReader.ScanOne | src/org/grits/toolbox/ms/file/reader/impl/MSXMLReader.java:70-71 | The scan the map binds to key 1: the last scan numbered 1, none when there is none. |
| QuantReader.ReadOfSpec | src/org/grits/toolbox/ms/file/reader/impl/MSXMLReader.java:64-96 | Unset selectors keep the old data; new data holds at most one QuantPeak per precursor, none without a list; its fields come from the last scan numbered 1, or stay default without such a scan. |
| QuantReader.MsXmlReader.constructor | src/org/grits/toolbox/ms/file/reader/impl/MSXMLReader.java:19-22 | A fresh reader: no precursor list, no selectors, no data, ppm false, interval 500. |
| QuantReader.MsXmlReader.SetPrecursorPeaks | src/org/grits/toolbox/ms/file/reader/impl/MSXMLReader.java:24-51 | Sets the precursor list, nothing else. |
| QuantReader.MsXmlReader.SetMsLevel | src/org/grits/toolbox/ms/file/reader/impl/MSXMLReader.java:24-51 | Sets the level selector, nothing else. |
| QuantReader.MsXmlReader.SetParentScanNum | src/org/grits/toolbox/ms/file/reader/impl/MSXMLReader.java:24-51 | Sets the parent selector, nothing else. |
| QuantReader.MsXmlReader.SetScanNum | src/org/grits/toolbox/ms/file/reader/impl/MSXMLReader.java:24-51 | Sets the scan selector, nothing else. |
| QuantReader.MsXmlReader.Read | src/org/grits/toolbox/ms/file/reader/impl/MSXMLReader.java:64-96 | Stores ppm and interval, then the data ReadOf gives, as fresh, distinct objects, each peak holding its one match. |
| QuantReader.MsXmlReader.ReadWithSelectors | src/org/grits/toolbox/ms/file/reader/impl/MSXMLReader.java:53-58 | Stores the selectors then reads; the result is always new data. |
| QuantReader.BuildData | src/org/grits/toolbox/ms/file/reader/impl/MSXMLReader.java:72-85 | A new QuantPeakData filled as far as Build gets. |
| QuantReader.MatchAll | src/org/grits/toolbox/ms/file/reader/impl/MSXMLReader.java:75-85 | Each marked precursor gets a new QuantPeak, kept with its one match when the search succeeds. |
| ScanViews.ScanView.constructor | src/org/grits/toolbox/ms/file/scan/data/ScanView.java:7-13 | A fresh view: every scalar null and an empty sub-scan list. |
| ScanViews.ScanView.SetScanNo | src/org/grits/toolbox/ms/file/scan/data/ScanView.java:30-32 | Sets the scan number, nothing else. |
| ScanViews.ScanView.SetRetentionTime | src/org/grits/toolbox/ms/file/scan/data/ScanView.java:44-46 | Sets the retention time, nothing else. |
| ScanViews.ScanView.SetParentScan | src/org/grits/toolbox/ms/file/scan/data/ScanView.java:58-60 | Sets the parent scan, nothing else. |
| ScanViews.ScanView.SetMsLevel | src/org/grits/toolbox/ms/file/scan/data/ScanView.java:72-74 | Sets the level, nothing else. |
| ScanViews.ScanView.SetPreCursorIntensity | src/org/grits/toolbox/ms/file/scan/data/ScanView.java:102-104 | Sets the precursor intensity, nothing else. |
| ScanViews.ScanView.SetPreCursorMz | src/org/grits/toolbox/ms/file/scan/data/ScanView.java:110-112 | Sets the precursor m/z, nothing else. |
| ScanViews.ScanView.SetSubScans | src/org/grits/toolbox/ms/file/scan/data/ScanView.java:86-88 | The view owns the given list. |
| ScanViews.ScanView.AddSubScan | src/org/grits/toolbox/ms/file/scan/data/ScanView.java:79-81 | The owned list grows by one view at its end. |
| ScanViews.ScanView.CompareTo | src/org/grits/toolbox/ms/file/scan/data/ScanView.java:15-18 | The wrapped difference of the scan numbers; None when either is null. |
| ScanViews.Compare | src/org/grits/toolbox/ms/file/scan/data/ScanView.java:15-18 | The difference in Java int arithmetic. |
| ScanViews.CompareSign | src/org/grits/toolbox/ms/file/scan/data/ScanView.java:15-18 | For scan numbers the subtraction cannot wrap, so its sign is the numeric comparison. |
| ScanViews.CompareReflexive | src/org/grits/toolbox/ms/file/scan/data/ScanView.java:15-18 | Equal scan numbers compare 0. |
| ScanViews.CompareAntisymmetric | src/org/grits/toolbox/ms/file/scan/data/ScanView.java:15-18 | For scan numbers, swapping the operands negates the result. |
| ScanViews.CompareWraps | src/org/grits/toolbox/ms/file/scan/data/ScanView.java:15-18 | Outside scan numbers the subtraction wraps: 0 and the least int each compare below the other. |
| MsFileInfo.GetType | src/org/grits/toolbox/ms/file/MSFileInfo.java:48-50 | The type and format joined by a dot. |
| MsFileInfo.Pieces | src/org/grits/toolbox/ms/file/MSFileInfo.java:52-66 | Splitting on dots always yields at least one piece. |
| MsFileInfo.GetMSType | src/org/grits/toolbox/ms/file/MSFileInfo.java:52-58 | The first of exactly two tokens, otherwise the input. |
| MsFileInfo.GetMSFormat | src/org/grits/toolbox/ms/file/MSFileInfo.java:60-66 | The second of exactly two tokens, otherwise the input. |
| MsFileInfo.TwoTokens | src/org/grits/toolbox/ms/file/MSFileInfo.java:52-66 | Two tokens are two dot-free pieces, the second non-empty, that begin the input. |
| MsFileInfo.PiecesOfJoined | src/org/grits/toolbox/ms/file/MSFileInfo.java:48-66 | Two dot-free parts joined by getType split back into those parts. |
| MsFileInfo.RoundTrip | src/org/grits/toolbox/ms/file/MSFileInfo.java:48-66 | GetMSType and getMSFormat invert getType for a dot-free type and a dot-free non-empty format. |
| MsFileInfo.NoDotUnchanged | src/org/grits/toolbox/ms/file/MSFileInfo.java:52-66 | Without a dot both accessors return the input. |
| MsFileInfo.EmptyFormatNotSplit | src/org/grits/toolbox/ms/file/MSFileInfo.java:52-66 | "MS." comes back whole from both. |
| MsFileInfo.TrailingDotIgnored | src/org/grits/toolbox/ms/file/MSFileInfo.java:52-66 | "MS.mzXML." still splits into "MS" and "mzXML". |
| MsFileInfo.ThreeTokensUnchanged | src/org/grits/toolbox/ms/file/MSFileInfo.java:52-66 | "MS.mzXML.gz" comes back whole. |
| FileCategories.LookUp | src/org/grits/toolbox/ms/file/FileCategory.java:25-32 | The category with identifier key, none for any other string. |
| FileCategories.FindByLabel | src/org/grits/toolbox/ms/file/FileCategory.java:34-41 | The category with that label, none for any other string. |
| FileCategories.ToList | src/org/grits/toolbox/ms/file/FileCategory.java:43-45 | The labels in declaration order, one per category. |
| FileCategories.LookUpInverts | src/org/grits/toolbox/ms/file/FileCategory.java:25-41 | Looking a category up by identifier or label finds it. |
| FileCategories.LabelsAreNotNames | src/org/grits/toolbox/ms/file/FileCategory.java:6-7 | LookUp does not accept labels. |

## Left out

- Opening files, the jrap parser itself and its exceptions: the parsed file is the input `Source`, and a file that cannot be opened is not modelled except where a caller maps it to a value (`NumScansAtLevel`).
- isValidMzXmlFile, hasMS1Scan, getFirstMS1Scan, getMaxScanNumber(String), getMinScanNumber: thin wrappers over opening a file and the parser.
- Progress listeners, logging and the every-tenth-scan progress messages: output only, they change no result.
- Floating point: doubles are exact reals, so rounding and NaN are not modelled, nor the relative-intensity division that only feeds an unread field.
- The sharing of one MS1 peak-list object across all MS1 scans: the model gives every MS1 scan the same list value, which is what any reader of it sees.
- HashMap and LinkedHashMap orders: HashMap iteration order is a ghost permutation of the key set; LinkedHashMap insertion order is stated as one entry per key.
- Peak.compareTo and Scan.compareTo: their classes are not part of this model, so sorting takes the order as a parameter and sortedness is proved for any total preorder.
- Interfaces, beans and the ExtractReader: no behaviour beyond what is modelled here.
- LcMsMsSubScans.SubScan: the recursion of processSubScan carries a fuel bound; a cyclic sub-scan map (which overflows the Java stack) is cut off instead, and `SubScanFuel` shows the bound changes nothing when it is large enough.
- ScanMaps.ListToFilteredHashMap: requires a well-formed scan list (every reference names a stored peak), which holds for every list the readers return.
- QuantData.QuantPeak.SetMatch, QuantData.QuantPeakData.SetPeaks, ScanViews.ScanView.SetSubScans: the Java setters keep the caller's list object and the getters hand out that live list; the model stores a sequence value, so later changes through the caller's list are not seen. No core caller depends on this sharing.
- QuantReader.MsXmlReader.Read: the exceptions read catches are modelled by where they stop the filling of the data; the logging and stack traces of its catch blocks are not modelled.
