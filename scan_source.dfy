/**
 * Queries a reader makes over the scan numbers of a file before or instead
 * of building scans (getFirstScanNumber, getMinMSLevel, countScansByMSLevel).
 */
module ScanSource {
  import opened Wrappers
  import opened Spectra

  /** Integer.MAX_VALUE, the start of getMinMSLevel's running minimum. */
  const IntMaxValue: int := 0x7fff_ffff

  function FirstScanFrom(src: Source, i: int): int
    decreases src.maxScanNumber - i
  {
    if i > src.maxScanNumber then -1
    else if i in src.scans then i
    else FirstScanFrom(src, i + 1)
  }

  /** getFirstScanNumber: the first number in 1..maxScanNumber that rap(i) answers, else -1. */
  function FirstScanNumber(src: Source): int
  {
    FirstScanFrom(src, 1)
  }

  lemma {:induction false} FirstScanFromSpec(src: Source, i: int)
    requires i >= 0
    ensures var r := FirstScanFrom(src, i);
      (r == -1 <==> forall j :: i <= j <= src.maxScanNumber ==> j !in src.scans) &&
      (r != -1 ==> i <= r <= src.maxScanNumber && r in src.scans &&
                   forall j :: i <= j < r ==> j !in src.scans)
    decreases src.maxScanNumber - i
  {
    if i <= src.maxScanNumber && i !in src.scans {
      FirstScanFromSpec(src, i + 1);
    }
  }

  /** The first scan is the lowest present number from 1 on; -1 exactly when there is none. */
  lemma FirstScanNumberSpec(src: Source)
    ensures var r := FirstScanNumber(src);
      (r == -1 <==> forall j :: 1 <= j <= src.maxScanNumber ==> j !in src.scans) &&
      (r != -1 ==> 1 <= r <= src.maxScanNumber && r in src.scans &&
                   forall j :: 1 <= j < r ==> j !in src.scans)
  {
    FirstScanFromSpec(src, 1);
  }

  method GetFirstScanNumber(src: Source) returns (first: int)
    ensures first == FirstScanNumber(src)
  {
    var i := 1;
    while i <= src.maxScanNumber
      invariant i >= 1
      invariant FirstScanFrom(src, i) == FirstScanNumber(src)
      decreases src.maxScanNumber - i
    {
      if Rap(src, i).Some? {
        return i;
      }
      i := i + 1;
    }
    return -1;
  }

  /** The running minimum of the levels of present scans lo..hi, from `start`. */
  function MinLevelUpTo(src: Source, lo: int, hi: int, start: int): int
    decreases hi - lo
  {
    if hi < lo then start
    else
      var m := MinLevelUpTo(src, lo, hi - 1, start);
      if hi in src.scans && src.scans[hi].header.msLevel < m then src.scans[hi].header.msLevel else m
  }

  lemma {:induction false} MinLevelUpToSpec(src: Source, lo: int, hi: int, start: int)
    ensures var m := MinLevelUpTo(src, lo, hi, start);
      m <= start &&
      (forall j :: lo <= j <= hi && j in src.scans ==> m <= src.scans[j].header.msLevel) &&
      (m == start || exists j :: lo <= j <= hi && j in src.scans && m == src.scans[j].header.msLevel)
    decreases hi - lo
  {
    if lo <= hi {
      MinLevelUpToSpec(src, lo, hi - 1, start);
    }
  }

  /** getMinMSLevel: -1 without scans, else the least level from the first scan to the last number. */
  function MinMsLevel(src: Source): int
  {
    var first := FirstScanNumber(src);
    if first == -1 then -1 else MinLevelUpTo(src, first, src.maxScanNumber, IntMaxValue)
  }

  /** The least level is the level of some scan and no scan has a lower one. */
  lemma MinMsLevelSpec(src: Source)
    requires FirstScanNumber(src) != -1
    requires forall j :: j in src.scans ==> src.scans[j].header.msLevel <= IntMaxValue
    ensures exists j :: j in src.scans && MinMsLevel(src) == src.scans[j].header.msLevel
    ensures forall j :: 1 <= j <= src.maxScanNumber && j in src.scans ==>
      MinMsLevel(src) <= src.scans[j].header.msLevel
  {
    var first := FirstScanNumber(src);
    FirstScanNumberSpec(src);
    MinLevelUpToSpec(src, first, src.maxScanNumber, IntMaxValue);
    var m := MinMsLevel(src);
    if m == IntMaxValue {
      assert m <= src.scans[first].header.msLevel;
    }
  }

  method GetMinMsLevel(src: Source) returns (level: int)
    ensures level == MinMsLevel(src)
  {
    var first := GetFirstScanNumber(src);
    if first == -1 {
      return -1;
    }
    FirstScanNumberSpec(src);
    level := IntMaxValue;
    var i := first;
    while i <= src.maxScanNumber
      invariant first <= i <= src.maxScanNumber + 1
      invariant level == MinLevelUpTo(src, first, i - 1, IntMaxValue)
      decreases src.maxScanNumber - i
    {
      var raw := Rap(src, i);
      if raw.Some? && raw.value.header.msLevel < level {
        level := raw.value.header.msLevel;
      }
      i := i + 1;
    }
  }

  /** Whether the scan numbered j counts as a scan of `level` (countScansByMSLevel's test). */
  predicate CountsAt(src: Source, j: int, level: int)
  {
    j in src.scans && src.scans[j].header.num > 0 && src.scans[j].header.msLevel == level
  }

  function CountUpTo(src: Source, lo: int, hi: int, level: int): nat
    decreases hi - lo
  {
    if hi < lo then 0
    else CountUpTo(src, lo, hi - 1, level) + (if CountsAt(src, hi, level) then 1 else 0)
  }

  /** The number of scans in lo..hi with a positive number at that level. */
  lemma {:induction false} CountUpToIsSetSize(src: Source, lo: int, hi: int, level: int)
    ensures CountUpTo(src, lo, hi, level) == |set j | lo <= j <= hi && CountsAt(src, j, level)|
    decreases hi - lo
  {
    if hi < lo {
      assert (set j | lo <= j <= hi && CountsAt(src, j, level)) == {};
    } else {
      CountUpToIsSetSize(src, lo, hi - 1, level);
      var prev := set j | lo <= j <= hi - 1 && CountsAt(src, j, level);
      if CountsAt(src, hi, level) {
        assert (set j | lo <= j <= hi && CountsAt(src, j, level)) == prev + {hi};
      } else {
        assert (set j | lo <= j <= hi && CountsAt(src, j, level)) == prev;
      }
    }
  }

  /** countScansByMSLevel: -1 without scans, else how many scans from the first on are at `level`. */
  function CountScansByMsLevel(src: Source, level: int): (n: int)
    ensures n >= -1
  {
    var first := FirstScanNumber(src);
    if first == -1 then -1 else CountUpTo(src, first, src.maxScanNumber, level)
  }

  /** The count is the size of the set of matching scan numbers. */
  lemma CountScansByMsLevelSpec(src: Source, level: int)
    requires FirstScanNumber(src) != -1
    ensures CountScansByMsLevel(src, level) ==
      |set j | 1 <= j <= src.maxScanNumber && CountsAt(src, j, level)|
  {
    var first := FirstScanNumber(src);
    FirstScanNumberSpec(src);
    CountUpToIsSetSize(src, first, src.maxScanNumber, level);
    assert (set j | 1 <= j <= src.maxScanNumber && CountsAt(src, j, level)) ==
      (set j | first <= j <= src.maxScanNumber && CountsAt(src, j, level));
  }

  method CountScans(src: Source, level: int) returns (n: int)
    ensures n == CountScansByMsLevel(src, level)
  {
    var first := GetFirstScanNumber(src);
    if first == -1 {
      return -1;
    }
    FirstScanNumberSpec(src);
    n := 0;
    var i := first;
    while i <= src.maxScanNumber
      invariant first <= i <= src.maxScanNumber + 1
      invariant n == CountUpTo(src, first, i - 1, level)
      decreases src.maxScanNumber - i
    {
      var raw := Rap(src, i);
      if raw.Some? && raw.value.header.num > 0 && raw.value.header.msLevel == level {
        n := n + 1;
      }
      i := i + 1;
    }
  }

  /**
   * getNumMS1Scans / getNumMS2Scans: the count at level 1 or 2 of a file
   * (None: the file cannot be opened, counted as 0).
   */
  function NumScansAtLevel(file: Option<Source>, level: int): (n: int)
    ensures file.None? ==> n == 0
    ensures file.Some? ==> n == CountScansByMsLevel(file.value, level)
  {
    if file.None? then 0 else CountScansByMsLevel(file.value, level)
  }
}
