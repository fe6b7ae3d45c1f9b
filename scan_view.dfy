/**
 * ScanView: the light scan record of the viewer path. Every scalar field
 * starts null (None); the sub-scan list is owned by the view, starts empty,
 * and grows in place when a caller appends to the list getSubScans hands
 * out. compareTo subtracts the scan numbers in Java int arithmetic.
 */
module ScanViews {
  import opened Wrappers
  import opened Numeric

  /** The scalar fields of a view, read together. */
  datatype Scalars = Scalars(
    scanNo: Option<int>,
    retentionTime: Option<real>,
    parentScan: Option<int>,
    msLevel: Option<int>,
    preCursorIntensity: Option<real>,
    preCursorMz: Option<real>)

  const NoScalars := Scalars(None, None, None, None, None, None)

  class ScanView {
    var scanNo: Option<int>
    var retentionTime: Option<real>
    var parentScan: Option<int>
    var msLevel: Option<int>
    var preCursorIntensity: Option<real>
    var preCursorMz: Option<real>
    var subScans: seq<ScanView>

    function Fields(): Scalars
      reads this
    {
      Scalars(scanNo, retentionTime, parentScan, msLevel, preCursorIntensity, preCursorMz)
    }

    /** A fresh view: every scalar null, an empty sub-scan list. */
    constructor()
      ensures Fields() == NoScalars && subScans == []
    {
      scanNo, retentionTime, parentScan, msLevel := None, None, None, None;
      preCursorIntensity, preCursorMz := None, None;
      subScans := [];
    }

    method SetScanNo(n: Option<int>)
      modifies this
      ensures Fields() == old(Fields()).(scanNo := n) && subScans == old(subScans)
    {
      scanNo := n;
    }

    method SetRetentionTime(t: Option<real>)
      modifies this
      ensures Fields() == old(Fields()).(retentionTime := t) && subScans == old(subScans)
    {
      retentionTime := t;
    }

    method SetParentScan(n: Option<int>)
      modifies this
      ensures Fields() == old(Fields()).(parentScan := n) && subScans == old(subScans)
    {
      parentScan := n;
    }

    method SetMsLevel(n: Option<int>)
      modifies this
      ensures Fields() == old(Fields()).(msLevel := n) && subScans == old(subScans)
    {
      msLevel := n;
    }

    method SetPreCursorIntensity(x: Option<real>)
      modifies this
      ensures Fields() == old(Fields()).(preCursorIntensity := x) && subScans == old(subScans)
    {
      preCursorIntensity := x;
    }

    method SetPreCursorMz(x: Option<real>)
      modifies this
      ensures Fields() == old(Fields()).(preCursorMz := x) && subScans == old(subScans)
    {
      preCursorMz := x;
    }

    /** setSubScans: the view now owns the given list. */
    method SetSubScans(list: seq<ScanView>)
      modifies this
      ensures subScans == list && Fields() == old(Fields())
    {
      subScans := list;
    }

    /** getSubScans().add(v): the owned list itself grows by v, at its end. */
    method AddSubScan(v: ScanView)
      modifies this
      ensures subScans == old(subScans) + [v] && Fields() == old(Fields())
    {
      subScans := subScans + [v];
    }

    /** compareTo: None when either scan number is null (the unboxing throws). */
    function CompareTo(o: ScanView): (c: Option<int>)
      reads this, o
      ensures c.None? <==> scanNo.None? || o.scanNo.None?
      ensures c.Some? && NonNegInt32(scanNo.value) && NonNegInt32(o.scanNo.value) ==>
        (c.value < 0 <==> scanNo.value < o.scanNo.value) && (c.value == 0 <==> scanNo.value == o.scanNo.value)
    {
      if scanNo.None? || o.scanNo.None? then None
      else
        var (a, b) := (scanNo.value, o.scanNo.value);
        assert NonNegInt32(a) && NonNegInt32(b) ==> (Compare(a, b) < 0 <==> a < b) && (Compare(a, b) == 0 <==> a == b) by {
          if NonNegInt32(a) && NonNegInt32(b) {
            CompareSign(a, b);
          }
        }
        Some(Compare(a, b))
    }
  }

  /** A scan number as the file can hold it: a non-negative Java int. */
  predicate NonNegInt32(n: int)
  {
    0 <= n < 0x8000_0000
  }

  /** scanNo - o.scanNo in Java int arithmetic. */
  function Compare(a: int, b: int): (c: int)
    ensures IsInt32(c)
  {
    Wrap32(a - b)
  }

  /** For scan numbers the subtraction cannot wrap, so its sign is the numeric comparison. */
  lemma CompareSign(a: int, b: int)
    requires NonNegInt32(a) && NonNegInt32(b)
    ensures Compare(a, b) == a - b
    ensures (Compare(a, b) < 0 <==> a < b) && (Compare(a, b) == 0 <==> a == b) && (Compare(a, b) > 0 <==> a > b)
  {
  }

  /** compareTo gives 0 on equal scan numbers, whatever they are. */
  lemma CompareReflexive(a: int)
    ensures Compare(a, a) == 0
  {
  }

  /** For scan numbers compareTo is antisymmetric: swapping the operands negates the result. */
  lemma CompareAntisymmetric(a: int, b: int)
    requires NonNegInt32(a) && NonNegInt32(b)
    ensures Compare(b, a) == -Compare(a, b)
  {
    CompareSign(a, b);
    CompareSign(b, a);
  }

  /**
   * Outside the scan-number range the subtraction wraps: 0 and the least
   * Java int each compare below the other.
   */
  lemma CompareWraps()
    ensures Compare(0, -0x8000_0000) < 0 && Compare(-0x8000_0000, 0) < 0
  {
    assert Wrap32(0x8000_0000) == -0x8000_0000;
    assert Wrap32(-0x8000_0000) == -0x8000_0000;
  }
}
