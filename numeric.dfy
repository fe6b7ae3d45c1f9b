/**
 * Java numbers as the model sees them. A `double` is a `real` (no rounding is
 * modelled); the two extreme doubles that the readers use as sentinels are
 * kept as their exact values, because they can reach a result unchanged.
 */
module Numeric {
  /** Math.abs on a double. */
  function Abs(x: real): (r: real)
    ensures r >= 0.0
    ensures r == x || r == -x
  {
    if x < 0.0 then -x else x
  }

  /** Double.MAX_VALUE, (2 - 2^-52) * 2^1023. */
  const DoubleMaxValue: real :=
    (2.0 - 1.0 / 4503599627370496.0) *
    89884656743115795386465259539451236680898848947115328636715040578866337902750481566354238661203768010560056939935696678829394884407208311246423715319737062188883946712432742638151109800623047059726541476042502884419075341171231440736956555270413618581675255342293149119973622969239858152417678164812112068608.0

  /** Double.MIN_VALUE, the smallest positive double, 2^-1074. */
  const DoubleMinValue: real :=
    1.0 / 202402253307310618352495346718917307049556649764142118356901358027430339567995346891960383701437124495187077864316811911389808737385793476867013399940738509921517424276566361364466907742093216341239767678472745068562007483424692698618103355649159556340810056512358769552333414615230502532186327508646006263307707741093494784.0

  /** Where the two sentinels lie; every proof about them uses only this. */
  lemma SentinelBounds()
    ensures 0.0 < DoubleMinValue < 0.000001
    ensures DoubleMaxValue > 1000000000000.0
  {
  }

  /** The range of a Java int. */
  predicate IsInt32(x: int)
  {
    -0x8000_0000 <= x < 0x8000_0000
  }

  /** Java int arithmetic: the mathematical value reduced into the int range. */
  function Wrap32(x: int): (r: int)
    ensures IsInt32(r)
    ensures (x - r) % 0x1_0000_0000 == 0
    ensures IsInt32(x) ==> r == x
  {
    (x + 0x8000_0000) % 0x1_0000_0000 - 0x8000_0000
  }
}
