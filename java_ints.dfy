/** Java's 32-bit int arithmetic, written out over unbounded integers. */
module JavaInts {

  const IntMin: int := -0x8000_0000
  const IntMax: int := 0x7fff_ffff

  predicate IsInt32(x: int) { IntMin <= x <= IntMax }

  /** What an int multiplication or addition keeps of its exact value: the residue in [-2^31, 2^31). */
  function Int32(x: int): (r: int)
    ensures IsInt32(r)
    ensures IsInt32(x) ==> r == x
  {
    var m := x % 0x1_0000_0000;
    if m >= 0x8000_0000 then m - 0x1_0000_0000 else m
  }

  /** The kept value differs from the exact one by a multiple of 2^32. */
  lemma Int32Wraps(x: int)
    ensures (Int32(x) - x) % 0x1_0000_0000 == 0
  {
    var m := x % 0x1_0000_0000;
    var q := x / 0x1_0000_0000;
    assert x == q * 0x1_0000_0000 + m;
    if m >= 0x8000_0000 {
      assert Int32(x) - x == (-q - 1) * 0x1_0000_0000;
    } else {
      assert Int32(x) - x == -q * 0x1_0000_0000;
    }
  }
}
