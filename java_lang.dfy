/** The few pieces of `java.lang` / `java.util` arithmetic that node hashing relies on. */
module JavaLang {

  const TWO_TO_32: int := 0x1_0000_0000

  /** A Java `int`. */
  newtype int32 = x: int | -0x8000_0000 <= x < 0x8000_0000

  /** Java `int` arithmetic: the mathematical value reduced into the 32-bit two's complement range. */
  function Wrap32(x: int): (r: int32)
    ensures (r as int - x) % TWO_TO_32 == 0
    ensures -0x8000_0000 <= x < 0x8000_0000 ==> r as int == x
  {
    ((x + 0x8000_0000) % TWO_TO_32 - 0x8000_0000) as int32
  }

  /**
   * The hash of a sequence of element hashes as `Arrays.hashCode` and `List.hashCode` compute it
   * (and hence `Objects.hash`): start at 1, then `h := 31 * h + e` for each element, in `int`
   * arithmetic.
   */
  function HashAll(hs: seq<int32>): int32
  {
    if |hs| == 0 then 1 else Wrap32(31 * HashAll(hs[..|hs| - 1]) as int + hs[|hs| - 1] as int)
  }

  /** `Integer.hashCode`: the value itself. */
  function IntegerHash(x: int32): int32
  {
    x
  }
}
