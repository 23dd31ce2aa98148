/** Value types of the Java back end that have a fixed width. */
module JavaTypes {

  /** java.lang.Integer / int: 32-bit two's complement. */
  newtype int32 = x: int | -0x8000_0000 <= x < 0x8000_0000

  /** java.lang.Long / long: 64-bit two's complement. */
  newtype int64 = x: int | -0x8000_0000_0000_0000 <= x < 0x8000_0000_0000_0000
}
