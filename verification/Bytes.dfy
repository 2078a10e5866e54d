/** Bytes, lengths and places to seek to. */
module Bytes {

  type Byte = b: int | 0 <= b < 256

  function Min(a: nat, b: nat): nat { if a <= b then a else b }
  function Max(a: nat, b: nat): nat { if a >= b then a else b }

  datatype SeekFrom = Start(offset: nat) | Current(diff: int) | End(fromEnd: int)
}
