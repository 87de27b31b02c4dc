/** Bytes and byte strings. A C++ `std::string` is a sequence of bytes. */
module Bytes {

  newtype byte = b: int | 0 <= b < 256

  type Bytes = seq<byte>

  predicate IsAscii(s: string) {
    forall i :: 0 <= i < |s| ==> s[i] as int < 128
  }

  /** The bytes of an ASCII literal, used for the source's constant strings. */
  function Ascii(s: string): (r: Bytes)
    requires IsAscii(s)
    ensures |r| == |s|
    ensures forall i :: 0 <= i < |s| ==> r[i] as int == s[i] as int
  {
    seq(|s|, i requires 0 <= i < |s| => s[i] as int as byte)
  }
}
