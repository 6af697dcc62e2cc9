/**
 * The Go value types the generator works with, as mathematical integers
 * with the ranges Go gives them (a 64-bit platform is assumed for `uint`).
 */
module GoTypes {

  /** One byte of a Go string or byte slice. */
  type byte = x: int | 0 <= x < 0x100

  /** Go's `uint` on a 64-bit platform. */
  type uint = x: int | 0 <= x < 0x1_0000_0000_0000_0000

  /** Go's `int64`. */
  type int64 = x: int | -0x8000_0000_0000_0000 <= x < 0x8000_0000_0000_0000

  /** Length in bytes of an MD5 message digest (RFC 1321). */
  const DigestLength := 16

  /** What `md5.Sum` returns: exactly 16 bytes. */
  type Digest = s: seq<byte> | |s| == DigestLength witness seq(DigestLength, _ => 0)

  /**
   * The MD5 hash function of RFC 1321, left uninterpreted: the model takes
   * it as a parameter and relies only on the length of its result.
   */
  type Md5 = seq<byte> -> Digest
}
