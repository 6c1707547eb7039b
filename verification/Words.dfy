/** Machine words, byte strings and the small wrappers the other modules share. */
module Words {

  datatype Option<+T> = None | Some(value: T)

  const U32_MAX: int := 0xFFFF_FFFF
  const U64_MAX: int := 0xFFFF_FFFF_FFFF_FFFF
  const INT64_MAX: int := 0x7FFF_FFFF_FFFF_FFFF

  type u32 = x: int | 0 <= x <= U32_MAX
  type u64 = x: int | 0 <= x <= U64_MAX

  newtype byte = x: int | 0 <= x < 256

  /** A Go [32]byte. */
  type Bytes32 = b: seq<byte> | |b| == 32 witness seq(32, i => 0 as byte)

  /** Go's wrapping uint32 addition. */
  function Add32(a: u32, b: u32): u32 {
    (a + b) % (U32_MAX + 1)
  }

  /** Go's wrapping uint64 addition. */
  function Add64(a: u64, b: u64): u64 {
    (a + b) % (U64_MAX + 1)
  }

  function Max(a: int, b: int): int {
    if a < b then b else a
  }

  /** A Go map read of an integer-valued map: an absent key reads as zero. */
  function Lookup<K(==)>(m: map<K, u32>, k: K): u32 {
    if k in m then m[k] else 0
  }
}
