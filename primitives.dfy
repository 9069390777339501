/**
 * Machine integers, fixed 32-byte arrays and the Option/Result wrappers shared
 * by the attestor (Rust) and the aggregator's database models (Go).
 */
module Primitives {

  /** `u8` / Go `byte`. */
  newtype u8 = x: int | 0 <= x < 0x100

  /** `u32` / Go `uint32`. */
  newtype u32 = x: int | 0 <= x < 0x1_0000_0000

  /** `u64` / Go `uint64`. */
  newtype u64 = x: int | 0 <= x < 0x1_0000_0000_0000_0000

  /** `n` zero bytes. */
  function Zeros(n: nat): (z: seq<u8>)
    ensures |z| == n && forall i :: 0 <= i < n ==> z[i] == 0
  {
    if n == 0 then [] else Zeros(n - 1) + [0]
  }

  /** A fixed-size 32-byte array: Rust `[u8; 32]`, Go `[32]byte`. */
  type Bytes32 = s: seq<u8> | |s| == 32 witness Zeros(32)

  /** The zero-filled 32-byte array `[0u8; 32]`. */
  const Zero32: Bytes32 := Zeros(32)

  datatype Option<+T> = None | Some(value: T)

  datatype Result<+T, +E> = Ok(value: T) | Err(error: E)
}
