/** Shared vocabulary: Rust's Option and Result, the fixed-width integers the
    indexer uses, 32-byte hashes, and the error values of the libraries the
    indexer calls into (kept as opaque records carrying their rendered text). */
module Common {

  datatype Option<+T> = None | Some(value: T) {
    function GetOr(default: T): T {
      match this
      case Some(v) => v
      case None => default
    }
  }

  datatype Result<+T, +E> = Ok(value: T) | Err(error: E)

  /** Rust's `u32`. */
  type U32 = n: nat | n < 0x1_0000_0000

  /** Rust's `u64`. */
  type U64 = n: nat | n < 0x1_0000_0000_0000_0000

  const U32_MAX: U32 := 0xFFFF_FFFF

  type Byte = b: nat | b < 256

  /** ethers' `H256`: exactly 32 bytes. */
  type H256 = s: seq<Byte> | |s| == 32 witness seq(32, i => 0)

  /** `crate::clients::common::ClientError`; `debug` is its `{:?}` rendering. */
  datatype ClientError = ClientError(debug: string)

  /** `ethers::providers::ProviderError`; `debug` is its `{:?}` rendering. */
  datatype ProviderError = ProviderError(debug: string)

  /** `anyhow::Error` built from a message. */
  datatype AnyError = AnyError(message: string)

  function Min(a: int, b: int): int {
    if a <= b then a else b
  }

  function Max(a: int, b: int): int {
    if a < b then b else a
  }
}
