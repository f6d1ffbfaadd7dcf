/** Small shared types and the integer widths the Go code relies on. */
module Basics {

  datatype Option<+T> = None | Some(value: T)

  datatype Result<+T, +E> = Ok(value: T) | Err(error: E)

  const U64: nat := 0x1_0000_0000_0000_0000
  const U128: nat := 0x1_00000000_00000000_00000000_00000000
  const U256: nat := 0x1_00000000_00000000_00000000_00000000_00000000_00000000_00000000_00000000

  /** Amounts that have crossed the wire fit 256 bits. */
  type Grt = v: nat | v < U256

  /** Addresses and identifiers are only ever compared for equality. */
  type Address = string
  type SessionId = string

  /** uint64 addition wraps. */
  function AddU64(a: nat, b: nat): nat {
    (a + b) % U64
  }

  /** uint64 difference that the ledger clamps at zero instead of wrapping. */
  function Since(now: nat, baseline: nat): nat {
    if now >= baseline then now - baseline else 0
  }

  /** An amount as it crosses the wire: the 256-bit GRT conversion clamps. */
  function Wire(amount: nat): Grt {
    if amount < U256 then amount else U256 - 1
  }
}
