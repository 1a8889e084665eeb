/** Option and Result, and the width of the machine integers the emulator counts with. */
module Prelude {
  datatype Option<+T> = None | Some(value: T)

  datatype Result<+T, +E> = Ok(value: T) | Err(error: E)

  const U64_MAX: nat := 0xFFFF_FFFF_FFFF_FFFF

  function Min(a: nat, b: nat): nat { if a <= b then a else b }

  function Max(a: nat, b: nat): nat { if a <= b then b else a }

  /** Rust's u64::saturating_add. */
  function SaturatingAdd(a: nat, b: nat): nat { Min(a + b, U64_MAX) }
}
