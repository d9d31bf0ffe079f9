/** Primitive types shared by every module: Rust's fixed-width unsigned
    integers as subset types of `int`, `Option`, and account addresses. */
module Common {

  /** 2^64 and 2^128: one past the largest `u64` and `u128`. */
  const U64_LIMIT: int := 0x1_0000_0000_0000_0000
  const U128_LIMIT: int := 0x1_0000_0000_0000_0000_0000_0000_0000_0000

  type u8 = x: int | 0 <= x < 0x100
  type u64 = x: int | 0 <= x < 0x1_0000_0000_0000_0000
  type u128 = x: int | 0 <= x < 0x1_0000_0000_0000_0000_0000_0000_0000_0000

  /** A bech32 account address (`cosmwasm_std::Addr`), kept as its text. */
  type Addr = string

  datatype Option<T> = None | Some(value: T) {
    /** Rust's `Option::unwrap_or`. */
    function UnwrapOr(default: T): T {
      match this
      case Some(v) => v
      case None => default
    }
  }
}
