/** The few pieces of Rust's prelude that the card model needs: the `u8`
    integer type, `Option`, `Result`, and the reflexive `Into<u8>`
    conversion that `From<T> where T: Into<u8>` uses when `T` is `u8`. */
module Prelude {

  /** Rust's `u8`: the values 0..255. */
  type U8 = x: int | 0 <= x < 256

  datatype Option<+T> = None | Some(value: T)

  /** `anyhow::Result<T>`: either a value or an error carrying its message. */
  datatype Result<+T, +E> = Success(value: T) | Failure(error: E)

  /** `impl From<u8> for u8` (and so `Into<u8> for u8`) is the identity. */
  function U8Into(x: U8): U8 { x }
}
