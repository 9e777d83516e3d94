/** Shared helpers: the `Result` type that stands for Rust's `Result`, and the
    fixed-width integer types the data model uses. */
module Base {

  /** Rust's `Result<T, E>`; usable with Dafny's `:-`. */
  datatype Result<+T, +E> = Ok(value: T) | Err(error: E) {
    predicate IsFailure() { Err? }

    function PropagateFailure<U>(): Result<U, E>
      requires Err?
    {
      Err(error)
    }

    function Extract(): T
      requires Ok?
    {
      value
    }
  }

  /** Rust's `Option<T>`. */
  datatype Option<+T> = None | Some(value: T)

  /** Rust's `i32`. */
  newtype int32 = x: int | -0x8000_0000 <= x < 0x8000_0000

  /** Rust's `u32`. */
  newtype uint32 = x: int | 0 <= x < 0x1_0000_0000

  /** Rust's `u8`. */
  newtype uint8 = x: int | 0 <= x < 0x100
}
