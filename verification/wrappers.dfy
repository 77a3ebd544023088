/** The usual optional value and success-or-error value. */
module Wrappers {
  datatype Option<+T> = None | Some(value: T)

  datatype Result<+T, +E> = Ok(value: T) | Err(error: E)
}

/** Small things that several models use. */
module Basics {
  type Byte = b: int | 0 <= b < 256 witness 0

  function One(b: bool): nat {
    if b then 1 else 0
  }

  function TrimPrefix(s: string, prefix: string): string {
    if prefix <= s then s[|prefix|..] else s
  }
}
