/** Error numbers and the option type shared by every part of the model. */
module Basics {

  datatype Option<+T> = None | Some(value: T)

  /** The errno values that the modelled code tests or sends, and all others. */
  datatype Errno = ENOENT | ENOSYS | EIO | EINVAL | EFBIG | EPROTO | EHOSTUNREACH | EEXIST | Other(code: int)

  /** Identifies a comms module. */
  datatype Uuid = Uuid(text: string)

  function Min(a: int, b: int): int {
    if a < b then a else b
  }

  function Bit(b: bool): nat {
    if b then 1 else 0
  }
}
