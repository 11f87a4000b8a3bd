/** Strings in buffers of a fixed size. */
module Buffers {

  /** What a buffer of `size` characters, terminator included, can keep of a string. */
  function Cropped(s: string, size: nat): string
    requires size > 0
  {
    if |s| < size then s else s[..size - 1]
  }
}
