/** Go's value types as the rest of the model uses them. */
module GoTypes {

  /** One byte of a Go string, written as the character with that code. */
  type Byte = c: char | c as int < 256

  /**
   * A Go `string` (or `[]byte`): a sequence of bytes, so `|s|` is Go's `len(s)`.
   * Text that is not ASCII is represented by its UTF-8 bytes.
   */
  type GoString = seq<Byte>

  /** Go's `int64`. */
  type Int64 = x: int | -0x8000_0000_0000_0000 <= x < 0x8000_0000_0000_0000

  /** The process environment; `os.Getenv` reads a missing variable as "". */
  type Environ = map<GoString, GoString>

  function Getenv(env: Environ, key: GoString): GoString
  {
    if key in env then env[key] else ""
  }
}
