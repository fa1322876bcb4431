/** Values of the JavaScript runtime that the typewriter works on. */
module Js {

  /** One UTF-16 code unit: what `String.prototype.charAt` returns and what
      `length` counts, so a character outside the Basic Multilingual Plane
      is two code units and takes two typing steps. */
  newtype CodeUnit = x: int | 0 <= x < 0x1_0000

  /** A JavaScript string: a sequence of UTF-16 code units. */
  type JsString = seq<CodeUnit>

  const Space: CodeUnit := 0x20       // ' '
  const Bang: CodeUnit := 0x21        // '!'
  const Comma: CodeUnit := 0x2C       // ','
  const Period: CodeUnit := 0x2E      // '.'
  const UpperA: CodeUnit := 0x41      // 'A'
  const UpperZ: CodeUnit := 0x5A      // 'Z'
  const Bar: CodeUnit := 0x7C         // '|'

  /** A property of an object literal that may be absent (`undefined`). */
  datatype Option<T> = None | Some(value: T) {
    function GetOr(default: T): T {
      match this
      case Some(v) => v
      case None => default
    }
  }
}
