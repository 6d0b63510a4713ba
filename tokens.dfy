/** The instruction tree of the eight-command tape language and the byte
    alphabet its programs are written in. */
module Tokens {

  /** An unsigned 8-bit value: a byte of program text, a tape cell, an output byte. */
  newtype byte = x: int | 0 <= x < 256

  /** One parsed statement; a loop owns its body. */
  datatype Token =
    | Plus
    | Minus
    | ShiftRight
    | ShiftLeft
    | Output
    | Input
    | Loop(body: seq<Token>)
    | Comment

  // The bytes the grammar mentions.
  const PLUS: byte := 43       // '+'
  const MINUS: byte := 45      // '-'
  const RIGHT: byte := 62      // '>'
  const LEFT: byte := 60       // '<'
  const DOT: byte := 46        // '.'
  const COMMA: byte := 44      // ','
  const OPEN: byte := 91       // '['
  const CLOSE: byte := 93      // ']'
  const SLASH: byte := 47      // '/'
  const SPACE: byte := 32      // ' '
  const TAB: byte := 9         // '\t'
  const CR: byte := 13         // '\r'
  const LF: byte := 10         // '\n'

  /** The separators skipped around statements: space, tab, carriage return, line feed. */
  predicate IsSpace(c: byte) {
    c == SPACE || c == TAB || c == CR || c == LF
  }

  /** The number of Output statements directly in a list (not inside its loops). */
  function DirectOutputs(ts: seq<Token>): nat {
    if ts == [] then 0 else (if ts[0] == Output then 1 else 0) + DirectOutputs(ts[1..])
  }
}
