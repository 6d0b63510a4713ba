/** The meaning of a token tree, as `consume_tokens` in src/main.rs gives it:
    a reference semantics over values (tape contents, data pointer, the
    characters not yet read), with every panic of the Rust code as a fault. */
module Semantics {
  import opened Tokens

  /** The number of tape cells the interpreter allocates. */
  const TAPE_SIZE: nat := 32000

  /** One more than the largest `usize` value on a 64-bit target. */
  const USIZE: nat := 0x1_0000_0000_0000_0000

  /** Rust checks integer overflow in debug builds and wraps in release
      builds; indexing is bounds-checked in both. */
  datatype Build = Debug | Release

  /** Everything that stops a run: the panics of consume_tokens, and the
      fuel bound on `while` loops that the model adds. */
  datatype Fault =
    | IndexOutOfBounds(index: nat)   // tape[ptr] with ptr >= the tape length
    | CellOverflow                   // `+=` on a cell holding 255, debug build
    | CellUnderflow                  // `-=` on a cell holding 0, debug build
    | PointerOverflow                // `+=` on the largest usize, debug build
    | PointerUnderflow               // `-=` on pointer 0, debug build
    | InputExhausted                 // `,` with no character left
    | NotAscii(c: char)              // `,` on a character outside ASCII
    | OutOfFuel                      // a loop ran more iterations than the fuel allows

  /** The machine: the tape, the data pointer and the unread input. */
  datatype Config = Config(tape: seq<byte>, ptr: nat, input: seq<char>)

  /** A run either ends with a machine state and the returned output bytes,
      or panics. */
  datatype Outcome = Ran(config: Config, output: seq<byte>) | Panicked(fault: Fault)

  /** The state main sets up: TAPE_SIZE zero cells, pointer 0. */
  function Initial(input: seq<char>): (c: Config)
    ensures |c.tape| == TAPE_SIZE && c.ptr == 0 && c.input == input
    ensures forall k :: 0 <= k < |c.tape| ==> c.tape[k] == 0
  {
    Config(seq(TAPE_SIZE, _ => 0), 0, input)
  }

  /** u8 addition and subtraction of one, modulo 256. */
  function Inc(v: byte): byte { if v == 255 then 0 else v + 1 }
  function Dec(v: byte): byte { if v == 0 then 255 else v - 1 }

  /** `out` in front of the output of a run; a panic stays a panic. */
  function Emit(out: seq<byte>, r: Outcome): Outcome {
    match r
    case Ran(c, o) => Ran(c, out + o)
    case Panicked(f) => Panicked(f)
  }

  /** consume_tokens on a list: the statements one after another, each
      seeing the state the previous one left; the output is what the
      list's own statements return. */
  function Exec(ts: seq<Token>, c: Config, b: Build, fuel: nat): Outcome
    decreases ts, 0, 0
  {
    if ts == [] then Ran(c, [])
    else
      match Step(ts[0], c, b, fuel)
      case Panicked(f) => Panicked(f)
      case Ran(c1, out) => Emit(out, Exec(ts[1..], c1, b, fuel))
  }

  /** One statement of the `match` in consume_tokens. */
  function Step(t: Token, c: Config, b: Build, fuel: nat): Outcome
    decreases t, 0, 0
  {
    match t
    case Plus =>
      if c.ptr >= |c.tape| then Panicked(IndexOutOfBounds(c.ptr))
      else if b == Debug && c.tape[c.ptr] == 255 then Panicked(CellOverflow)
      else Ran(c.(tape := c.tape[c.ptr := Inc(c.tape[c.ptr])]), [])
    case Minus =>
      if c.ptr >= |c.tape| then Panicked(IndexOutOfBounds(c.ptr))
      else if b == Debug && c.tape[c.ptr] == 0 then Panicked(CellUnderflow)
      else Ran(c.(tape := c.tape[c.ptr := Dec(c.tape[c.ptr])]), [])
    case ShiftRight =>
      if c.ptr + 1 < USIZE then Ran(c.(ptr := c.ptr + 1), [])
      else if b == Debug then Panicked(PointerOverflow)
      else Ran(c.(ptr := 0), [])
    case ShiftLeft =>
      if c.ptr > 0 then Ran(c.(ptr := c.ptr - 1), [])
      else if b == Debug then Panicked(PointerUnderflow)
      else Ran(c.(ptr := USIZE - 1), [])
    case Output =>
      if c.ptr >= |c.tape| then Panicked(IndexOutOfBounds(c.ptr))
      else Ran(c, [c.tape[c.ptr]])
    case Input =>
      if c.input == [] then Panicked(InputExhausted)
      else if c.input[0] as int >= 128 then Panicked(NotAscii(c.input[0]))
      else if c.ptr >= |c.tape| then Panicked(IndexOutOfBounds(c.ptr))
      else Ran(c.(tape := c.tape[c.ptr := c.input[0] as int as byte], input := c.input[1..]), [])
    case Loop(body) => ExecLoop(body, c, b, fuel, fuel)
    case Comment => Ran(c, [])
  }

  /** `while tape[ptr] > 0 { consume_tokens(body, ...) }` with at most `n`
      more iterations; what the body returns is dropped. */
  function ExecLoop(body: seq<Token>, c: Config, b: Build, fuel: nat, n: nat): Outcome
    decreases body, 1, n
  {
    if c.ptr >= |c.tape| then Panicked(IndexOutOfBounds(c.ptr))
    else if c.tape[c.ptr] == 0 then Ran(c, [])
    else if n == 0 then Panicked(OutOfFuel)
    else
      match Exec(body, c, b, fuel)
      case Panicked(f) => Panicked(f)
      case Ran(c1, _) => ExecLoop(body, c1, b, fuel, n - 1)
  }
}
