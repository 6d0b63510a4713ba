/** consume_tokens of src/main.rs as it runs: a tape of TAPE_SIZE cells and a
    data pointer updated in place, an input iterator advanced one character
    at a time, and the output string built by appending. */
module Machine {
  import opened Tokens
  import opened Wrappers
  import opened Semantics

  /** What consume_tokens returns, or the panic that ends it. */
  function Returned(r: Outcome): Result<seq<byte>, Fault> {
    match r
    case Ran(_, out) => Ok(out)
    case Panicked(f) => Err(f)
  }

  class Interpreter {
    var tape: array<byte>
    var ptr: nat
    var input: seq<char>

    /** The machine state as a value of the reference semantics. */
    ghost function State(): Config
      reads this, tape
    {
      Config(tape[..], ptr, input)
    }

    /** The state main sets up before running a program on `input`. */
    constructor(input: seq<char>)
      ensures State() == Initial(input)
      ensures fresh(tape)
    {
      tape := new byte[TAPE_SIZE](_ => 0);
      ptr := 0;
      this.input := input;
    }

    /** Runs `tokens` on the machine. The result is the one the reference
        semantics gives, and after a normal return the machine is in the
        state it gives; the tape array itself is never replaced. */
    method ConsumeTokens(tokens: seq<Token>, build: Build, fuel: nat) returns (r: Result<seq<byte>, Fault>)
      modifies this, tape
      ensures tape == old(tape)
      ensures r == Returned(Exec(tokens, old(State()), build, fuel))
      ensures r.Ok? ==> State() == Exec(tokens, old(State()), build, fuel).config
      decreases tokens, 0, 0
    {
      ghost var start := State();
      var output: seq<byte> := [];
      var i := 0;
      while i < |tokens|
        invariant 0 <= i <= |tokens|
        invariant tape == old(tape)
        invariant Exec(tokens, start, build, fuel) == Emit(output, Exec(tokens[i..], State(), build, fuel))
      {
        ghost var before := State();
        assert tokens[i..][0] == tokens[i] && tokens[i..][1..] == tokens[i + 1..];
        var step := RunToken(tokens[i], build, fuel);
        if step.Err? {
          return Err(step.error);
        }
        EmitAppend(output, step.value, Exec(tokens[i + 1..], State(), build, fuel));
        output := output + step.value;
        i := i + 1;
      }
      assert tokens[i..] == [] && output + [] == output;
      return Ok(output);
    }

    /** One arm of the `match` in consume_tokens. */
    method RunToken(t: Token, build: Build, fuel: nat) returns (r: Result<seq<byte>, Fault>)
      modifies this, tape
      ensures tape == old(tape)
      ensures r == Returned(Step(t, old(State()), build, fuel))
      ensures r.Ok? ==> State() == Step(t, old(State()), build, fuel).config
      decreases t, 0, 0
    {
      match t {
        case Plus => r := Increment(build);
        case Minus => r := Decrement(build);
        case ShiftRight => r := MoveRight(build);
        case ShiftLeft => r := MoveLeft(build);
        case Output => r := Write();
        case Input => r := Read();
        case Loop(body) => r := Repeat(body, build, fuel);
        case Comment => r := Ok([]);
      }
    }

    /** `tape[*tape_pointer] += 1`. */
    method Increment(build: Build) returns (r: Result<seq<byte>, Fault>)
      modifies tape
      ensures r == Returned(Step(Plus, old(State()), build, 0))
      ensures r.Ok? ==> State() == Step(Plus, old(State()), build, 0).config
    {
      if ptr >= tape.Length { return Err(IndexOutOfBounds(ptr)); }
      if build == Debug && tape[ptr] == 255 { return Err(CellOverflow); }
      tape[ptr] := Inc(tape[ptr]);
      return Ok([]);
    }

    /** `tape[*tape_pointer] -= 1`. */
    method Decrement(build: Build) returns (r: Result<seq<byte>, Fault>)
      modifies tape
      ensures r == Returned(Step(Minus, old(State()), build, 0))
      ensures r.Ok? ==> State() == Step(Minus, old(State()), build, 0).config
    {
      if ptr >= tape.Length { return Err(IndexOutOfBounds(ptr)); }
      if build == Debug && tape[ptr] == 0 { return Err(CellUnderflow); }
      tape[ptr] := Dec(tape[ptr]);
      return Ok([]);
    }

    /** `*tape_pointer += 1`: no bounds check until the cell is used. */
    method MoveRight(build: Build) returns (r: Result<seq<byte>, Fault>)
      modifies this
      ensures tape == old(tape)
      ensures r == Returned(Step(ShiftRight, old(State()), build, 0))
      ensures r.Ok? ==> State() == Step(ShiftRight, old(State()), build, 0).config
    {
      if ptr + 1 < USIZE {
        ptr := ptr + 1;
      } else if build == Debug {
        return Err(PointerOverflow);
      } else {
        ptr := 0;
      }
      return Ok([]);
    }

    /** `*tape_pointer -= 1`. */
    method MoveLeft(build: Build) returns (r: Result<seq<byte>, Fault>)
      modifies this
      ensures tape == old(tape)
      ensures r == Returned(Step(ShiftLeft, old(State()), build, 0))
      ensures r.Ok? ==> State() == Step(ShiftLeft, old(State()), build, 0).config
    {
      if ptr > 0 {
        ptr := ptr - 1;
      } else if build == Debug {
        return Err(PointerUnderflow);
      } else {
        ptr := USIZE - 1;
      }
      return Ok([]);
    }

    /** `output_string.push(tape[*tape_pointer] as char)`; the print! to
        stdout beside it is not modelled. */
    method Write() returns (r: Result<seq<byte>, Fault>)
      ensures r == Returned(Step(Output, State(), Debug, 0))
    {
      if ptr >= tape.Length { return Err(IndexOutOfBounds(ptr)); }
      return Ok([tape[ptr]]);
    }

    /** `input.next()`, then the ASCII check, then the store. */
    method Read() returns (r: Result<seq<byte>, Fault>)
      modifies this, tape
      ensures tape == old(tape)
      ensures r == Returned(Step(Input, old(State()), Debug, 0))
      ensures r.Ok? ==> State() == Step(Input, old(State()), Debug, 0).config
    {
      if input == [] { return Err(InputExhausted); }
      var c := input[0];
      input := input[1..];
      if c as int >= 128 { return Err(NotAscii(c)); }
      if ptr >= tape.Length { return Err(IndexOutOfBounds(ptr)); }
      tape[ptr] := c as int as byte;
      return Ok([]);
    }

    /** `while tape[*tape_pointer] > 0 { consume_tokens(expr, ...); }`, with at
        most `fuel` iterations; the string each iteration returns is dropped. */
    method Repeat(body: seq<Token>, build: Build, fuel: nat) returns (r: Result<seq<byte>, Fault>)
      modifies this, tape
      ensures tape == old(tape)
      ensures r == Returned(Step(Loop(body), old(State()), build, fuel))
      ensures r.Ok? ==> State() == Step(Loop(body), old(State()), build, fuel).config
      decreases body, 1, 0
    {
      ghost var start := State();
      var n := 0;
      while true
        invariant n <= fuel
        invariant tape == old(tape)
        invariant ExecLoop(body, start, build, fuel, fuel) == ExecLoop(body, State(), build, fuel, fuel - n)
        decreases fuel - n
      {
        if ptr >= tape.Length { return Err(IndexOutOfBounds(ptr)); }
        if tape[ptr] == 0 { break; }
        if n == fuel { return Err(OutOfFuel); }
        var discarded := ConsumeTokens(body, build, fuel);
        if discarded.Err? { return Err(discarded.error); }
        n := n + 1;
      }
      return Ok([]);
    }
  }

  /** Outputs gather up in order. */
  lemma EmitAppend(a: seq<byte>, b: seq<byte>, r: Outcome)
    ensures Emit(a, Emit(b, r)) == Emit(a + b, r)
  {
    if r.Ran? {
      assert a + (b + r.output) == (a + b) + r.output;
    }
  }
}
