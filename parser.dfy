/** The recursive-descent grammar of src/main.rs, written as functions of the
    program text `s` and the position `i` where the unparsed input s[i..]
    starts, the way the nom combinators there behave. */
module Parser {
  import opened Tokens
  import opened Wrappers

  /** The three outcomes of a combinator: a value and the position after the
      consumed input; no match here (the caller may try something else); or
      input that ended while a production still needed bytes. */
  datatype Parsed<+T> = Done(value: T, pos: nat) | Error | Incomplete

  /** Why `parse_input` fails: its `unwrap` met an outcome that is not Done. */
  datatype ParseFailure = UnwrapPanic

  /** The separator parser: skips spaces, tabs and line endings. */
  function SkipSpace(s: seq<byte>, i: nat): (j: nat)
    requires i <= |s|
    decreases |s| - i
    ensures i <= j <= |s|
    ensures j == |s| || !IsSpace(s[j])
  {
    if i < |s| && IsSpace(s[i]) then SkipSpace(s, i + 1) else i
  }

  /** Everything SkipSpace passes over is a separator. */
  lemma {:induction false} SkipSpaceSkips(s: seq<byte>, i: nat)
    requires i <= |s|
    ensures forall k :: i <= k < SkipSpace(s, i) ==> IsSpace(s[k])
    decreases |s| - i
  {
    if i < |s| && IsSpace(s[i]) { SkipSpaceSkips(s, i + 1); }
  }

  /** Matching a one-byte literal `c`: another byte is an Error, no byte at
      all is Incomplete. */
  function Tag(s: seq<byte>, i: nat, c: byte): (r: Parsed<()>)
    requires i <= |s|
    ensures r.Done? <==> i < |s| && s[i] == c
    ensures r.Done? ==> r.pos == i + 1
    ensures r.Incomplete? <==> i == |s|
  {
    if i == |s| then Incomplete
    else if s[i] == c then Done((), i + 1)
    else Error
  }

  /** One of the six single-character parsers: the character `c` gives the token `t`. */
  function Command(s: seq<byte>, i: nat, c: byte, t: Token): (r: Parsed<Token>)
    requires i <= |s|
    ensures r.Done? <==> i < |s| && s[i] == c
    ensures r.Done? ==> r.value == t && r.pos == i + 1
    ensures r.Incomplete? <==> i == |s|
  {
    match Tag(s, i, c)
    case Done(_, j) => Done(t, j)
    case Error => Error
    case Incomplete => Incomplete
  }

  /** Any bytes up to and including the first line ending ("\n" or "\r\n").
      Running out of input is a plain Error, not Incomplete. */
  function LineTail(s: seq<byte>, i: nat): (r: Parsed<()>)
    requires i <= |s|
    decreases |s| - i
    ensures !r.Incomplete?
    ensures r.Done? ==> i < r.pos <= |s| && s[r.pos - 1] == LF
  {
    if i + 1 <= |s| && s[i] == LF then Done((), i + 1)
    else if i + 2 <= |s| && s[i] == CR && s[i + 1] == LF then Done((), i + 2)
    else if i == |s| then Error
    else LineTail(s, i + 1)
  }

  /** LineTail succeeds exactly when a line feed follows, and it stops at the first one. */
  lemma {:induction false} LineTailFindsLineFeed(s: seq<byte>, i: nat)
    requires i <= |s|
    ensures LineTail(s, i).Done? <==> exists k :: i <= k < |s| && s[k] == LF
    ensures LineTail(s, i).Done? ==> forall k :: i <= k < LineTail(s, i).pos - 1 ==> s[k] != LF
    decreases |s| - i
  {
    if i + 1 <= |s| && s[i] == LF {
    } else if i + 2 <= |s| && s[i] == CR && s[i + 1] == LF {
    } else if i < |s| {
      LineTailFindsLineFeed(s, i + 1);
    }
  }

  /** A line comment: `//` and everything up to and including the first line ending. */
  function CommentParser(s: seq<byte>, i: nat): (r: Parsed<Token>)
    requires i <= |s|
    ensures r.Done? ==> r.value == Comment && i + 2 < r.pos <= |s| && s[r.pos - 1] == LF
    ensures r.Incomplete? <==> i == |s| || (i + 1 == |s| && s[i] == SLASH)
  {
    // the two-byte literal "//": Incomplete while its bytes present match
    match Tag(s, i, SLASH)
    case Error => Error
    case Incomplete => Incomplete
    case Done(_, j) =>
      match Tag(s, j, SLASH)
      case Error => Error
      case Incomplete => Incomplete
      case Done(_, k) =>
        match LineTail(s, k)
        case Done(_, e) => Done(Comment, e)
        case _ => Error
  }

  /** A comment is `//` followed by a line feed somewhere later, and it runs
      to the first such line feed. */
  lemma CommentRunsToLineFeed(s: seq<byte>, i: nat)
    requires i <= |s|
    ensures CommentParser(s, i).Done? <==>
      i + 2 <= |s| && s[i] == SLASH && s[i + 1] == SLASH &&
      exists k :: i + 2 <= k < |s| && s[k] == LF
    ensures CommentParser(s, i).Done? ==>
      forall k :: i + 2 <= k < CommentParser(s, i).pos - 1 ==> s[k] != LF
  {
    if i + 2 <= |s| && s[i] == SLASH && s[i + 1] == SLASH {
      LineTailFindsLineFeed(s, i + 2);
    }
  }

  /** The first of two outcomes unless it is an Error. */
  function Alt<T>(first: Parsed<T>, second: Parsed<T>): Parsed<T> {
    if first.Error? then second else first
  }

  /** One statement: the eight alternatives tried in order. */
  function Syntax(s: seq<byte>, i: nat): (r: Parsed<Token>)
    requires i <= |s|
    decreases |s| - i, 2
    ensures r.Done? ==> i < r.pos <= |s|
    ensures i == |s| ==> r.Incomplete?
  {
    Alt(Command(s, i, PLUS, Plus),
    Alt(Command(s, i, MINUS, Minus),
    Alt(Command(s, i, RIGHT, ShiftRight),
    Alt(Command(s, i, LEFT, ShiftLeft),
    Alt(Command(s, i, DOT, Output),
    Alt(Command(s, i, COMMA, Input),
    Alt(LoopParser(s, i),
        CommentParser(s, i))))))))
  }

  /** `[`, a statement list, `]`, with separators skipped before each of them
      and after the closing bracket. */
  function LoopParser(s: seq<byte>, i: nat): (r: Parsed<Token>)
    requires i <= |s|
    decreases |s| - i, 1
    ensures r.Done? ==> r.value.Loop? && i < r.pos <= |s|
  {
    var i1 := SkipSpace(s, i);
    match Tag(s, i1, OPEN)
    case Error => Error
    case Incomplete => Incomplete
    case Done(_, i2) =>
      match Body(s, i2)
      case Done(body, i3) =>
        (var i4 := SkipSpace(s, i3);
        match Tag(s, i4, CLOSE)
        case Done(_, i5) => Done(Loop(body), SkipSpace(s, i5))
        case Error => Error
        case Incomplete => Incomplete)
      case Error => Error
      case Incomplete => Incomplete
  }

  /** The statements of a loop body, each after skipped separators, up to the
      first position where no statement starts. Never an Error. */
  function Body(s: seq<byte>, i: nat): (r: Parsed<seq<Token>>)
    requires i <= |s|
    decreases |s| - i, 3
    ensures !r.Error?
    ensures r.Done? ==> i <= r.pos <= |s|
  {
    if i == |s| then Done([], i)
    else
      match Syntax(s, SkipSpace(s, i))
      case Error => Done([], i)
      case Incomplete => Incomplete
      case Done(t, j) =>
        match Body(s, j)
        case Done(ts, k) => Done([t] + ts, k)
        case Error => Error
        case Incomplete => Incomplete
  }

  /** A top-level statement with separators skipped on both sides. */
  function Statement(s: seq<byte>, i: nat): (r: Parsed<Token>)
    requires i <= |s|
    ensures r.Done? ==> i < r.pos <= |s| && (r.pos == |s| || !IsSpace(s[r.pos]))
    ensures i == |s| ==> r.Incomplete?
  {
    match Syntax(s, SkipSpace(s, i))
    case Done(t, j) => Done(t, SkipSpace(s, j))
    case Error => Error
    case Incomplete => Incomplete
  }

  /** The whole program: statements until the input ends or none starts. */
  function Program(s: seq<byte>, i: nat): (r: Parsed<seq<Token>>)
    requires i <= |s|
    decreases |s| - i
    ensures !r.Error?
    ensures r.Done? ==> i <= r.pos <= |s|
  {
    if i == |s| then Done([], i)
    else
      match Statement(s, i)
      case Error => Done([], i)
      case Incomplete => Incomplete
      case Done(t, j) =>
        match Program(s, j)
        case Done(ts, k) => Done([t] + ts, k)
        case Error => Error
        case Incomplete => Incomplete
  }

  /** The tokens of the program text; the unparsed remainder is dropped, and
      an outcome that is not Done is the panic of `unwrap`. */
  function ParseInput(s: seq<byte>): (r: Result<seq<Token>, ParseFailure>)
  {
    match Program(s, 0)
    case Done(ts, _) => Ok(ts)
    case _ => Err(UnwrapPanic)
  }
}
