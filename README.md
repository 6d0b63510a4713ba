# A verified model of a tape-language interpreter

The program modelled is a small interpreter for the eight-command tape
language (`+ - > < . , [ ]`), written in Rust in one file, `src/main.rs`.
It has two halves:

- **The parser.** It is built from nom combinators. It turns the program's
  bytes into a tree of `Token`s: six one-byte commands, a `Loop` that owns
  a body list, and a `Comment` that runs from `//` to the end of the line.
  Separators (space, tab, CR, LF) around statements are skipped.
  `parse_input` keeps the tokens read before the first position where no
  statement starts and drops the rest. Any other outcome makes it panic.
- **The evaluator.** This is `consume_tokens`. It walks the tree over a
  tape of 32000 `u8` cells and a `usize` data pointer, updating both in
  place. It reads characters from an input iterator and returns the string
  of the bytes written by the `Output` statements directly in the list it
  runs. A loop runs its body with a recursive call whose returned string
  is thrown away.

The Dafny project has these modules:

- `Tokens` (tokens.dfy): the token tree and the byte alphabet.
- `Wrappers` (wrappers.dfy): a `Result` type.
- `Parser` (parser.dfy): the grammar as functions of the text and a
  position. Every function returns one of the three combinator outcomes:
  `Done` (a value and the position after it), `Error` (no match here)
  or `Incomplete` (the input ran out inside a production). The
  combinators behave as in nom 3: `alt!` tries the next alternative only
  on `Error`, `many0!` stops on `Error`, and `complete!` turns a missing
  line ending into `Error`.
- `ParserProperties` (parser_props.dfy): written programs and what the
  parser is proved to do on any input. A written program (`Written`,
  `Shape`) is a token tree together with its layout: the separators of
  its own before each statement, before each closing bracket and after
  the last statement, and the text of each comment. Parsing the text of
  a written program gives back its tree. Separators are insignificant.
  The unparsed remainder at the top level is dropped. A program of
  separators only panics. Comments end at the first line feed, and one
  with no line feed after it is rejected.
- `ParserTests` (parser_tests.dfy): the parser unit tests of the source,
  as lemmas about the exact inputs they use. The whitespace and comment
  tests are also shown to be instances of the round trip.
- `Semantics` (semantics.dfy): a reference semantics for
  `consume_tokens`. It is a function from a token list and a machine
  state to the next state and the returned output bytes, or to a panic.
- `SemanticsProperties` (semantics_props.dfy): the effect of each
  statement, what loops do, which output is returned, and that comments
  do nothing. Also: running two lists in a row is running their
  concatenation, the tape length never changes, and more fuel never
  changes a finished run.
- `Machine` (machine.dfy): `consume_tokens` as it runs. A class holds
  the tape as an `array`, the pointer and the unread input. There is one
  method per arm of the `match`, and `for` and `while` loops. Each method
  is proved to agree with the reference semantics: it returns the same
  output or panic, and leaves the machine in the same state.
- `InterpreterTests` (interpreter_tests.dfy): the integration tests
  (7 × 3 = 21, echoing "HI") on both the semantics and the class, and
  the edge cases the evaluator's code decides.

Three aspects of the Rust code are made explicit:

- **Integer arithmetic depends on the build.** A debug build panics when
  `u8` or `usize` arithmetic overflows. A release build wraps. The model
  takes the build as a parameter (`Build = Debug | Release`), and every
  property is stated for both. `usize` is taken to be 64 bits wide.
- **Loops need a bound.** The `while` at src/main.rs:104 need not
  terminate. Each loop runs at most `fuel` iterations; one more ends the
  run with the `OutOfFuel` outcome. Only the fuel bound makes that
  outcome possible. A run that finishes within the fuel gives the same
  result with any larger fuel (`SemanticsProperties.MoreFuel`).
- **Panics are results.** Each panic is a distinct `Fault`: a pointer
  past the tape, cell overflow or underflow (debug), pointer overflow or
  underflow (debug), exhausted input, and a non-ASCII character. The
  `unwrap` in `parse_input` is `Err(UnwrapPanic)`.

## Model

| member | source | states |
|---|---|---|
| `Parser.SkipSpace` | src/main.rs:173 | the separator skipper stops at a position at or after its start, and that position is the end of the text or holds a non-separator |
| `Parser.SkipSpaceSkips` | src/main.rs:173 | every byte the separator skipper passes over is a space, tab, CR or LF |
| `Parser.Tag` | src/main.rs:119 | a one-byte literal matches exactly when that byte is next and then consumes it; no byte at all is Incomplete, any other byte is Error |
| `Parser.Command` | src/main.rs:117-157 | each of the six single-character parsers succeeds exactly on its character, gives its own token and consumes one byte; end of input is Incomplete |
| `Parser.LineTail` | src/main.rs:162 | the rest of a comment never reports Incomplete (it is `complete!`), and, when it succeeds, it ends just after a line feed |
| `Parser.LineTailFindsLineFeed` | src/main.rs:162 | the rest of a comment succeeds if and only if a line feed follows, and no line feed stands before the one it stops after |
| `Parser.CommentParser` | src/main.rs:159-165 | a comment is `//` followed by at least one byte and ends just after a line feed; the parser is Incomplete exactly when the input ends inside the `//` literal |
| `Parser.CommentRunsToLineFeed` | src/main.rs:159-165 | a comment parses if and only if `//` is followed somewhere by a line feed, and it stops at the first such line feed |
| `Parser.Syntax` | src/main.rs:178-180 | a statement consumes at least one byte; at the end of the input it is Incomplete |
| `Parser.LoopParser` | src/main.rs:171-176 | a parsed loop is a `Loop` token and consumes at least one byte |
| `Parser.Body` | src/main.rs:173 | a loop body list (`many0!`) never fails with Error, and ends within the text |
| `Parser.Statement` | src/main.rs:184 | a top-level statement with separators skipped on both sides ends at the end of the text or before a non-separator; at the end of the input it is Incomplete |
| `Parser.Program` | src/main.rs:182-187 | the top-level list never fails with Error and ends within the text |
| `ParserProperties.RoundTrip` | src/main.rs:159-191 | any well-formed written program parses back to its token tree. Each statement, each closing bracket and the end of the program may have its own separators, and each comment any text without a line feed. The one exception is the empty program, which then has no trailing separators |
| `ParserProperties.Reparse` | src/main.rs:189-192 | whatever parse_input accepts, the canonical text of its result (no separators, empty comments) parses back to the same tokens |
| `ParserProperties.RemainderDropped` | src/main.rs:184-192 | a written program followed by any separators and then a byte where no statement and no separator can start: that byte and everything after it are dropped, and the program's tokens are returned. It covers only a byte at the top level, after the last complete statement |
| `ParserProperties.JunkInsideLoop` | src/main.rs:171-176 | "+[+x]" parses to Plus alone: inside a loop, such a byte makes the whole loop fail, so parsing stops before the loop |
| `ParserProperties.SpaceOnlyProgramPanics` | src/main.rs:184-190 | a non-empty program made only of separators makes parse_input panic |
| `ParserProperties.CommentToLineEnd` | src/main.rs:159-165 | `//`, any bytes without a line feed, and a line feed form one comment, whatever comes after it |
| `ParserProperties.CommentAtEndRejected` | src/main.rs:159-165 | `//` with no line feed after it is not a comment |
| `ParserTests.PlusParserTest` | src/main.rs:197-203 | "+" parses to Plus with nothing left over |
| `ParserTests.SyntaxTest` | src/main.rs:205-211 | "-" parses to Minus with nothing left over |
| `ParserTests.LoopTest` | src/main.rs:213-220 | "[++-]" parses to a loop of Plus, Plus, Minus with nothing left over |
| `ParserTests.NestedLoopTest` | src/main.rs:222-230 | "[+[++]-]" parses to a loop holding Plus, a loop of two Plus, and Minus, with nothing left over |
| `ParserTests.IgnoreWhitespaceTest` | src/main.rs:232-242 | "+-+>  <  -", two line feeds, four spaces and "+" parse to the seven tokens with nothing left over |
| `ParserTests.SpacedRoundTrip` | src/main.rs:232-242 | the input of ignore_whitespace_test, with different separators in different slots, is the text of a written program, and by the round trip it parses to the seven tokens |
| `ParserTests.CommentedRoundTrip` | src/main.rs:245-255 | the input of ignore_comment_eol_test, a comment with the text "+" among separators, is the text of a written program, and by the round trip it parses to Plus, Comment, Plus |
| `ParserTests.IgnoreCommentEolTest` | src/main.rs:245-255 | "+ //+", a line feed, four spaces and "+" parse to Plus, Comment, Plus with nothing left over |
| `ParserTests.IgnoreCommentEofTest` | src/main.rs:257-266 | "+ //" parses to Plus alone: the comment at the end of the input is dropped, not returned as the disabled test expects |
| `Semantics.Initial` | src/main.rs:45-46 | the starting machine has 32000 zero cells, pointer 0 and the whole input unread |
| `SemanticsProperties.IncrementEffect` | src/main.rs:72-74 | `+` succeeds exactly on a cell inside the tape that is below 255 or in a release build; it adds one modulo 256 to the current cell and changes no other cell, the pointer, the input or the output; otherwise it panics with the index or with overflow |
| `SemanticsProperties.DecrementEffect` | src/main.rs:75-77 | `-` is the same with one subtracted modulo 256 and underflow at 0 |
| `SemanticsProperties.ShiftRightEffect` | src/main.rs:78-80 | `>` only moves the pointer one right, and never fails for passing the tape end; only the largest usize overflows (a panic in a debug build, a wrap to 0 in a release build) |
| `SemanticsProperties.ShiftLeftEffect` | src/main.rs:81-83 | `<` only moves the pointer one left; at 0 it panics in a debug build and wraps to the largest usize in a release build |
| `SemanticsProperties.OutputEffect` | src/main.rs:84-87 | `.` leaves the machine unchanged and returns the current cell; a pointer past the tape panics |
| `SemanticsProperties.InputEffect` | src/main.rs:88-102 | `,` panics on exhausted input and on a character of code 128 or more; otherwise it consumes exactly one character, stores its code in the current cell and changes nothing else |
| `SemanticsProperties.CommentEffect` | src/main.rs:108 | a comment changes nothing and returns nothing |
| `SemanticsProperties.LoopSkipped` | src/main.rs:103-107 | a loop entered on a zero cell runs no iteration and leaves the machine unchanged |
| `SemanticsProperties.LoopExit` | src/main.rs:104-106 | a loop that finishes, after any number of iterations, returns no output and leaves the pointer on a zero cell inside the tape |
| `SemanticsProperties.LoopExitsOnZero` | src/main.rs:103-107 | the same for the loop statement itself |
| `SemanticsProperties.SilentStep` | src/main.rs:71-109 | every statement other than `.` that runs normally returns no output |
| `SemanticsProperties.OutputCount` | src/main.rs:84-112 | a run that finishes returns exactly one byte per Output statement directly in its list; outputs inside loop bodies are not counted |
| `SemanticsProperties.ExecAppend` | src/main.rs:70-110 | running two lists one after the other is running their concatenation, with the two outputs joined in order |
| `SemanticsProperties.CommentsIgnored` | src/main.rs:108 | a program runs exactly as the same program with every comment removed, at every depth |
| `SemanticsProperties.RunFollows` | src/main.rs:67-113 | a run that finishes keeps the tape length and a usize-range pointer, and leaves a suffix of the input unread |
| `SemanticsProperties.MoreFuel` | src/main.rs:104-106 | a run that does not run out of fuel gives the same result with any larger fuel |
| `SemanticsProperties.Increments` | src/main.rs:72-74 | `n` increments add `n` modulo 256 to the current cell when they cannot overflow or the build wraps, and otherwise panic with overflow in a debug build |
| `SemanticsProperties.Shifts` | src/main.rs:78-80 | `n` moves to the right add `n` to the pointer and nothing else, while it stays in usize range |
| `Machine.Interpreter.constructor` | src/main.rs:45-46 | a new interpreter is the starting machine on its input, with a fresh tape |
| `Machine.Interpreter.ConsumeTokens` | src/main.rs:67-113 | the `for` loop over a list gives the reference semantics' output or panic, and after a normal return the machine is in that semantics' state; the tape array is never replaced |
| `Machine.Interpreter.RunToken` | src/main.rs:71-109 | one arm of the `match` agrees with the semantics of its statement, in output, panic and new state |
| `Machine.Interpreter.Increment` | src/main.rs:72-74 | the in-place `+=` on the current cell agrees with the semantics of `+` |
| `Machine.Interpreter.Decrement` | src/main.rs:75-77 | the in-place `-=` on the current cell agrees with the semantics of `-` |
| `Machine.Interpreter.MoveRight` | src/main.rs:78-80 | the in-place pointer increment agrees with the semantics of `>` |
| `Machine.Interpreter.MoveLeft` | src/main.rs:81-83 | the in-place pointer decrement agrees with the semantics of `<` |
| `Machine.Interpreter.Write` | src/main.rs:84-87 | the pushed byte is the current cell, exactly as the semantics of `.` gives it, and a pointer past the tape panics |
| `Machine.Interpreter.Read` | src/main.rs:88-102 | advancing the input and storing the character agrees with the semantics of `,`, panics included |
| `Machine.Interpreter.Repeat` | src/main.rs:103-107 | the `while` loop, which drops what each pass of the body returns, agrees with the semantics of the loop statement |
| `InterpreterTests.MultiplyParses` | src/main.rs:312-319 | "+++++++ [>+++<-]>" parses to seven Plus, the loop ">+++<-" and ShiftRight |
| `InterpreterTests.TimesThreeLoop` | src/main.rs:103-107 | a loop whose body does one pass of ">+++<-" ends with the current cell cleared and the next cell increased by three times its old value, modulo 256 |
| `InterpreterTests.MultiplicationRuns` | src/main.rs:312-324 | the test program on a fresh tape ends with cell 1 holding 21 and the pointer on it, cell 0 cleared, no other cell changed, and no output, in both builds |
| `InterpreterTests.MultiplicationIntegrationTest` | src/main.rs:312-324 | the test run on the imperative interpreter: the pointer is 1 and the cell under it holds 21 |
| `InterpreterTests.EchoParses` | src/main.rs:326-333 | ",.>,." parses to Input, Output, ShiftRight, Input, Output |
| `InterpreterTests.ReadInputRuns` | src/main.rs:326-339 | ",.>,." on "HI" ends with the pointer on cell 1, 72 and 73 in cells 0 and 1, the output "HI", and nothing left to read |
| `InterpreterTests.ReadInputTest` | src/main.rs:326-339 | the same test on the imperative interpreter: pointer 1, cells 72 and 73, output "HI" |
| `InterpreterTests.ReadPastEndOfInput` | src/main.rs:98-100 | `,` with no input left panics |
| `InterpreterTests.ReadNonAscii` | src/main.rs:91-96 | `,` on "é" panics with that character |
| `InterpreterTests.SkippedLoopRuns` | src/main.rs:103-107 | "[.+]" on a fresh tape does nothing and prints nothing |
| `InterpreterTests.LoopOutputDropped` | src/main.rs:103-107 | in "+[.-]" the body returns the byte 1, but the whole run returns no output |
| `InterpreterTests.ShiftPastEnd` | src/main.rs:12-13 | 32000 moves to the right succeed with the pointer one past the tape, and a following `+` panics with index 32000 |
| `InterpreterTests.ShiftBeforeStart` | src/main.rs:81-83 | `<` on cell 0 panics in a debug build; in a release build the pointer wraps and the next `+` panics with index 2^64 − 1 |
| `InterpreterTests.CellWraps` | src/main.rs:72-74 | 256 increments of a fresh cell panic in a debug build and bring the tape back to all zeros in a release build |

## Left out

- `main` (src/main.rs:15-51): command-line parsing with clap, reading the
  two argument strings, and process setup. The program text and the
  input string are parameters (`Initial(input)`, the `seq<byte>` given to
  `ParseInput`) instead.
- The `print!` at src/main.rs:85 writes to standard output. That I/O is
  not modelled; only the returned string is.
- The output `String` holds the byte values pushed as `char`s. The model
  keeps them as a sequence of bytes, without the UTF-8 encoding of that
  string.
- `any_end` (src/main.rs:167-169) is never used by the grammar, and so
  it has no member.
- The `hello_world_integration_test` (src/main.rs:269-310) is not proved.
  Its program is long and nested, so a concrete proof of it needs far
  more work than the multiplication and input tests. The round trip and
  the loop lemmas cover the same parser and evaluator code.
- `Incomplete` carries no count of missing bytes, as nom's `Needed` does.
  Only the fact that the outcome is Incomplete decides anything, because
  `parse_input` panics on it.
- Evaluating is fuel-bounded. A loop that would run more than `fuel`
  iterations ends with `OutOfFuel` instead of running forever. The model
  says nothing about programs that do not terminate.
- `Machine.Interpreter.Write`: its contract is stated with the debug
  build of the semantics, because `.` does no arithmetic and its
  behaviour is the same in both builds.
- `Machine.Interpreter.Read`: its contract is stated with the debug build
  of the semantics, for the same reason: `,` does no arithmetic, and
  its behaviour is the same in both builds.
- The tape is one `array` owned by the interpreter object. Rust passes it
  by `&mut` into the recursive calls; the model keeps it in a field
  instead, and `ConsumeTokens` promises never to replace it.

## Behaviour of the code that differs from a plain reading

These follow the code, not its comments or its disabled test:

- `>` past the last cell does not fail. Only the next access to the
  cell panics, with that index (`InterpreterTests.ShiftPastEnd`).
- `<` on cell 0 panics only in a debug build. In a release build the
  pointer wraps to 2^64 − 1, and the next access panics
  (`InterpreterTests.ShiftBeforeStart`). The same holds for `+` on 255
  and `-` on 0: debug panics, release wraps.
- A comment at the end of the input, with no line feed, is not a Comment
  token. Parsing stops before it and the comment is dropped. The disabled
  test at src/main.rs:257-266 expects `[Plus, Comment]`; the code gives
  `[Plus]` (`ParserTests.IgnoreCommentEofTest`).
- A byte that starts no statement ends the parse silently at the top
  level. Everything after it is dropped (`ParserProperties.RemainderDropped`).
  Inside a loop body the same byte makes the body list stop, the closing
  bracket is then missing, and the whole loop is rejected
  (`ParserProperties.JunkInsideLoop`).
- A program made only of separators (or a text that ends inside an
  unclosed loop) makes `parse_input` panic rather than return an empty
  list (`ParserProperties.SpaceOnlyProgramPanics`).
