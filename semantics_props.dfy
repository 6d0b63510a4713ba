/** What consume_tokens promises about each statement and about whole runs:
    the effect of each command and nothing else, its panics, loops that stop
    only on a zero cell, output that holds only the list's own `.`s, comments
    that change nothing, and runs that keep the tape's size and the pointer's
    range. */
module SemanticsProperties {
  import opened Tokens
  import opened Semantics

  // ---- One statement ----

  /** `+` adds one modulo 256 to the current cell and changes nothing else;
      it panics on a pointer past the tape, and on 255 in a debug build. */
  lemma IncrementEffect(c: Config, b: Build, fuel: nat)
    ensures Step(Plus, c, b, fuel).Ran? <==> c.ptr < |c.tape| && (b == Release || c.tape[c.ptr] < 255)
    ensures c.ptr >= |c.tape| ==> Step(Plus, c, b, fuel) == Panicked(IndexOutOfBounds(c.ptr))
    ensures c.ptr < |c.tape| && b == Debug && c.tape[c.ptr] == 255 ==>
      Step(Plus, c, b, fuel) == Panicked(CellOverflow)
    ensures Step(Plus, c, b, fuel).Ran? ==>
      var d := Step(Plus, c, b, fuel).config;
      Step(Plus, c, b, fuel).output == [] && d.ptr == c.ptr && d.input == c.input &&
      |d.tape| == |c.tape| && d.tape[c.ptr] as int == (c.tape[c.ptr] as int + 1) % 256 &&
      forall k :: 0 <= k < |c.tape| && k != c.ptr ==> d.tape[k] == c.tape[k]
  {
  }

  /** `-` subtracts one modulo 256 from the current cell and changes nothing
      else; it panics on a pointer past the tape, and on 0 in a debug build. */
  lemma DecrementEffect(c: Config, b: Build, fuel: nat)
    ensures Step(Minus, c, b, fuel).Ran? <==> c.ptr < |c.tape| && (b == Release || c.tape[c.ptr] > 0)
    ensures c.ptr >= |c.tape| ==> Step(Minus, c, b, fuel) == Panicked(IndexOutOfBounds(c.ptr))
    ensures c.ptr < |c.tape| && b == Debug && c.tape[c.ptr] == 0 ==>
      Step(Minus, c, b, fuel) == Panicked(CellUnderflow)
    ensures Step(Minus, c, b, fuel).Ran? ==>
      var d := Step(Minus, c, b, fuel).config;
      Step(Minus, c, b, fuel).output == [] && d.ptr == c.ptr && d.input == c.input &&
      |d.tape| == |c.tape| && d.tape[c.ptr] as int == (c.tape[c.ptr] as int - 1) % 256 &&
      forall k :: 0 <= k < |c.tape| && k != c.ptr ==> d.tape[k] == c.tape[k]
  {
  }

  /** `>` moves the pointer one to the right and touches no cell, so it never
      fails for being past the tape; only the largest usize overflows. */
  lemma ShiftRightEffect(c: Config, b: Build, fuel: nat)
    requires c.ptr < USIZE
    ensures Step(ShiftRight, c, b, fuel).Ran? <==> c.ptr + 1 < USIZE || b == Release
    ensures Step(ShiftRight, c, b, fuel).Ran? ==>
      Step(ShiftRight, c, b, fuel) == Ran(c.(ptr := (c.ptr + 1) % USIZE), [])
    ensures !Step(ShiftRight, c, b, fuel).Ran? ==> Step(ShiftRight, c, b, fuel) == Panicked(PointerOverflow)
  {
  }

  /** `<` moves the pointer one to the left. At 0 a debug build panics and a
      release build wraps to the largest usize, a position past any tape. */
  lemma ShiftLeftEffect(c: Config, b: Build, fuel: nat)
    ensures c.ptr > 0 ==> Step(ShiftLeft, c, b, fuel) == Ran(c.(ptr := c.ptr - 1), [])
    ensures c.ptr == 0 && b == Debug ==> Step(ShiftLeft, c, b, fuel) == Panicked(PointerUnderflow)
    ensures c.ptr == 0 && b == Release ==> Step(ShiftLeft, c, b, fuel) == Ran(c.(ptr := USIZE - 1), [])
  {
  }

  /** `.` returns the current cell and changes nothing. */
  lemma OutputEffect(c: Config, b: Build, fuel: nat)
    ensures c.ptr < |c.tape| ==> Step(Output, c, b, fuel) == Ran(c, [c.tape[c.ptr]])
    ensures c.ptr >= |c.tape| ==> Step(Output, c, b, fuel) == Panicked(IndexOutOfBounds(c.ptr))
  {
  }

  /** `,` takes exactly one character. An ASCII character's code goes into
      the current cell and nothing else changes; no character left, or a
      character outside ASCII, is a panic. */
  lemma InputEffect(c: Config, b: Build, fuel: nat)
    ensures c.input == [] ==> Step(Input, c, b, fuel) == Panicked(InputExhausted)
    ensures c.input != [] && c.input[0] as int >= 128 ==> Step(Input, c, b, fuel) == Panicked(NotAscii(c.input[0]))
    ensures Step(Input, c, b, fuel).Ran? <==> c.input != [] && c.input[0] as int < 128 && c.ptr < |c.tape|
    ensures Step(Input, c, b, fuel).Ran? ==>
      var d := Step(Input, c, b, fuel).config;
      Step(Input, c, b, fuel).output == [] && d.ptr == c.ptr && [c.input[0]] + d.input == c.input &&
      |d.tape| == |c.tape| && d.tape[c.ptr] as int == c.input[0] as int && d.tape[c.ptr] < 128 &&
      forall k :: 0 <= k < |c.tape| && k != c.ptr ==> d.tape[k] == c.tape[k]
  {
  }

  /** A comment does nothing. */
  lemma CommentEffect(c: Config, b: Build, fuel: nat)
    ensures Step(Comment, c, b, fuel) == Ran(c, [])
  {
  }

  // ---- Loops ----

  /** A loop entered on a zero cell runs no iteration and changes nothing. */
  lemma LoopSkipped(body: seq<Token>, c: Config, b: Build, fuel: nat)
    requires c.ptr < |c.tape| && c.tape[c.ptr] == 0
    ensures Step(Loop(body), c, b, fuel) == Ran(c, [])
  {
  }

  /** A loop that finishes leaves the pointer on a zero cell and returns
      nothing, whatever its body printed. */
  lemma {:induction false} LoopExit(body: seq<Token>, c: Config, b: Build, fuel: nat, n: nat)
    ensures ExecLoop(body, c, b, fuel, n).Ran? ==>
      var d := ExecLoop(body, c, b, fuel, n).config;
      ExecLoop(body, c, b, fuel, n).output == [] && d.ptr < |d.tape| && d.tape[d.ptr] == 0
    decreases n
  {
    if c.ptr < |c.tape| && c.tape[c.ptr] != 0 && n > 0 {
      match Exec(body, c, b, fuel)
      case Panicked(_) =>
      case Ran(c1, _) => LoopExit(body, c1, b, fuel, n - 1);
    }
  }

  lemma LoopExitsOnZero(body: seq<Token>, c: Config, b: Build, fuel: nat)
    ensures Step(Loop(body), c, b, fuel).Ran? ==>
      var d := Step(Loop(body), c, b, fuel).config;
      Step(Loop(body), c, b, fuel).output == [] && d.ptr < |d.tape| && d.tape[d.ptr] == 0
  {
    LoopExit(body, c, b, fuel, fuel);
  }

  // ---- Output ----

  /** Only `.` returns anything. */
  lemma SilentStep(t: Token, c: Config, b: Build, fuel: nat)
    requires t != Output && Step(t, c, b, fuel).Ran?
    ensures Step(t, c, b, fuel).output == []
  {
    if t.Loop? {
      LoopExitsOnZero(t.body, c, b, fuel);
    }
  }

  /** A run returns one byte per `.` directly in the list, none for `.`s
      inside loops. */
  lemma {:induction false} OutputCount(ts: seq<Token>, c: Config, b: Build, fuel: nat)
    requires Exec(ts, c, b, fuel).Ran?
    ensures |Exec(ts, c, b, fuel).output| == DirectOutputs(ts)
    decreases ts
  {
    if ts != [] {
      var c1 := Step(ts[0], c, b, fuel).config;
      OutputCount(ts[1..], c1, b, fuel);
      if ts[0] != Output {
        SilentStep(ts[0], c, b, fuel);
      }
    }
  }

  /** The outcome of a run of `ts` followed by the rest of a list. */
  function Then(r: Outcome, ts: seq<Token>, b: Build, fuel: nat): Outcome {
    match r
    case Panicked(f) => Panicked(f)
    case Ran(c, out) => Emit(out, Exec(ts, c, b, fuel))
  }

  /** Running two lists one after the other is running their concatenation:
      the second starts where the first stopped, and the outputs join in order. */
  lemma {:induction false} ExecAppend(xs: seq<Token>, ys: seq<Token>, c: Config, b: Build, fuel: nat)
    ensures Exec(xs + ys, c, b, fuel) == Then(Exec(xs, c, b, fuel), ys, b, fuel)
    decreases xs
  {
    if xs == [] {
      assert xs + ys == ys;
      match Exec(ys, c, b, fuel)
      case Panicked(_) =>
      case Ran(_, o) => assert [] + o == o;
    } else {
      assert (xs + ys)[0] == xs[0] && (xs + ys)[1..] == xs[1..] + ys;
      match Step(xs[0], c, b, fuel)
      case Panicked(_) =>
      case Ran(c1, o1) =>
        ExecAppend(xs[1..], ys, c1, b, fuel);
        match Exec(xs[1..], c1, b, fuel)
        case Panicked(_) =>
        case Ran(c2, o2) =>
          match Exec(ys, c2, b, fuel)
          case Panicked(_) =>
          case Ran(_, o3) => assert o1 + (o2 + o3) == (o1 + o2) + o3;
    }
  }

  // ---- Comments ----

  /** The list with every comment removed, inside loops too. */
  function StripComments(ts: seq<Token>): (r: seq<Token>)
    decreases ts, 0
    ensures |r| <= |ts|
  {
    if ts == [] then []
    else if ts[0] == Comment then StripComments(ts[1..])
    else [StripToken(ts[0])] + StripComments(ts[1..])
  }

  function StripToken(t: Token): Token
    decreases t, 1
  {
    if t.Loop? then Loop(StripComments(t.body)) else t
  }

  /** Comments have no effect: a program and its comment-free version run
      alike, with the same result, state and output. */
  lemma {:induction false} CommentsIgnored(ts: seq<Token>, c: Config, b: Build, fuel: nat)
    ensures Exec(StripComments(ts), c, b, fuel) == Exec(ts, c, b, fuel)
    decreases ts, 2, 0
  {
    if ts != [] {
      if ts[0] == Comment {
        CommentsIgnored(ts[1..], c, b, fuel);
        assert Exec(ts, c, b, fuel) == Emit([], Exec(ts[1..], c, b, fuel));
        EmitNothing(Exec(ts[1..], c, b, fuel));
      } else {
        var s := StripComments(ts);
        assert s[0] == StripToken(ts[0]) && s[1..] == StripComments(ts[1..]);
        StripStep(ts[0], c, b, fuel);
        match Step(ts[0], c, b, fuel)
        case Panicked(_) =>
        case Ran(c1, _) => CommentsIgnored(ts[1..], c1, b, fuel);
      }
    }
  }

  lemma {:induction false} StripStep(t: Token, c: Config, b: Build, fuel: nat)
    ensures Step(StripToken(t), c, b, fuel) == Step(t, c, b, fuel)
    decreases t, 1, 0
  {
    if t.Loop? {
      StripLoop(t.body, c, b, fuel, fuel);
    }
  }

  lemma {:induction false} StripLoop(body: seq<Token>, c: Config, b: Build, fuel: nat, n: nat)
    ensures ExecLoop(StripComments(body), c, b, fuel, n) == ExecLoop(body, c, b, fuel, n)
    decreases body, 3, n
  {
    if c.ptr < |c.tape| && c.tape[c.ptr] != 0 && n > 0 {
      CommentsIgnored(body, c, b, fuel);
      match Exec(body, c, b, fuel)
      case Panicked(_) =>
      case Ran(c1, _) => StripLoop(body, c1, b, fuel, n - 1);
    }
  }

  lemma EmitNothing(r: Outcome)
    ensures Emit([], r) == r
  {
    if r.Ran? { assert [] + r.output == r.output; }
  }

  // ---- The shape of the state ----

  /** `d` is a state a run can reach from `c`: the tape keeps its length,
      a pointer in usize range stays there, and the unread input is a
      suffix of what was unread before. */
  predicate Follows(c: Config, d: Config) {
    |d.tape| == |c.tape| && (c.ptr < USIZE ==> d.ptr < USIZE) &&
    |d.input| <= |c.input| && d.input == c.input[|c.input| - |d.input|..]
  }

  lemma FollowsTransitive(c: Config, d: Config, e: Config)
    requires Follows(c, d) && Follows(d, e)
    ensures Follows(c, e)
  {
    assert c.input[|c.input| - |e.input|..] == c.input[|c.input| - |d.input|..][|d.input| - |e.input|..];
  }

  lemma {:induction false} RunFollows(ts: seq<Token>, c: Config, b: Build, fuel: nat)
    ensures Exec(ts, c, b, fuel).Ran? ==> Follows(c, Exec(ts, c, b, fuel).config)
    decreases ts, 0, 0
  {
    if ts == [] {
      assert c.input[|c.input| - |c.input|..] == c.input;
    } else {
      StepFollows(ts[0], c, b, fuel);
      match Step(ts[0], c, b, fuel)
      case Panicked(_) =>
      case Ran(c1, _) =>
        RunFollows(ts[1..], c1, b, fuel);
        if Exec(ts[1..], c1, b, fuel).Ran? {
          FollowsTransitive(c, c1, Exec(ts[1..], c1, b, fuel).config);
        }
    }
  }

  lemma {:induction false} StepFollows(t: Token, c: Config, b: Build, fuel: nat)
    ensures Step(t, c, b, fuel).Ran? ==> Follows(c, Step(t, c, b, fuel).config)
    decreases t, 0, 0
  {
    match t
    case Loop(body) => LoopFollows(body, c, b, fuel, fuel);
    case Input =>
      if c.input != [] {
        assert c.input[|c.input| - |c.input[1..]|..] == c.input[1..];
      }
    case _ =>
      assert c.input[|c.input| - |c.input|..] == c.input;
  }

  lemma {:induction false} LoopFollows(body: seq<Token>, c: Config, b: Build, fuel: nat, n: nat)
    ensures ExecLoop(body, c, b, fuel, n).Ran? ==> Follows(c, ExecLoop(body, c, b, fuel, n).config)
    decreases body, 1, n
  {
    if c.ptr < |c.tape| && c.tape[c.ptr] != 0 && n > 0 {
      RunFollows(body, c, b, fuel);
      match Exec(body, c, b, fuel)
      case Panicked(_) =>
      case Ran(c1, _) =>
        LoopFollows(body, c1, b, fuel, n - 1);
        if ExecLoop(body, c1, b, fuel, n - 1).Ran? {
          FollowsTransitive(c, c1, ExecLoop(body, c1, b, fuel, n - 1).config);
        }
    } else {
      assert c.input[|c.input| - |c.input|..] == c.input;
    }
  }

  // ---- Fuel ----

  /** Fuel only cuts runs off: a run that does not run out of fuel has the
      same outcome with any larger fuel. */
  lemma {:induction false} MoreFuel(ts: seq<Token>, c: Config, b: Build, fuel: nat, more: nat)
    requires fuel <= more && Exec(ts, c, b, fuel) != Panicked(OutOfFuel)
    ensures Exec(ts, c, b, more) == Exec(ts, c, b, fuel)
    decreases ts, 0, 0
  {
    if ts != [] {
      match Step(ts[0], c, b, fuel)
      case Panicked(f) =>
        MoreFuelStep(ts[0], c, b, fuel, more);
      case Ran(c1, out) =>
        MoreFuelStep(ts[0], c, b, fuel, more);
        assert Exec(ts[1..], c1, b, fuel) != Panicked(OutOfFuel);
        MoreFuel(ts[1..], c1, b, fuel, more);
    }
  }

  lemma {:induction false} MoreFuelStep(t: Token, c: Config, b: Build, fuel: nat, more: nat)
    requires fuel <= more && Step(t, c, b, fuel) != Panicked(OutOfFuel)
    ensures Step(t, c, b, more) == Step(t, c, b, fuel)
    decreases t, 0, 0
  {
    if t.Loop? {
      MoreFuelLoop(t.body, c, b, fuel, more, fuel, more);
    }
  }

  lemma {:induction false} MoreFuelLoop(body: seq<Token>, c: Config, b: Build, fuel: nat, more: nat, n: nat, m: nat)
    requires fuel <= more && n <= m && ExecLoop(body, c, b, fuel, n) != Panicked(OutOfFuel)
    ensures ExecLoop(body, c, b, more, m) == ExecLoop(body, c, b, fuel, n)
    decreases body, 1, n
  {
    if c.ptr < |c.tape| && c.tape[c.ptr] != 0 {
      assert n > 0;
      assert Exec(body, c, b, fuel) != Panicked(OutOfFuel);
      MoreFuel(body, c, b, fuel, more);
      match Exec(body, c, b, fuel)
      case Panicked(_) =>
      case Ran(c1, _) => MoreFuelLoop(body, c1, b, fuel, more, n - 1, m - 1);
    }
  }

  // ---- Repeated increments ----

  /** `n` copies of one statement. */
  function Copies(t: Token, n: nat): (ts: seq<Token>)
    ensures |ts| == n && forall k :: 0 <= k < n ==> ts[k] == t
  {
    seq(n, _ => t)
  }

  /** `n` increments add `n` to the current cell modulo 256 in a release
      build; a debug build panics as soon as the cell would pass 255. */
  lemma {:induction false} Increments(n: nat, c: Config, b: Build, fuel: nat)
    requires c.ptr < |c.tape|
    ensures b == Release || c.tape[c.ptr] as int + n <= 255 ==>
      Exec(Copies(Plus, n), c, b, fuel) == Ran(c.(tape := c.tape[c.ptr := ((c.tape[c.ptr] as int + n) % 256) as byte]), [])
    ensures b == Debug && c.tape[c.ptr] as int + n > 255 ==>
      Exec(Copies(Plus, n), c, b, fuel) == Panicked(CellOverflow)
    decreases n
  {
    var v := c.tape[c.ptr] as int;
    if n == 0 {
      assert c.tape[c.ptr := (v % 256) as byte] == c.tape;
    } else if b == Debug && v == 255 {
    } else {
      var ts := Copies(Plus, n);
      assert ts[0] == Plus && ts[1..] == Copies(Plus, n - 1);
      var c1 := c.(tape := c.tape[c.ptr := Inc(c.tape[c.ptr])]);
      assert Step(Plus, c, b, fuel) == Ran(c1, []);
      Increments(n - 1, c1, b, fuel);
      IncrementThenMore(c, c1, n);
      EmitNothing(Exec(ts[1..], c1, b, fuel));
    }
  }

  /** One wrapping increment, then `n - 1` more, adds `n` modulo 256. */
  lemma IncrementThenMore(c: Config, c1: Config, n: nat)
    requires c.ptr < |c.tape| && n > 0
    requires c1 == c.(tape := c.tape[c.ptr := Inc(c.tape[c.ptr])])
    ensures c.tape[c.ptr] < 255 ==> c1.tape[c.ptr] as int == c.tape[c.ptr] as int + 1
    ensures c1.(tape := c1.tape[c.ptr := ((c1.tape[c.ptr] as int + (n - 1)) % 256) as byte]) ==
      c.(tape := c.tape[c.ptr := ((c.tape[c.ptr] as int + n) % 256) as byte])
  {
    var v := c.tape[c.ptr] as int;
    var w := c1.tape[c.ptr] as int;
    assert w == (v + 1) % 256;
    assert (w + (n - 1)) % 256 == (v + n) % 256;
    assert c1.tape[c.ptr := ((w + (n - 1)) % 256) as byte] == c.tape[c.ptr := ((v + n) % 256) as byte];
  }

  /** `n` moves to the right add `n` to the pointer, wherever it ends up. */
  lemma {:induction false} Shifts(n: nat, c: Config, b: Build, fuel: nat)
    requires c.ptr + n < USIZE
    ensures Exec(Copies(ShiftRight, n), c, b, fuel) == Ran(c.(ptr := c.ptr + n), [])
    decreases n
  {
    if n > 0 {
      var ts := Copies(ShiftRight, n);
      assert ts[0] == ShiftRight && ts[1..] == Copies(ShiftRight, n - 1);
      Shifts(n - 1, c.(ptr := c.ptr + 1), b, fuel);
    }
  }
}
