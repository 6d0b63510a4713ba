/** What the grammar of src/main.rs accepts: a token tree written out with
    any separators before each statement, before each closing bracket and
    after the last statement, and with any text in its comments, parses back
    to the tree; separators are insignificant; comments run to the first line
    feed; and whatever follows the first position where no statement starts
    is dropped. */
module ParserProperties {
  import opened Tokens
  import opened Wrappers
  import opened Parser

  predicate AllSpace(w: seq<byte>) {
    forall k :: 0 <= k < |w| ==> IsSpace(w[k])
  }

  /** A statement as it may be written: the separators before it, then the
      statement itself. */
  datatype Written = Written(lead: seq<byte>, shape: Shape)

  /** A one-byte command; a loop with the separators before its closing
      bracket; or a line comment with the text between `//` and the line
      feed. */
  datatype Shape =
    | Op(t: Token)
    | Bracket(body: seq<Written>, close: seq<byte>)
    | Remark(text: seq<byte>)

  /** The six tokens written as one byte. */
  predicate IsCommand(t: Token) {
    !t.Loop? && !t.Comment?
  }

  function CommandByte(t: Token): byte {
    match t
    case Plus => PLUS
    case Minus => MINUS
    case ShiftRight => RIGHT
    case ShiftLeft => LEFT
    case Output => DOT
    case Input => COMMA
    case _ => SPACE  // not a command: ruled out by WellShaped
  }

  /** Separators only where separators go, a command in each command and no
      line feed inside a comment. */
  predicate WellWritten(ws: seq<Written>)
    decreases ws
  {
    ws == [] || (AllSpace(ws[0].lead) && WellShaped(ws[0].shape) && WellWritten(ws[1..]))
  }

  predicate WellShaped(sh: Shape)
    decreases sh
  {
    match sh
    case Op(t) => IsCommand(t)
    case Bracket(body, close) => WellWritten(body) && AllSpace(close)
    case Remark(x) => LF !in x
  }

  /** The token tree a written program stands for. */
  function Tree(ws: seq<Written>): (ts: seq<Token>)
    decreases ws
  {
    if ws == [] then [] else [TokenOf(ws[0].shape)] + Tree(ws[1..])
  }

  function TokenOf(sh: Shape): Token
    decreases sh
  {
    match sh
    case Op(t) => t
    case Bracket(body, _) => Loop(Tree(body))
    case Remark(_) => Comment
  }

  /** The text of a written program. */
  function Text(ws: seq<Written>): seq<byte>
    decreases ws
  {
    if ws == [] then [] else ws[0].lead + ShapeText(ws[0].shape) + Text(ws[1..])
  }

  function ShapeText(sh: Shape): seq<byte>
    decreases sh
  {
    match sh
    case Op(t) => [CommandByte(t)]
    case Bracket(body, close) => [OPEN] + Text(body) + close + [CLOSE]
    case Remark(x) => [SLASH, SLASH] + x + [LF]
  }

  /** The canonical writing of a token tree: no separators anywhere and every
      comment empty. */
  function Canonical(ts: seq<Token>): seq<Written>
    decreases ts
  {
    if ts == [] then [] else [Written([], CanonicalShape(ts[0]))] + Canonical(ts[1..])
  }

  function CanonicalShape(t: Token): Shape
    decreases t
  {
    match t
    case Loop(body) => Bracket(Canonical(body), [])
    case Comment => Remark([])
    case _ => Op(t)
  }

  /** The canonical text of a token tree. */
  function Render(ts: seq<Token>): seq<byte> {
    Text(Canonical(ts))
  }

  /** The canonical writing is a writing of the tree it was made from. */
  lemma {:induction false} CanonicalWrites(ts: seq<Token>)
    ensures WellWritten(Canonical(ts)) && Tree(Canonical(ts)) == ts
    decreases ts, 0
  {
    if ts != [] {
      CanonicalShapeWrites(ts[0]);
      CanonicalWrites(ts[1..]);
      assert [ts[0]] + ts[1..] == ts;
    }
  }

  lemma {:induction false} CanonicalShapeWrites(t: Token)
    ensures WellShaped(CanonicalShape(t)) && TokenOf(CanonicalShape(t)) == t
    decreases t, 1
  {
    if t.Loop? { CanonicalWrites(t.body); }
  }

  /** Text, Tree and WellWritten of a statement in front of a list. */
  lemma WrittenCons(w: Written, ws: seq<Written>)
    ensures Text([w] + ws) == w.lead + ShapeText(w.shape) + Text(ws)
    ensures Tree([w] + ws) == [TokenOf(w.shape)] + Tree(ws)
    ensures WellWritten([w] + ws) <==> AllSpace(w.lead) && WellShaped(w.shape) && WellWritten(ws)
  {
    assert ([w] + ws)[0] == w && ([w] + ws)[1..] == ws;
  }

  /** Writing two programs one after the other writes the program made of
      both. */
  lemma {:induction false} WrittenAppend(a: seq<Written>, b: seq<Written>)
    ensures Text(a + b) == Text(a) + Text(b)
    ensures Tree(a + b) == Tree(a) + Tree(b)
    ensures WellWritten(a + b) <==> WellWritten(a) && WellWritten(b)
    decreases a
  {
    if a == [] {
      assert a + b == b;
    } else {
      assert a + b == [a[0]] + (a[1..] + b);
      assert a == [a[0]] + a[1..];
      WrittenAppend(a[1..], b);
      WrittenCons(a[0], a[1..] + b);
      WrittenCons(a[0], a[1..]);
    }
  }

  lemma TreeCons(ws: seq<Written>)
    requires ws != []
    ensures Tree(ws) != [] && Tree(ws)[0] == TokenOf(ws[0].shape)
    ensures Tree(ws)[1..] == Tree(ws[1..])
  {
  }

  /** `text` occurs in `s` at position `i`. */
  predicate At(s: seq<byte>, i: nat, text: seq<byte>) {
    i + |text| <= |s| && forall k :: 0 <= k < |text| ==> s[i + k] == text[k]
  }

  lemma AtSplit(s: seq<byte>, i: nat, a: seq<byte>, b: seq<byte>)
    requires At(s, i, a + b)
    ensures At(s, i, a) && At(s, i + |a|, b)
  {
    forall k | 0 <= k < |a| ensures s[i + k] == a[k] {
      assert (a + b)[k] == a[k];
    }
    forall k | 0 <= k < |b| ensures s[i + |a| + k] == b[k] {
      assert (a + b)[|a| + k] == b[k];
    }
  }

  lemma AtAll(s: seq<byte>)
    ensures At(s, 0, s)
  {
  }

  lemma AtIndex(s: seq<byte>, i: nat, a: seq<byte>, k: nat)
    requires At(s, i, a) && k < |a|
    ensures s[i + k] == a[k]
  {
  }

  /** An outcome with the separators after its end skipped: the enclosing
      production skips them anyway. */
  function Normalize<T>(s: seq<byte>, p: Parsed<T>): Parsed<T>
    requires p.Done? ==> p.pos <= |s|
  {
    if p.Done? then Done(p.value, SkipSpace(s, p.pos)) else p
  }

  /** The length of Text(ws). */
  function Width(ws: seq<Written>): nat
    decreases ws
  {
    if ws == [] then 0 else |ws[0].lead| + ShapeWidth(ws[0].shape) + Width(ws[1..])
  }

  function ShapeWidth(sh: Shape): nat
    decreases sh
  {
    match sh
    case Op(_) => 1
    case Bracket(body, close) => 1 + Width(body) + |close| + 1
    case Remark(x) => |x| + 3
  }

  /** `n` separators stand in `s` from position `i`. */
  predicate Spaces(s: seq<byte>, i: nat, n: nat)
    decreases n
  {
    i + n <= |s| && (n == 0 || (IsSpace(s[i]) && Spaces(s, i + 1, n - 1)))
  }

  /** The layout of Text, stated on positions: the statements of `ws` stand
      in `s` from `i`, each after its separators. */
  predicate ListAt(s: seq<byte>, i: nat, ws: seq<Written>)
    decreases ws
  {
    i + Width(ws) <= |s| &&
    (ws == [] ||
     (Spaces(s, i, |ws[0].lead|) && ShapeAt(s, i + |ws[0].lead|, ws[0].shape) &&
      ListAt(s, i + |ws[0].lead| + ShapeWidth(ws[0].shape), ws[1..])))
  }

  predicate ShapeAt(s: seq<byte>, i: nat, sh: Shape)
    decreases sh
  {
    i + ShapeWidth(sh) <= |s| &&
    match sh
    case Op(t) => IsCommand(t) && s[i] == CommandByte(t)
    case Bracket(body, close) =>
      s[i] == OPEN && ListAt(s, i + 1, body) &&
      Spaces(s, i + 1 + Width(body), |close|) && s[i + 1 + Width(body) + |close|] == CLOSE
    case Remark(x) =>
      s[i] == SLASH && s[i + 1] == SLASH && s[i + 2 + |x|] == LF &&
      forall k :: i + 2 <= k < i + 2 + |x| ==> s[k] != LF
  }

  /** Skipping separators from `i` stops at the first non-separator `j`. */
  lemma {:induction false} SkipTo(s: seq<byte>, i: nat, n: nat)
    requires Spaces(s, i, n)
    requires i + n == |s| || !IsSpace(s[i + n])
    ensures SkipSpace(s, i) == i + n
    decreases n
  {
    if n > 0 { SkipTo(s, i + 1, n - 1); }
  }

  lemma {:induction false} SkipGap(s: seq<byte>, i: nat, gap: seq<byte>)
    requires At(s, i, gap) && AllSpace(gap)
    ensures Spaces(s, i, |gap|)
    decreases |gap|
  {
    if gap != [] {
      assert gap == [gap[0]] + gap[1..];
      AtSplit(s, i, [gap[0]], gap[1..]);
      AtIndex(s, i, gap, 0);
      SkipGap(s, i + 1, gap[1..]);
    }
  }

  /** No written statement starts with a separator. */
  lemma ShapeStart(s: seq<byte>, i: nat, sh: Shape)
    requires ShapeAt(s, i, sh)
    ensures i < |s| && !IsSpace(s[i])
  {
  }

  /** After a statement of a list, separators run up to the next statement
      or, after the last one, over the `n` separators that follow the list. */
  lemma ListStart(s: seq<byte>, e: nat, ws: seq<Written>, n: nat)
    requires ListAt(s, e, ws)
    requires ws == [] ==> Spaces(s, e, n) && e + n < |s| && !IsSpace(s[e + n])
    ensures ws == [] ==> SkipSpace(s, e) == e + n
    ensures ws != [] ==> SkipSpace(s, e) == e + |ws[0].lead| < |s| && !IsSpace(s[e + |ws[0].lead|])
  {
    if ws != [] {
      ShapeStart(s, e + |ws[0].lead|, ws[0].shape);
      SkipTo(s, e, |ws[0].lead|);
    } else {
      SkipTo(s, e, n);
    }
  }

  /** Only the first non-separator byte decides how a statement list goes on. */
  lemma BodyAfterSpace(s: seq<byte>, i: nat)
    requires i <= |s|
    requires SkipSpace(s, i) < |s| || i == |s|
    ensures Normalize(s, Body(s, SkipSpace(s, i))) == Normalize(s, Body(s, i))
  {
  }

  /** A byte that no statement and no separator starts with. */
  predicate Unparsable(c: byte) {
    c != PLUS && c != MINUS && c != RIGHT && c != LEFT && c != DOT &&
    c != COMMA && c != OPEN && c != SLASH && !IsSpace(c)
  }

  /** No statement starts at a byte that is not one of the grammar's. */
  lemma SyntaxStops(s: seq<byte>, i: nat)
    requires i < |s| && Unparsable(s[i])
    ensures Syntax(s, i) == Error
  {
    assert SkipSpace(s, i) == i;
  }

  /** One step of a statement list: a statement after the separators, then
      the rest of the list. */
  lemma BodyStep(s: seq<byte>, i: nat, ts: seq<Token>, j: nat, end: nat)
    requires ts != [] && i < |s| && Syntax(s, SkipSpace(s, i)) == Done(ts[0], j)
    requires Normalize(s, Body(s, j)) == Done(ts[1..], end)
    ensures Normalize(s, Body(s, i)) == Done(ts, end)
  {
    assert [ts[0]] + ts[1..] == ts;
  }

  /** The outcome of a statement list, separators after its end skipped, does
      not change when the separators before it are skipped first. */
  lemma BodySkip(s: seq<byte>, e: nat, ts: seq<Token>, end: nat)
    requires e <= |s| && SkipSpace(s, e) < |s|
    requires Normalize(s, Body(s, e)) == Done(ts, end)
    ensures Normalize(s, Body(s, SkipSpace(s, e))) == Done(ts, end)
  {
    BodyAfterSpace(s, e);
  }

  /** A loop whose body list ends right before its closing bracket. */
  lemma LoopStep(s: seq<byte>, i: nat, body: seq<Token>, c: nat)
    requires i < |s| && s[i] == OPEN
    requires Normalize(s, Body(s, i + 1)) == Done(body, c)
    requires c < |s| && s[c] == CLOSE
    ensures LoopParser(s, i) == Done(Loop(body), SkipSpace(s, c + 1))
  {
    assert SkipSpace(s, i) == i;
  }

  /** At an opening bracket, only the loop parser can succeed. */
  lemma SyntaxAtOpen(s: seq<byte>, i: nat)
    requires i < |s| && s[i] == OPEN
    ensures Syntax(s, i) == Alt(LoopParser(s, i), CommentParser(s, i))
  {
  }

  /** A comment laid out at `i` runs to the line feed after its text. */
  lemma RemarkParsed(s: seq<byte>, i: nat, x: seq<byte>)
    requires ShapeAt(s, i, Remark(x))
    ensures CommentParser(s, i) == Done(Comment, i + |x| + 3)
  {
    var f := i + 2 + |x|;
    CommentRunsToLineFeed(s, i);
    var p := CommentParser(s, i).pos;
    assert s[p - 1] == LF;
    assert !(p - 1 < f);
    assert !(f < p - 1);
  }

  /** The statements other than loops are one byte, or a comment up to its
      line feed. */
  lemma SimpleLayout(s: seq<byte>, i: nat, sh: Shape)
    requires !sh.Bracket? && ShapeAt(s, i, sh)
    ensures Syntax(s, i) == Done(TokenOf(sh), i + ShapeWidth(sh))
  {
    if sh.Remark? {
      RemarkParsed(s, i, sh.text);
    }
  }

  lemma {:induction false} LoopLayout(s: seq<byte>, i: nat, sh: Shape)
    requires sh.Bracket? && ShapeAt(s, i, sh)
    ensures Syntax(s, i) == Done(TokenOf(sh), SkipSpace(s, i + ShapeWidth(sh)))
    decreases sh, 1
  {
    var c := i + 1 + Width(sh.body) + |sh.close|;
    ListLayout(s, i + 1, sh.body, |sh.close|);
    LoopStep(s, i, Tree(sh.body), c);
    SyntaxAtOpen(s, i);
  }

  /** A statement list laid out at `i`, then `n` separators and a byte no
      statement starts with (a closing bracket, in a loop), parses to the
      list's tokens. */
  lemma {:induction false} ListLayout(s: seq<byte>, i: nat, ws: seq<Written>, n: nat)
    requires ListAt(s, i, ws)
    requires var e := i + Width(ws);
      Spaces(s, e, n) && e + n < |s| && Unparsable(s[e + n])
    ensures Normalize(s, Body(s, i)) == Done(Tree(ws), i + Width(ws) + n)
    decreases ws, 2
  {
    if ws == [] {
      SkipTo(s, i, n);
      SyntaxStops(s, i + n);
    } else {
      var g := |ws[0].lead|;
      var e := i + g + ShapeWidth(ws[0].shape);
      assert Width(ws) == g + ShapeWidth(ws[0].shape) + Width(ws[1..]);
      assert ListAt(s, e, ws[1..]);
      var end := i + Width(ws) + n;
      assert end == e + Width(ws[1..]) + n;
      ListLayout(s, e, ws[1..], n);
      ListStart(s, e, ws[1..], n);
      ListCons(s, i, ws, e, end);
    }
  }

  /** The step of ListLayout: a statement, then the rest of the list. */
  lemma {:induction false} ListCons(s: seq<byte>, i: nat, ws: seq<Written>, e: nat, end: nat)
    requires ws != [] && Spaces(s, i, |ws[0].lead|) && ShapeAt(s, i + |ws[0].lead|, ws[0].shape)
    requires e == i + |ws[0].lead| + ShapeWidth(ws[0].shape) && SkipSpace(s, e) < |s|
    requires Normalize(s, Body(s, e)) == Done(Tree(ws[1..]), end)
    ensures Normalize(s, Body(s, i)) == Done(Tree(ws), end)
    decreases ws, 1
  {
    var g := |ws[0].lead|;
    ShapeStart(s, i + g, ws[0].shape);
    SkipTo(s, i, g);
    TreeCons(ws);
    if ws[0].shape.Bracket? {
      LoopCons(s, i, ws, e, end);
    } else {
      SimpleLayout(s, i + g, ws[0].shape);
      BodyStep(s, i, Tree(ws), e, end);
    }
  }

  /** ListCons for a list that starts with a loop: the loop already takes
      the separators after it. */
  lemma {:induction false} LoopCons(s: seq<byte>, i: nat, ws: seq<Written>, e: nat, end: nat)
    requires ws != [] && ws[0].shape.Bracket? && i < |s|
    requires SkipSpace(s, i) == i + |ws[0].lead| && ShapeAt(s, i + |ws[0].lead|, ws[0].shape)
    requires e == i + |ws[0].lead| + ShapeWidth(ws[0].shape) && SkipSpace(s, e) < |s|
    requires Normalize(s, Body(s, e)) == Done(Tree(ws[1..]), end)
    ensures Normalize(s, Body(s, i)) == Done(Tree(ws), end)
    decreases ws, 0
  {
    TreeCons(ws);
    LoopLayout(s, i + |ws[0].lead|, ws[0].shape);
    BodySkip(s, e, Tree(ws[1..]), end);
    BodyStep(s, i, Tree(ws), SkipSpace(s, e), end);
  }

  /** One top-level statement, then the rest of the program. */
  lemma ProgramThen(s: seq<byte>, i: nat, j: nat, ts: seq<Token>, k: nat)
    requires i < |s| && ts != []
    requires Statement(s, i) == Done(ts[0], j) && Program(s, j) == Done(ts[1..], k)
    ensures Program(s, i) == Done(ts, k)
  {
    assert [ts[0]] + ts[1..] == ts;
  }

  /** Statement positions at the top level do not depend on the separators
      before them. */
  lemma ProgramSkip(s: seq<byte>, i: nat, j: nat)
    requires i <= j <= |s| && SkipSpace(s, i) == j
    requires Statement(s, i).Done?
    ensures Program(s, i) == Program(s, j)
  {
    SkipTo(s, j, 0);
  }

  /** The top-level analogue of ListLayout: a list laid out at `i`, then `n`
      separators and the end of the text or a byte no statement starts with.
      Separators alone, up to the end of the text, are not a program. */
  lemma {:induction false} ProgramLayout(s: seq<byte>, i: nat, ws: seq<Written>, n: nat)
    requires ListAt(s, i, ws)
    requires var e := i + Width(ws);
      Spaces(s, e, n) && (e + n == |s| || Unparsable(s[e + n]))
    requires ws == [] && n > 0 ==> i + n < |s|
    ensures Program(s, i).Done? && Program(s, i).value == Tree(ws)
    decreases ws
  {
    if ws == [] {
      SkipTo(s, i, n);
      if i + n < |s| { SyntaxStops(s, i + n); }
    } else {
      var g := |ws[0].lead|;
      var e := i + g + ShapeWidth(ws[0].shape);
      assert Width(ws) == g + ShapeWidth(ws[0].shape) + Width(ws[1..]);
      assert ListAt(s, e, ws[1..]);
      if ws[1..] == [] {
        ProgramLast(s, i, ws, e, n);
      } else {
        ProgramLayout(s, e, ws[1..], n);
        ProgramCons(s, i, ws, e, Program(s, e).pos);
      }
    }
  }

  /** The last statement of a program takes the separators after it. */
  lemma ProgramLast(s: seq<byte>, i: nat, ws: seq<Written>, e: nat, n: nat)
    requires ws != [] && ws[1..] == []
    requires Spaces(s, i, |ws[0].lead|) && ShapeAt(s, i + |ws[0].lead|, ws[0].shape)
    requires e == i + |ws[0].lead| + ShapeWidth(ws[0].shape)
    requires Spaces(s, e, n) && (e + n == |s| || Unparsable(s[e + n]))
    ensures Program(s, i) == Done(Tree(ws), e + n)
  {
    SkipTo(s, e, n);
    StatementLayout(s, i, ws[0], e, e + n);
    if e + n < |s| {
      SyntaxStops(s, e + n);
      assert Statement(s, e + n) == Error;
    }
    TreeCons(ws);
    ShapeStart(s, i + |ws[0].lead|, ws[0].shape);
    ProgramThen(s, i, e + n, Tree(ws), e + n);
  }

  /** The step of ProgramLayout: a statement with the separators after it,
      then the rest of the program. */
  lemma ProgramCons(s: seq<byte>, i: nat, ws: seq<Written>, e: nat, end: nat)
    requires ws != [] && ws[1..] != []
    requires Spaces(s, i, |ws[0].lead|) && ShapeAt(s, i + |ws[0].lead|, ws[0].shape)
    requires e == i + |ws[0].lead| + ShapeWidth(ws[0].shape) && ListAt(s, e, ws[1..])
    requires Program(s, e) == Done(Tree(ws[1..]), end)
    ensures Program(s, i) == Done(Tree(ws), end)
  {
    ListStart(s, e, ws[1..], 0);
    var next := e + |ws[1..][0].lead|;
    StatementLayout(s, i, ws[0], e, next);
    TreeCons(ws[1..]);
    assert Statement(s, e).Done?;
    ProgramSkip(s, e, next);
    TreeCons(ws);
    ShapeStart(s, i + |ws[0].lead|, ws[0].shape);
    ProgramThen(s, i, next, Tree(ws), end);
  }

  /** A statement laid out after separators is one top-level statement,
      which also takes the separators after it, up to `next`. */
  lemma StatementLayout(s: seq<byte>, i: nat, w: Written, e: nat, next: nat)
    requires Spaces(s, i, |w.lead|) && ShapeAt(s, i + |w.lead|, w.shape)
    requires e == i + |w.lead| + ShapeWidth(w.shape) && e <= |s| && SkipSpace(s, e) == next
    ensures Statement(s, i) == Done(TokenOf(w.shape), next)
  {
    var g := |w.lead|;
    ShapeStart(s, i + g, w.shape);
    SkipTo(s, i, g);
    if w.shape.Bracket? {
      LoopStatement(s, i, g, w.shape, e);
    } else {
      SimpleStatement(s, i, g, w.shape, e);
    }
  }

  /** StatementLayout for the statements other than loops. */
  lemma SimpleStatement(s: seq<byte>, i: nat, g: nat, sh: Shape, e: nat)
    requires !sh.Bracket? && i + g <= |s| && SkipSpace(s, i) == i + g && ShapeAt(s, i + g, sh)
    requires e == i + g + ShapeWidth(sh)
    ensures Statement(s, i) == Done(TokenOf(sh), SkipSpace(s, e))
  {
    SimpleLayout(s, i + g, sh);
    StatementStep(s, i, i + g, TokenOf(sh), e);
  }

  /** StatementLayout for a loop, which takes the separators after it itself. */
  lemma LoopStatement(s: seq<byte>, i: nat, g: nat, sh: Shape, e: nat)
    requires sh.Bracket? && i + g <= |s| && SkipSpace(s, i) == i + g && ShapeAt(s, i + g, sh)
    requires e == i + g + ShapeWidth(sh)
    ensures Statement(s, i) == Done(TokenOf(sh), SkipSpace(s, e))
  {
    LoopLayout(s, i + g, sh);
    var k := SkipSpace(s, e);
    SkipTo(s, k, 0);
    StatementStep(s, i, i + g, TokenOf(sh), k);
  }

  /** A top-level statement is a statement after separators, with the
      separators after it skipped. */
  lemma StatementStep(s: seq<byte>, i: nat, j: nat, t: Token, k: nat)
    requires i <= |s| && SkipSpace(s, i) == j && Syntax(s, j) == Done(t, k)
    ensures Statement(s, i) == Done(t, SkipSpace(s, k))
  {
  }

  /** Text is as long as Width says. */
  lemma {:induction false} TextWidth(ws: seq<Written>)
    ensures |Text(ws)| == Width(ws)
    decreases ws, 0
  {
    if ws != [] {
      ShapeTextWidth(ws[0].shape);
      TextWidth(ws[1..]);
    }
  }

  lemma {:induction false} ShapeTextWidth(sh: Shape)
    ensures |ShapeText(sh)| == ShapeWidth(sh)
    decreases sh, 1
  {
    if sh.Bracket? { TextWidth(sh.body); }
  }

  /** Text lays its statements out as ListAt describes. */
  lemma {:induction false} TextLayout(s: seq<byte>, i: nat, ws: seq<Written>)
    requires WellWritten(ws) && At(s, i, Text(ws))
    ensures ListAt(s, i, ws)
    decreases ws, 0
  {
    TextWidth(ws);
    if ws != [] {
      var lead := ws[0].lead;
      var st := ShapeText(ws[0].shape);
      var rest := Text(ws[1..]);
      assert Text(ws) == lead + (st + rest);
      AtSplit(s, i, lead, st + rest);
      AtSplit(s, i + |lead|, st, rest);
      SkipGap(s, i, lead);
      ShapeTextWidth(ws[0].shape);
      ShapeTextLayout(s, i + |lead|, ws[0].shape);
      TextLayout(s, i + |lead| + |st|, ws[1..]);
    }
  }

  lemma {:induction false} ShapeTextLayout(s: seq<byte>, i: nat, sh: Shape)
    requires WellShaped(sh) && At(s, i, ShapeText(sh))
    ensures ShapeAt(s, i, sh)
    decreases sh, 1
  {
    ShapeTextWidth(sh);
    AtIndex(s, i, ShapeText(sh), 0);
    match sh
    case Bracket(_, _) =>
      BracketTextLayout(s, i, sh);
    case Remark(x) =>
      RemarkTextLayout(s, i, x);
    case Op(_) =>
  }

  /** The loop case of ShapeTextLayout: bracket, body, separators, bracket. */
  lemma {:induction false} BracketTextLayout(s: seq<byte>, i: nat, sh: Shape)
    requires sh.Bracket? && WellShaped(sh) && At(s, i, ShapeText(sh))
    ensures ShapeAt(s, i, sh)
    decreases sh, 0
  {
    var rb := Text(sh.body);
    var close := sh.close;
    assert ShapeText(sh) == [OPEN] + (rb + (close + [CLOSE]));
    AtSplit(s, i, [OPEN], rb + (close + [CLOSE]));
    AtIndex(s, i, [OPEN], 0);
    AtSplit(s, i + 1, rb, close + [CLOSE]);
    AtSplit(s, i + 1 + |rb|, close, [CLOSE]);
    AtIndex(s, i + 1 + |rb| + |close|, [CLOSE], 0);
    SkipGap(s, i + 1 + |rb|, close);
    TextWidth(sh.body);
    TextLayout(s, i + 1, sh.body);
  }

  /** The comment case of ShapeTextLayout: `//`, a text without line feeds,
      then a line feed. */
  lemma RemarkTextLayout(s: seq<byte>, i: nat, x: seq<byte>)
    requires LF !in x && At(s, i, ShapeText(Remark(x)))
    ensures ShapeAt(s, i, Remark(x))
  {
    var t := ShapeText(Remark(x));
    AtIndex(s, i, t, 0);
    AtIndex(s, i, t, 1);
    AtIndex(s, i, t, 2 + |x|);
    forall k | i + 2 <= k < i + 2 + |x| ensures s[k] != LF {
      AtIndex(s, i, t, k - i);
      assert t[k - i] == x[k - i - 2];
    }
  }

  /** A written program at the head of a text is laid out as ListAt says. */
  lemma TextThen(ws: seq<Written>, rest: seq<byte>)
    requires WellWritten(ws)
    ensures ListAt(Text(ws) + rest, 0, ws) && Width(ws) == |Text(ws)|
  {
    var s := Text(ws) + rest;
    AtAll(s);
    AtSplit(s, 0, Text(ws), rest);
    TextWidth(ws);
    TextLayout(s, 0, ws);
  }

  /** Separators after a text, then whatever follows them. */
  lemma {:induction false} SpacesThen(r: seq<byte>, trail: seq<byte>, rest: seq<byte>)
    requires AllSpace(trail)
    ensures Spaces(r + trail + rest, |r|, |trail|)
    ensures rest != [] ==> (r + trail + rest)[|r| + |trail|] == rest[0]
    decreases |trail|
  {
    if trail != [] {
      var r1 := r + [trail[0]];
      assert r + trail + rest == r1 + trail[1..] + rest;
      assert (r + trail + rest)[|r|] == trail[0];
      SpacesThen(r1, trail[1..], rest);
    }
  }

  /** Round trip: a token tree written with any separators before each of
      its statements, before each of its closing brackets and after its last
      statement, and with any text in its comments, parses back to the tree.
      Only a program with no statement may not have separators after it. */
  lemma RoundTrip(ws: seq<Written>, trail: seq<byte>)
    requires WellWritten(ws) && AllSpace(trail)
    requires ws == [] ==> trail == []
    ensures ParseInput(Text(ws) + trail) == Ok(Tree(ws))
  {
    var s := Text(ws) + trail;
    assert s == Text(ws) + trail + [];
    TextThen(ws, trail);
    SpacesThen(Text(ws), trail, []);
    ProgramLayout(s, 0, ws, |trail|);
  }

  /** Parsing is idempotent: the canonical text of a parsed program parses to
      the same tokens. */
  lemma Reparse(s: seq<byte>)
    requires ParseInput(s).Ok?
    ensures ParseInput(Render(ParseInput(s).value)) == ParseInput(s)
  {
    var ws := Canonical(ParseInput(s).value);
    CanonicalWrites(ParseInput(s).value);
    assert Text(ws) + [] == Text(ws);
    RoundTrip(ws, []);
  }

  /** After a written program and the separators that follow it, everything
      from a byte no statement starts with is silently dropped. */
  lemma RemainderDropped(ws: seq<Written>, trail: seq<byte>, junk: seq<byte>)
    requires WellWritten(ws) && AllSpace(trail)
    requires junk != [] && Unparsable(junk[0])
    ensures ParseInput(Text(ws) + trail + junk) == Ok(Tree(ws))
  {
    var r := Text(ws);
    var s := r + trail + junk;
    assert s == r + (trail + junk);
    TextThen(ws, trail + junk);
    SpacesThen(r, trail, junk);
    ProgramLayout(s, 0, ws, |trail|);
  }

  /** Inside a loop a byte no statement starts with is not dropped: the
      loop then has no closing bracket where its body stops, so the whole
      loop fails and parsing stops before it. The text is "+[+x]". */
  lemma JunkInsideLoop()
    ensures ParseInput([PLUS, OPEN, PLUS, 120, CLOSE]) == Ok([Plus])
  {
    var s: seq<byte> := [PLUS, OPEN, PLUS, 120, CLOSE];
    assert SkipSpace(s, 3) == 3 && Syntax(s, 3) == Error && Body(s, 3) == Done([], 3);
    assert SkipSpace(s, 2) == 2 && Syntax(s, 2) == Done(Plus, 3);
    assert [Plus] + [] == [Plus] && Body(s, 2) == Done([Plus], 3);
    assert SkipSpace(s, 1) == 1 && LoopParser(s, 1) == Error;
    assert Syntax(s, 1) == Error && Statement(s, 1) == Error;
    assert Program(s, 1) == Done([], 1);
    assert SkipSpace(s, 0) == 0 && Statement(s, 0) == Done(Plus, 1);
    ProgramThen(s, 0, 1, [Plus], 1);
  }

  /** A program made only of separators makes parse_input panic: the
      statement parser is then applied to no input at all. */
  lemma SpaceOnlyProgramPanics(w: seq<byte>)
    requires AllSpace(w) && w != []
    ensures ParseInput(w) == Err(UnwrapPanic)
  {
    SkipGap(w, 0, w);
    SkipTo(w, 0, |w|);
  }

  /** A line comment runs up to and including the first line feed. */
  lemma CommentToLineEnd(x: seq<byte>, r: seq<byte>)
    requires LF !in x
    ensures CommentParser([SLASH, SLASH] + x + [LF] + r, 0) == Done(Comment, |x| + 3)
  {
    var s := [SLASH, SLASH] + x + [LF] + r;
    assert s[2 + |x|] == LF;
    CommentRunsToLineFeed(s, 0);
    forall k | 2 <= k < 2 + |x| ensures s[k] != LF {
      assert s[k] == x[k - 2];
    }
  }

  /** A comment with no line feed after it is not a comment: parsing stops
      before it. */
  lemma CommentAtEndRejected(x: seq<byte>)
    requires LF !in x
    ensures CommentParser([SLASH, SLASH] + x, 0) == Error
  {
    var s := [SLASH, SLASH] + x;
    CommentRunsToLineFeed(s, 0);
    forall k | 2 <= k < |s| ensures s[k] != LF {
      assert s[k] == x[k - 2];
    }
  }
}
