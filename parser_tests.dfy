/** The parser tests of src/main.rs, stated as lemmas about the grammar
    functions on the same program texts. */
module ParserTests {
  import opened Tokens
  import opened Wrappers
  import opened Parser
  import opened ParserProperties

  /** plus_parser_test: "+" is Plus with nothing left over. */
  lemma PlusParserTest()
    ensures Command([PLUS], 0, PLUS, Plus) == Done(Plus, 1)
  {
  }

  /** syntax_test: "-" is Minus with nothing left over. */
  lemma SyntaxTest()
    ensures Syntax([MINUS], 0) == Done(Minus, 1)
  {
  }

  /** loop_test: "[++-]" is one loop of three statements. */
  lemma LoopTest()
    ensures LoopParser([OPEN, PLUS, PLUS, MINUS, CLOSE], 0) == Done(Loop([Plus, Plus, Minus]), 5)
  {
    var s: seq<byte> := [OPEN, PLUS, PLUS, MINUS, CLOSE];
    assert SkipSpace(s, 4) == 4 && Syntax(s, 4) == Error;
    assert Body(s, 4) == Done([], 4);
    assert SkipSpace(s, 3) == 3 && Syntax(s, 3) == Done(Minus, 4);
    assert [Minus] + [] == [Minus];
    assert Body(s, 3) == Done([Minus], 4);
    assert SkipSpace(s, 2) == 2 && Syntax(s, 2) == Done(Plus, 3);
    assert [Plus] + [Minus] == [Plus, Minus];
    assert Body(s, 2) == Done([Plus, Minus], 4);
    assert SkipSpace(s, 1) == 1 && Syntax(s, 1) == Done(Plus, 2);
    assert [Plus] + [Plus, Minus] == [Plus, Plus, Minus];
    assert Body(s, 1) == Done([Plus, Plus, Minus], 4);
  }

  /** The text of nested_loop_test: "[+[++]-]". */
  const NESTED: seq<byte> := [OPEN, PLUS, OPEN, PLUS, PLUS, CLOSE, MINUS, CLOSE]

  /** The inner loop "[++]" at position 2. */
  lemma NestedInner(s: seq<byte>)
    requires s == NESTED
    ensures Syntax(s, 2) == Done(Loop([Plus, Plus]), 6)
  {
    assert SkipSpace(s, 5) == 5 && Syntax(s, 5) == Error;
    assert Body(s, 5) == Done([], 5);
    assert SkipSpace(s, 4) == 4 && Syntax(s, 4) == Done(Plus, 5);
    assert [Plus] + [] == [Plus];
    assert Body(s, 4) == Done([Plus], 5);
    assert SkipSpace(s, 3) == 3 && Syntax(s, 3) == Done(Plus, 4);
    assert [Plus] + [Plus] == [Plus, Plus];
    assert Body(s, 3) == Done([Plus, Plus], 5);
    assert LoopParser(s, 2) == Done(Loop([Plus, Plus]), 6);
  }

  /** nested_loop_test: "[+[++]-]" nests a loop inside a loop. */
  lemma NestedLoopTest()
    ensures LoopParser(NESTED, 0) == Done(Loop([Plus, Loop([Plus, Plus]), Minus]), 8)
  {
    var s := NESTED;
    NestedInner(s);
    assert SkipSpace(s, 2) == 2;
    assert SkipSpace(s, 7) == 7 && Syntax(s, 7) == Error;
    assert Body(s, 7) == Done([], 7);
    assert SkipSpace(s, 6) == 6 && Syntax(s, 6) == Done(Minus, 7);
    assert [Minus] + [] == [Minus];
    assert Body(s, 6) == Done([Minus], 7);
    assert [Loop([Plus, Plus])] + [Minus] == [Loop([Plus, Plus]), Minus];
    assert Body(s, 2) == Done([Loop([Plus, Plus]), Minus], 7);
    assert SkipSpace(s, 1) == 1 && Syntax(s, 1) == Done(Plus, 2);
    assert [Plus] + [Loop([Plus, Plus]), Minus] == [Plus, Loop([Plus, Plus]), Minus];
    assert Body(s, 1) == Done([Plus, Loop([Plus, Plus]), Minus], 7);
  }

  /** The text of ignore_whitespace_test: "+-+>  <  -", two line feeds, four spaces, "+". */
  const SPACED: seq<byte> := [PLUS, MINUS, PLUS, RIGHT, SPACE, SPACE, LEFT, SPACE, SPACE, MINUS,
                               LF, LF, SPACE, SPACE, SPACE, SPACE, PLUS]

  /** Where each top-level statement of SPACED starts and where its trailing
      separators end. */
  lemma SpacedStatements(s: seq<byte>)
    requires s == SPACED
    ensures Statement(s, 0) == Done(Plus, 1) && Statement(s, 1) == Done(Minus, 2)
    ensures Statement(s, 2) == Done(Plus, 3) && Statement(s, 3) == Done(ShiftRight, 6)
    ensures Statement(s, 6) == Done(ShiftLeft, 9) && Statement(s, 9) == Done(Minus, 16)
    ensures Statement(s, 16) == Done(Plus, 17)
  {
    assert SkipSpace(s, 16) == 16 && SkipSpace(s, 15) == 16 && SkipSpace(s, 14) == 16;
    assert SkipSpace(s, 13) == 16 && SkipSpace(s, 12) == 16 && SkipSpace(s, 11) == 16;
    assert SkipSpace(s, 10) == 16;
    assert SkipSpace(s, 9) == 9 && SkipSpace(s, 8) == 9 && SkipSpace(s, 7) == 9;
    assert SkipSpace(s, 6) == 6 && SkipSpace(s, 5) == 6 && SkipSpace(s, 4) == 6;
  }

  /** The program is the sequence of those statements. */
  lemma SpacedProgram(s: seq<byte>)
    requires |s| == 17
    requires Statement(s, 0) == Done(Plus, 1) && Statement(s, 1) == Done(Minus, 2)
    requires Statement(s, 2) == Done(Plus, 3) && Statement(s, 3) == Done(ShiftRight, 6)
    requires Statement(s, 6) == Done(ShiftLeft, 9) && Statement(s, 9) == Done(Minus, 16)
    requires Statement(s, 16) == Done(Plus, 17)
    ensures Program(s, 0) == Done([Plus, Minus, Plus, ShiftRight, ShiftLeft, Minus, Plus], 17)
  {
    assert Program(s, 17) == Done([], 17) && [Plus][1..] == [];
    ProgramThen(s, 16, 17, [Plus], 17);
    ProgramThen(s, 9, 16, [Minus, Plus], 17);
    ProgramThen(s, 6, 9, [ShiftLeft, Minus, Plus], 17);
    ProgramThen(s, 3, 6, [ShiftRight, ShiftLeft, Minus, Plus], 17);
    ProgramThen(s, 2, 3, [Plus, ShiftRight, ShiftLeft, Minus, Plus], 17);
    ProgramThen(s, 1, 2, [Minus, Plus, ShiftRight, ShiftLeft, Minus, Plus], 17);
    ProgramThen(s, 0, 1, [Plus, Minus, Plus, ShiftRight, ShiftLeft, Minus, Plus], 17);
  }

  /** ignore_whitespace_test: spaces and line feeds between statements are skipped. */
  lemma IgnoreWhitespaceTest()
    ensures Program(SPACED, 0) == Done([Plus, Minus, Plus, ShiftRight, ShiftLeft, Minus, Plus], 17)
  {
    SpacedStatements(SPACED);
    SpacedProgram(SPACED);
  }

  /** SPACED as a written program: each slot has separators of its own. */
  lemma SpacedWritten() returns (ws: seq<Written>)
    ensures WellWritten(ws) && Text(ws) == SPACED
    ensures Tree(ws) == [Plus, Minus, Plus, ShiftRight, ShiftLeft, Minus, Plus]
  {
    var head := SpacedHead();
    var middle := SpacedMiddle();
    var last := SpacedLast();
    WrittenAppend(middle, last);
    WrittenAppend(head, middle + last);
    ws := head + (middle + last);
    assert SPACED == [PLUS, MINUS, PLUS, RIGHT] + ([SPACE, SPACE, LEFT, SPACE, SPACE, MINUS] +
                     [LF, LF, SPACE, SPACE, SPACE, SPACE, PLUS]);
    assert [Plus, Minus, Plus, ShiftRight, ShiftLeft, Minus, Plus] ==
           [Plus, Minus, Plus, ShiftRight] + ([ShiftLeft, Minus] + [Plus]);
  }

  /** "+-+>" of SPACED: commands with no separators. */
  lemma SpacedHead() returns (ws: seq<Written>)
    ensures WellWritten(ws) && Text(ws) == [PLUS, MINUS, PLUS, RIGHT]
    ensures Tree(ws) == [Plus, Minus, Plus, ShiftRight]
  {
    ws := [];
    WrittenCons(Written([], Op(ShiftRight)), ws);
    ws := [Written([], Op(ShiftRight))] + ws;
    WrittenCons(Written([], Op(Plus)), ws);
    ws := [Written([], Op(Plus))] + ws;
    WrittenCons(Written([], Op(Minus)), ws);
    ws := [Written([], Op(Minus))] + ws;
    WrittenCons(Written([], Op(Plus)), ws);
    ws := [Written([], Op(Plus))] + ws;
  }

  /** "  <  -" of SPACED. */
  lemma SpacedMiddle() returns (ws: seq<Written>)
    ensures WellWritten(ws) && Text(ws) == [SPACE, SPACE, LEFT, SPACE, SPACE, MINUS]
    ensures Tree(ws) == [ShiftLeft, Minus]
  {
    ws := [];
    WrittenCons(Written([SPACE, SPACE], Op(Minus)), ws);
    ws := [Written([SPACE, SPACE], Op(Minus))] + ws;
    WrittenCons(Written([SPACE, SPACE], Op(ShiftLeft)), ws);
    ws := [Written([SPACE, SPACE], Op(ShiftLeft))] + ws;
  }

  /** Two line feeds, four spaces and "+": the last statement of SPACED. */
  lemma SpacedLast() returns (ws: seq<Written>)
    ensures WellWritten(ws) && Text(ws) == [LF, LF, SPACE, SPACE, SPACE, SPACE, PLUS]
    ensures Tree(ws) == [Plus]
  {
    var lead := [LF, LF, SPACE, SPACE, SPACE, SPACE];
    assert AllSpace(lead) by {
      forall k | 0 <= k < |lead| ensures IsSpace(lead[k]) {
        assert lead[k] == LF || lead[k] == SPACE;
      }
    }
    WrittenCons(Written(lead, Op(Plus)), []);
    ws := [Written(lead, Op(Plus))] + [];
  }

  /** ignore_whitespace_test is an instance of the round trip. */
  lemma SpacedRoundTrip()
    ensures ParseInput(SPACED) == Ok([Plus, Minus, Plus, ShiftRight, ShiftLeft, Minus, Plus])
  {
    var ws := SpacedWritten();
    assert Text(ws) + [] == Text(ws);
    RoundTrip(ws, []);
  }

  /** The text of ignore_comment_eol_test: "+ //+", a line feed, four spaces, "+". */
  const COMMENTED: seq<byte> := [PLUS, SPACE, SLASH, SLASH, PLUS, LF, SPACE, SPACE, SPACE, SPACE, PLUS]

  lemma CommentedStatements(s: seq<byte>)
    requires s == COMMENTED
    ensures Statement(s, 0) == Done(Plus, 2)
    ensures Statement(s, 2) == Done(Comment, 10)
    ensures Statement(s, 10) == Done(Plus, 11)
  {
    assert SkipSpace(s, 1) == 2;
    assert LineTail(s, 5) == Done((), 6) && LineTail(s, 4) == Done((), 6);
    assert CommentParser(s, 2) == Done(Comment, 6);
    assert SkipSpace(s, 2) == 2 && LoopParser(s, 2) == Error;
    assert Syntax(s, 2) == Done(Comment, 6);
    assert SkipSpace(s, 10) == 10 && SkipSpace(s, 9) == 10 && SkipSpace(s, 8) == 10;
    assert SkipSpace(s, 7) == 10 && SkipSpace(s, 6) == 10;
  }

  /** ignore_comment_eol_test: the comment ends at its line feed and the
      statement on the next line is parsed. */
  lemma IgnoreCommentEolTest()
    ensures Program(COMMENTED, 0) == Done([Plus, Comment, Plus], 11)
  {
    var s := COMMENTED;
    CommentedStatements(s);
    assert Program(s, 11) == Done([], 11) && [Plus][1..] == [];
    ProgramThen(s, 10, 11, [Plus], 11);
    ProgramThen(s, 2, 10, [Comment, Plus], 11);
    ProgramThen(s, 0, 2, [Plus, Comment, Plus], 11);
  }

  /** COMMENTED as a written program: a comment whose text is "+". */
  lemma CommentedWritten() returns (ws: seq<Written>)
    ensures WellWritten(ws) && Text(ws) == COMMENTED
    ensures Tree(ws) == [Plus, Comment, Plus]
  {
    var lead := [SPACE, SPACE, SPACE, SPACE];
    assert AllSpace(lead) by {
      forall k | 0 <= k < |lead| ensures IsSpace(lead[k]) {
        assert lead[k] == SPACE;
      }
    }
    ws := [];
    WrittenCons(Written(lead, Op(Plus)), ws);
    ws := [Written(lead, Op(Plus))] + ws;
    WrittenCons(Written([SPACE], Remark([PLUS])), ws);
    ws := [Written([SPACE], Remark([PLUS]))] + ws;
    WrittenCons(Written([], Op(Plus)), ws);
    ws := [Written([], Op(Plus))] + ws;
  }

  /** ignore_comment_eol_test is an instance of the round trip. */
  lemma CommentedRoundTrip()
    ensures ParseInput(COMMENTED) == Ok([Plus, Comment, Plus])
  {
    var ws := CommentedWritten();
    assert Text(ws) + [] == Text(ws);
    RoundTrip(ws, []);
  }

  /** The text of the disabled ignore_comment_eof_test: "+ //". */
  const COMMENT_AT_END: seq<byte> := [PLUS, SPACE, SLASH, SLASH]

  /** The comment-at-end-of-file case: with no line ending after "//" the
      comment parser fails, parsing stops before it, and the comment is
      dropped with the rest of the text. */
  lemma IgnoreCommentEofTest()
    ensures Program(COMMENT_AT_END, 0) == Done([Plus], 2)
    ensures ParseInput(COMMENT_AT_END) == Ok([Plus])
  {
    var s := COMMENT_AT_END;
    assert SkipSpace(s, 1) == 2 && Statement(s, 0) == Done(Plus, 2);
    assert LineTail(s, 4) == Error && CommentParser(s, 2) == Error;
    assert Syntax(s, 2) == Error && Statement(s, 2) == Error;
    assert Program(s, 2) == Done([], 2) && [Plus][1..] == [];
    ProgramThen(s, 0, 2, [Plus], 2);
    assert ParseInput(s) == Ok([Plus]);
  }
}
