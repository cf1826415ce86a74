/**
 * Concrete sources and the parameters read from them, including the declarations of the
 * library's own test fixture.
 */
module ParserExamples {
  import opened Wrappers
  import opened Chars
  import opened ParameterParser
  import opened ParameterProperties
  import opened ParameterLists
  import opened CommentedLists

  // ---------------------------------------------------------------------------------------
  // String defaults

  const TwoQuotedDefaults := [Param("a", Quoted('\'', "x")), Param("b", Quoted('\'', "y"))]

  lemma TwoQuotedDefaultsText()
    ensures Declaration(" f", TwoQuotedDefaults, " {}") == "function f(a = 'x', b = 'y') {}"
  {
  }

  /**
   * Whatever follows the list, the library reads `function f(a = 'x', b = 'y')` as the single
   * parameter `ay'`; the quote-aware pattern reads `a` and `b`.
   */
  lemma QuotedDefaultsMerge(body: string)
    ensures GetFunctionParametersAsWritten(Declaration(" f", TwoQuotedDefaults, body)) == Some(["ay'"])
    ensures GetFunctionParameters(Declaration(" f", TwoQuotedDefaults, body)) == Some(["a", "b"])
  {
    assert !StopsRun('x', AsWritten) && Inert('y');
    AsWrittenMergesStringDefaults(" f", "a", '\'', "x", "b", "y", body);
    assert "a" + "y" + ['\''] == "ay'";
  }

  const CommaDefault := [Param("a", Quoted('\'', "x,y")), Param("b", NoDefault)]

  lemma CommaDefaultText()
    ensures Declaration(" g", CommaDefault, " {}") == "function g(a = 'x,y', b) {}"
  {
  }

  /** A string default holding a comma is deleted whole under either pattern. */
  lemma QuotedDefaultWithComma()
    ensures GetFunctionParametersAsWritten("function g(a = 'x,y', b) {}") == Some(["a", "b"])
  {
    var ps := CommaDefault;
    assert WellFormed(ps[0]) && WellFormed(ps[1]);
    assert ',' in ps[0].default.literal;
    CommaDefaultText();
    DeclarationParameters(" g", ps, " {}", AsWritten);
    assert Names(ps) == ["a", "b"];
  }

  // ---------------------------------------------------------------------------------------
  // The test fixture's declarations

  /** `function TestObject(param)` followed by any body. */
  function TestObjectSource(body: string): string
  {
    Declaration(" TestObject", [Param("param", NoDefault)], body)
  }

  lemma TestObjectHeader(body: string)
    ensures TestObjectSource(body) == "function TestObject(param)" + body
  {
  }

  /**
   * The constructor's one parameter is found whatever its body holds (the fixture's body holds a
   * second declaration, `function ()`, which the capture never reaches).
   */
  lemma TestObjectParameters(body: string)
    ensures GetFunctionParameters(TestObjectSource(body)) == Some(["param"])
    ensures GetFunctionParametersAsWritten(TestObjectSource(body)) == Some(["param"])
  {
    var ps := [Param("param", NoDefault)];
    assert WellFormed(ps[0]);
    DeclarationParameters(" TestObject", ps, body, QuoteAware);
    DeclarationParameters(" TestObject", ps, body, AsWritten);
    assert Names(ps) == ["param"];
  }

  // The parameter list of the fixture's `sayHello` method spans three lines:
  // `/* A comment */ param1, /* Another comment */ param2 /* A post comment */,`
  // `// a line comment` and `param3,` `param4`, each continuation line indented by two tabs.

  const Group1 := [BlockComment(" A comment "), Gap(" "), Word("param1"), Comma]
  const Group2 := [Gap(" "), BlockComment(" Another comment "), Gap(" "), Word("param2")]
  const Group3 := [Gap(" "), BlockComment(" A post comment "), Comma]
  const Group4 := [Gap("\n\t\t"), LineComment(" a line comment"), Gap("\n\t\t"), Word("param3")]
  const Group5 := [Comma, Gap("\n\t\t"), Word("param4")]

  const SayHelloList := Group1 + Group2 + Group3 + Group4 + Group5

  /** `function (` + the list + `)` followed by any body. */
  function SayHelloSource(body: string): string
  {
    "function" + " " + "(" + RenderPieces(SayHelloList) + ")" + body
  }

  lemma LineCommentOk()
    ensures PieceOk(LineComment(" a line comment"))
  {
    var t := " a line comment";
    assert ')' !in t;
    forall i | 0 <= i < |t| ensures !IsLineTerminator(t[i]) {
      assert t[i] in " acdeilmnot";
    }
  }

  /** A block comment whose body holds neither `)` nor a star. */
  lemma StarlessComment(b: string)
    requires ')' !in b && '*' !in b
    ensures PieceOk(BlockComment(b))
  {
    forall i | 0 <= i < |b| - 1 ensures !(b[i] == '*' && b[i + 1] == '/') {
      assert b[i] in b;
    }
  }

  lemma FirstCommentOk()
    ensures PieceOk(BlockComment(" A comment "))
  {
    StarlessComment(" A comment ");
  }

  lemma AnotherCommentOk()
    ensures PieceOk(BlockComment(" Another comment "))
  {
    StarlessComment(" Another comment ");
  }

  lemma PostCommentOk()
    ensures PieceOk(BlockComment(" A post comment "))
  {
    StarlessComment(" A post comment ");
  }

  lemma RenderThree(p1: Piece, p2: Piece, p3: Piece)
    ensures RenderPieces([p1, p2, p3]) == RenderPiece(p1) + (RenderPiece(p2) + RenderPiece(p3))
  {
    assert RenderPieces([p3]) == RenderPiece(p3) by {
      assert [p3][1..] == [];
    }
    assert RenderPieces([p2, p3]) == RenderPiece(p2) + RenderPiece(p3) by {
      assert [p2, p3][1..] == [p3];
    }
    assert [p1, p2, p3][1..] == [p2, p3];
  }

  lemma RenderFour(p1: Piece, p2: Piece, p3: Piece, p4: Piece)
    ensures RenderPieces([p1, p2, p3, p4]) == RenderPiece(p1) + RenderPieces([p2, p3, p4])
  {
    assert [p1, p2, p3, p4][1..] == [p2, p3, p4];
  }

  lemma WellFormedThree(p1: Piece, p2: Piece, p3: Piece)
    requires PieceOk(p1) && PieceOk(p2) && PieceOk(p3)
    requires Adjacent(p1, p2) && Adjacent(p2, p3)
    ensures WellFormedPieces([p1, p2, p3])
  {
    WellFormedCons(p3, []);
    assert [p3] + [] == [p3];
    WellFormedCons(p2, [p3]);
    assert [p2] + [p3] == [p2, p3];
    WellFormedCons(p1, [p2, p3]);
    assert [p1] + [p2, p3] == [p1, p2, p3];
  }

  lemma WellFormedFour(p1: Piece, p2: Piece, p3: Piece, p4: Piece)
    requires PieceOk(p1) && PieceOk(p2) && PieceOk(p3) && PieceOk(p4)
    requires Adjacent(p1, p2) && Adjacent(p2, p3) && Adjacent(p3, p4)
    ensures WellFormedPieces([p1, p2, p3, p4])
  {
    WellFormedThree(p2, p3, p4);
    WellFormedCons(p1, [p2, p3, p4]);
    assert [p1] + [p2, p3, p4] == [p1, p2, p3, p4];
  }

  lemma Group1Text()
    ensures RenderPieces(Group1) == "/*" + " A comment " + "*/" + (" " + ("param1" + ","))
    ensures Compact(Group1) == [Word("param1"), Comma]
  {
    RenderFour(BlockComment(" A comment "), Gap(" "), Word("param1"), Comma);
    RenderThree(Gap(" "), Word("param1"), Comma);
  }

  lemma Group1WellFormed()
    ensures WellFormedPieces(Group1)
  {
    FirstCommentOk();
    assert PieceOk(Word("param1"));
    WellFormedFour(BlockComment(" A comment "), Gap(" "), Word("param1"), Comma);
  }

  lemma Group2Text()
    ensures RenderPieces(Group2) == " " + ("/*" + " Another comment " + "*/" + (" " + "param2"))
    ensures Compact(Group2) == [Word("param2")]
  {
    RenderFour(Gap(" "), BlockComment(" Another comment "), Gap(" "), Word("param2"));
    RenderThree(BlockComment(" Another comment "), Gap(" "), Word("param2"));
  }

  lemma Group2WellFormed()
    ensures WellFormedPieces(Group2)
  {
    AnotherCommentOk();
    assert PieceOk(Word("param2")) && PieceOk(Gap(" "));
    WellFormedFour(Gap(" "), BlockComment(" Another comment "), Gap(" "), Word("param2"));
  }

  lemma Group3Text()
    ensures RenderPieces(Group3) == " " + ("/*" + " A post comment " + "*/" + ",")
    ensures Compact(Group3) == [Comma]
  {
    RenderThree(Gap(" "), BlockComment(" A post comment "), Comma);
  }

  lemma Group3WellFormed()
    ensures WellFormedPieces(Group3)
  {
    PostCommentOk();
    WellFormedThree(Gap(" "), BlockComment(" A post comment "), Comma);
  }

  lemma Group4Text()
    ensures RenderPieces(Group4) == "\n\t\t" + ("//" + " a line comment" + ("\n\t\t" + "param3"))
    ensures Compact(Group4) == [Word("param3")]
  {
    RenderFour(Gap("\n\t\t"), LineComment(" a line comment"), Gap("\n\t\t"), Word("param3"));
    RenderThree(LineComment(" a line comment"), Gap("\n\t\t"), Word("param3"));
  }

  lemma Group4WellFormed()
    ensures WellFormedPieces(Group4)
  {
    LineCommentOk();
    assert PieceOk(Gap("\n\t\t")) && PieceOk(Word("param3"));
    WellFormedFour(Gap("\n\t\t"), LineComment(" a line comment"), Gap("\n\t\t"), Word("param3"));
  }

  lemma Group5Text()
    ensures RenderPieces(Group5) == "," + ("\n\t\t" + "param4")
    ensures Compact(Group5) == [Comma, Word("param4")]
  {
    RenderThree(Comma, Gap("\n\t\t"), Word("param4"));
  }

  lemma Group5WellFormed()
    ensures WellFormedPieces(Group5)
  {
    assert PieceOk(Gap("\n\t\t")) && PieceOk(Word("param4"));
    WellFormedThree(Comma, Gap("\n\t\t"), Word("param4"));
  }

  lemma RenderFive(a: seq<Piece>, b: seq<Piece>, c: seq<Piece>, d: seq<Piece>, e: seq<Piece>)
    ensures RenderPieces(a + b + c + d + e)
      == RenderPieces(a) + RenderPieces(b) + RenderPieces(c) + RenderPieces(d) + RenderPieces(e)
  {
    RenderPiecesAppend(a, b);
    RenderPiecesAppend(a + b, c);
    RenderPiecesAppend(a + b + c, d);
    RenderPiecesAppend(a + b + c + d, e);
  }

  lemma CompactFive(a: seq<Piece>, b: seq<Piece>, c: seq<Piece>, d: seq<Piece>, e: seq<Piece>)
    ensures Compact(a + b + c + d + e) == Compact(a) + Compact(b) + Compact(c) + Compact(d) + Compact(e)
  {
    CompactAppend(a, b);
    CompactAppend(a + b, c);
    CompactAppend(a + b + c, d);
    CompactAppend(a + b + c + d, e);
  }

  lemma WellFormedFive(a: seq<Piece>, b: seq<Piece>, c: seq<Piece>, d: seq<Piece>, e: seq<Piece>)
    requires WellFormedPieces(a) && WellFormedPieces(b) && WellFormedPieces(c)
    requires WellFormedPieces(d) && WellFormedPieces(e)
    requires a != [] && b != [] && c != [] && d != [] && e != []
    requires Adjacent(a[|a| - 1], b[0]) && Adjacent(b[|b| - 1], c[0])
    requires Adjacent(c[|c| - 1], d[0]) && Adjacent(d[|d| - 1], e[0])
    ensures WellFormedPieces(a + b + c + d + e)
  {
    WellFormedAppend(a, b);
    WellFormedAppend(a + b, c);
    WellFormedAppend(a + b + c, d);
    WellFormedAppend(a + b + c + d, e);
  }

  /** The list's text, group by group. */
  lemma SayHelloListText()
    ensures RenderPieces(SayHelloList) ==
      ("/*" + " A comment " + "*/" + (" " + ("param1" + ",")))
      + (" " + ("/*" + " Another comment " + "*/" + (" " + "param2")))
      + (" " + ("/*" + " A post comment " + "*/" + ","))
      + ("\n\t\t" + ("//" + " a line comment" + ("\n\t\t" + "param3")))
      + ("," + ("\n\t\t" + "param4"))
  {
    Group1Text();
    Group2Text();
    Group3Text();
    Group4Text();
    Group5Text();
    RenderFive(Group1, Group2, Group3, Group4, Group5);
  }

  lemma SayHelloWellFormed()
    ensures WellFormedPieces(SayHelloList)
  {
    Group1WellFormed();
    Group2WellFormed();
    Group3WellFormed();
    Group4WellFormed();
    Group5WellFormed();
    WellFormedFive(Group1, Group2, Group3, Group4, Group5);
  }

  lemma SayHelloCompact()
    ensures Compact(SayHelloList) ==
      [Word("param1"), Comma, Word("param2"), Comma, Word("param3"), Comma, Word("param4")]
  {
    Group1Text();
    Group2Text();
    Group3Text();
    Group4Text();
    Group5Text();
    CompactGroups(Group1, Group2, Group3, Group4, Group5, Word("param1"), Word("param2"), Word("param3"), Word("param4"));
  }

  lemma CompactGroups(a: seq<Piece>, b: seq<Piece>, c: seq<Piece>, d: seq<Piece>, e: seq<Piece>,
                      w1: Piece, w2: Piece, w3: Piece, w4: Piece)
    requires Compact(a) == [w1, Comma] && Compact(b) == [w2] && Compact(c) == [Comma]
    requires Compact(d) == [w3] && Compact(e) == [Comma, w4]
    ensures Compact(a + b + c + d + e) == [w1, Comma, w2, Comma, w3, Comma, w4]
  {
    CompactFive(a, b, c, d, e);
    assert [w1, Comma] + [w2] + [Comma] + [w3] + [Comma, w4] == [w1, Comma, w2, Comma, w3, Comma, w4];
  }

  lemma SayHelloSplit(rule: DefaultRule, body: string)
    ensures ParametersWith(SayHelloSource(body), rule) == Some(Split(RenderPieces(Compact(SayHelloList))))
  {
    var ps := SayHelloList;
    SayHelloWellFormed();
    assert ps[0] == BlockComment(" A comment ");
    assert ps[|ps| - 1] == Word("param4");
    CommentedDeclaration(" ", ps, body, rule);
  }

  /** Four names separated by commas split back into the four names. */
  lemma FourWords(w1: string, w2: string, w3: string, w4: string)
    requires IsName(w1) && IsName(w2) && IsName(w3) && IsName(w4)
    ensures Split(RenderPieces([Word(w1), Comma, Word(w2), Comma, Word(w3), Comma, Word(w4)])) == [w1, w2, w3, w4]
  {
    var c := [Word(w1), Comma, Word(w2), Comma, Word(w3), Comma, Word(w4)];
    assert RenderPieces(c[7..]) == "";
    assert RenderPieces(c[6..]) == w4 + "";
    assert RenderPieces(c[5..]) == "," + w4;
    assert RenderPieces(c[4..]) == w3 + "," + w4;
    assert RenderPieces(c[3..]) == "," + (w3 + "," + w4);
    assert RenderPieces(c[2..]) == w2 + "," + (w3 + "," + w4);
    assert RenderPieces(c[1..]) == "," + (w2 + "," + (w3 + "," + w4));
    assert RenderPieces(c) == w1 + "," + (w2 + "," + (w3 + "," + w4));
    IdentCharsInert(w1);
    IdentCharsInert(w2);
    IdentCharsInert(w3);
    IdentCharsInert(w4);
    var ws := [w1, w2, w3, w4];
    assert Join(ws[3..]) == w4;
    assert Join(ws[2..]) == w3 + "," + w4;
    assert Join(ws[1..]) == w2 + "," + (w3 + "," + w4);
    assert Join(ws) == w1 + "," + (w2 + "," + (w3 + "," + w4));
    SplitJoin(ws);
  }

  lemma SayHelloNames()
    ensures Split(RenderPieces(Compact(SayHelloList))) == ["param1", "param2", "param3", "param4"]
  {
    SayHelloCompact();
    FourWords("param1", "param2", "param3", "param4");
  }

  /** The comments and line breaks go; the four names remain, in order, under either pattern. */
  lemma SayHelloParameters(body: string)
    ensures GetFunctionParameters(SayHelloSource(body)) == Some(["param1", "param2", "param3", "param4"])
    ensures GetFunctionParametersAsWritten(SayHelloSource(body)) == Some(["param1", "param2", "param3", "param4"])
  {
    SayHelloSplit(QuoteAware, body);
    SayHelloSplit(AsWritten, body);
    SayHelloNames();
  }

  // ---------------------------------------------------------------------------------------
  // Edge cases

  /** The emptiness test looks at the raw capture, so a list holding only a comment gives `[""]`. */
  lemma CommentOnlyList()
    ensures GetFunctionParameters("function f(/*c*/) {}") == Some([""])
    ensures GetFunctionParametersAsWritten("function f(/*c*/) {}") == Some([""])
  {
    var ps := [BlockComment("c")];
    assert RenderPieces(ps) == "/*c*/";
    assert "function f(/*c*/) {}" == "function" + " f" + "(" + RenderPieces(ps) + ")" + " {}";
    assert WellFormedPieces(ps);
    CommentedDeclaration(" f", ps, " {}", QuoteAware);
    CommentedDeclaration(" f", ps, " {}", AsWritten);
    assert Compact(ps) == [];
  }

  lemma EmptyList()
    ensures GetFunctionParameters("function () {}") == Some([])
    ensures GetFunctionParametersAsWritten("function () {}") == Some([])
  {
    assert "function () {}" == "function" + " " + "(" + RenderList([]) + ")" + " {}";
    DeclarationParameters(" ", [], " {}", QuoteAware);
    DeclarationParameters(" ", [], " {}", AsWritten);
  }

  /** An arrow list without spaces is read. */
  lemma ArrowListExample(body: string)
    requires OneLine(body)
    ensures GetFunctionParameters("(a,b) => " + body) == Some(["a", "b"])
    ensures GetFunctionParametersAsWritten("(a,b) => " + body) == Some(["a", "b"])
  {
    assert Join(["a", "b"]) == "a,b";
    assert IsArrowName("a") && IsArrowName("b");
    ArrowParameters(["a", "b"], body, QuoteAware);
    ArrowParameters(["a", "b"], body, AsWritten);
    assert "(" + Join(["a", "b"]) + ") => " + body == "(a,b) => " + body;
  }

  lemma BareArrow(body: string)
    requires OneLine(body)
    ensures GetFunctionParameters("x => " + body) == Some(["x"])
    ensures GetFunctionParametersAsWritten("x => " + body) == Some(["x"])
  {
    assert IsArrowName("x");
    BareArrowParameters("x", body, QuoteAware);
    BareArrowParameters("x", body, AsWritten);
    assert "x" + " => " == "x => ";
  }
}
