/**
 * Parameter lists interleaved with comments and line breaks, as in a multi-line declaration:
 * the deletion pattern removes exactly the comments and keeps everything else in order.
 */
module CommentedLists {
  import opened Wrappers
  import opened Chars
  import opened ParameterParser
  import opened ParameterProperties
  import opened ParameterLists

  /** A piece of the text between a declaration's parentheses. */
  datatype Piece =
    | Word(text: string)          // an identifier
    | Comma
    | Gap(spaces: string)         // a run of whitespace, line breaks included
    | LineComment(text: string)   // `//` and the rest of its line
    | BlockComment(body: string)  // a comment between `/*` and the first star-slash after it

  function RenderPiece(p: Piece): string
  {
    match p
    case Word(t) => t
    case Comma => ","
    case Gap(s) => s
    case LineComment(t) => "//" + t
    case BlockComment(b) => "/*" + b + "*/"
  }

  function RenderPieces(ps: seq<Piece>): string
  {
    if ps == [] then "" else RenderPiece(ps[0]) + RenderPieces(ps[1..])
  }

  /**
   * Each piece on its own: a non-empty identifier, non-empty whitespace, and comments without
   * `)` (the declaration pattern's capture ends at the first `)`).
   */
  predicate PieceOk(p: Piece)
  {
    match p
    case Word(t) => IsName(t)
    case Comma => true
    case Gap(s) => s != [] && AllSpace(s)
    case LineComment(t) => ')' !in t && forall i :: 0 <= i < |t| ==> !IsLineTerminator(t[i])
    case BlockComment(b) => ')' !in b && NoCloser(b)
  }

  /** Two gaps never touch, and a line comment is followed by a line break or ends the text. */
  predicate Adjacent(p: Piece, q: Piece)
  {
    (p.Gap? ==> !q.Gap?) &&
    (p.LineComment? ==> q.Gap? && q.spaces != [] && IsLineTerminator(q.spaces[0]))
  }

  predicate WellFormedPieces(ps: seq<Piece>)
  {
    (forall i :: 0 <= i < |ps| ==> PieceOk(ps[i])) &&
    (forall i :: 0 <= i < |ps| - 1 ==> Adjacent(ps[i], ps[i + 1]))
  }

  predicate IsComment(p: Piece)
  {
    p.LineComment? || p.BlockComment?
  }

  /** The pieces without the comments. */
  function Uncommented(ps: seq<Piece>): seq<Piece>
  {
    if ps == [] then []
    else if IsComment(ps[0]) then Uncommented(ps[1..])
    else [ps[0]] + Uncommented(ps[1..])
  }

  /** The words and commas alone. */
  function Compact(ps: seq<Piece>): seq<Piece>
  {
    if ps == [] then []
    else if ps[0].Word? || ps[0].Comma? then [ps[0]] + Compact(ps[1..])
    else Compact(ps[1..])
  }

  // ---------------------------------------------------------------------------------------

  lemma PiecesTail(ps: seq<Piece>)
    requires ps != [] && WellFormedPieces(ps)
    ensures WellFormedPieces(ps[1..]) && PieceOk(ps[0])
    ensures |ps| >= 2 ==> Adjacent(ps[0], ps[1])
  {
    assert forall i :: 0 <= i < |ps[1..]| ==> ps[1..][i] == ps[i + 1];
  }

  /** Text that starts with a piece other than a gap starts with neither whitespace nor `=`. */
  lemma RenderPiecesHead(ps: seq<Piece>)
    requires ps != [] && PieceOk(ps[0]) && !ps[0].Gap?
    ensures RenderPieces(ps) != [] && !IsSpace(RenderPieces(ps)[0]) && RenderPieces(ps)[0] != '='
  {
    var s := RenderPiece(ps[0]);
    assert RenderPieces(ps) == s + RenderPieces(ps[1..]);
    match ps[0]
    case Word(t) =>
      assert IsIdentChar(t[0]);
    case Comma =>
    case LineComment(t) =>
      assert s[0] == '/';
    case BlockComment(b) =>
      assert s[0] == '/';
  }

  /** One piece: comments are deleted, everything else kept. */
  lemma StripPiece(ps: seq<Piece>, rule: DefaultRule)
    requires ps != [] && WellFormedPieces(ps)
    ensures Strip(RenderPieces(ps), rule) ==
      (if IsComment(ps[0]) then [] else RenderPiece(ps[0])) + Strip(RenderPieces(ps[1..]), rule)
  {
    PiecesTail(ps);
    var rest := RenderPieces(ps[1..]);
    assert RenderPieces(ps) == RenderPiece(ps[0]) + rest;
    match ps[0]
    case Word(t) =>
      IdentCharsInert(t);
      StripKeepsInert(t, rest, rule);
    case Comma =>
      assert AllInert(",");
      StripKeepsInert(",", rest, rule);
    case Gap(s) =>
      if ps[1..] != [] {
        assert ps[1..][0] == ps[1];
        RenderPiecesHead(ps[1..]);
      }
      StripKeepsSpaces(s, rest, rule);
    case LineComment(t) =>
      if ps[1..] != [] {
        assert ps[1..][0] == ps[1];
        var g := ps[1].spaces;
        assert rest == g + RenderPieces(ps[2..]);
        assert rest[0] == g[0];
      }
      assert RenderPieces(ps) == "//" + t + rest;
      StripLineComment(t, rest, rule);
    case BlockComment(b) =>
      assert RenderPieces(ps) == "/*" + b + "*/" + rest;
      StripBlockComment(b, rest, rule);
  }

  /** The deletion pattern removes exactly the comments and keeps the rest in order. */
  lemma {:induction false} StripPieces(ps: seq<Piece>, rule: DefaultRule)
    requires WellFormedPieces(ps)
    ensures Strip(RenderPieces(ps), rule) == RenderPieces(Uncommented(ps))
  {
    if ps != [] {
      StripPiece(ps, rule);
      PiecesTail(ps);
      StripPieces(ps[1..], rule);
      if !IsComment(ps[0]) {
        assert RenderPieces(Uncommented(ps)) ==
          RenderPiece(ps[0]) + RenderPieces(Uncommented(ps[1..])) by {
          assert Uncommented(ps) == [ps[0]] + Uncommented(ps[1..]);
          assert ([ps[0]] + Uncommented(ps[1..]))[1..] == Uncommented(ps[1..]);
        }
      }
    }
  }

  /** Whitespace removal then leaves the words and commas, in order. */
  lemma {:induction false} SpacesOfPieces(ps: seq<Piece>)
    requires forall i :: 0 <= i < |ps| ==> PieceOk(ps[i])
    ensures RemoveSpaces(RenderPieces(Uncommented(ps))) == RenderPieces(Compact(ps))
  {
    if ps != [] {
      assert forall i :: 0 <= i < |ps[1..]| ==> ps[1..][i] == ps[i + 1];
      SpacesOfPieces(ps[1..]);
      var p := ps[0];
      assert PieceOk(p);
      if !IsComment(p) {
        var u := Uncommented(ps);
        assert u == [p] + Uncommented(ps[1..]);
        assert u[1..] == Uncommented(ps[1..]);
        assert RenderPieces(u) == RenderPiece(p) + RenderPieces(Uncommented(ps[1..]));
        RemoveSpacesAppend(RenderPiece(p), RenderPieces(Uncommented(ps[1..])));
        match p
        case Word(t) =>
          IdentCharsInert(t);
          RemoveSpacesKeeps(t);
          assert Compact(ps)[1..] == Compact(ps[1..]);
        case Comma =>
          assert NoSpace(",");
          RemoveSpacesKeeps(",");
          assert Compact(ps)[1..] == Compact(ps[1..]);
        case Gap(s) =>
          RemoveSpacesDeletes(s);
      }
    }
  }

  lemma {:induction false} PiecesShape(ps: seq<Piece>)
    requires forall i :: 0 <= i < |ps| ==> PieceOk(ps[i])
    ensures ')' !in RenderPieces(ps)
  {
    if ps != [] {
      assert forall i :: 0 <= i < |ps[1..]| ==> ps[1..][i] == ps[i + 1];
      PiecesShape(ps[1..]);
      assert PieceOk(ps[0]);
      match ps[0]
      case Word(t) => IdentCharsInert(t);
      case Comma =>
      case Gap(s) =>
        assert forall i :: 0 <= i < |s| ==> IsSpace(s[i]);
      case LineComment(t) =>
      case BlockComment(b) =>
    }
  }

  lemma {:induction false} PiecesLast(ps: seq<Piece>)
    requires ps != [] && forall i :: 0 <= i < |ps| ==> PieceOk(ps[i])
    requires !ps[|ps| - 1].Gap? && !ps[|ps| - 1].LineComment?
    ensures RenderPieces(ps) != [] && !IsSpace(RenderPieces(ps)[|RenderPieces(ps)| - 1])
  {
    var s := RenderPiece(ps[0]);
    assert RenderPieces(ps) == s + RenderPieces(ps[1..]);
    if |ps| == 1 {
      assert RenderPieces(ps) == s;
      assert PieceOk(ps[0]);
      match ps[0]
      case Word(t) => IdentCharsInert(t); assert t[|t| - 1] == s[|s| - 1];
      case Comma =>
      case BlockComment(b) =>
    } else {
      assert forall i :: 0 <= i < |ps[1..]| ==> ps[1..][i] == ps[i + 1];
      assert ps[1..][|ps[1..]| - 1] == ps[|ps| - 1];
      PiecesLast(ps[1..]);
    }
  }

  /**
   * The parameters of a declaration whose list mixes comments, line breaks and names: the words
   * and commas that remain once the comments are gone, split at the commas, in order.
   */
  lemma CommentedDeclaration(head: string, ps: seq<Piece>, tail: string, rule: DefaultRule)
    requires '(' !in head
    requires WellFormedPieces(ps)
    requires ps != [] ==> !ps[0].Gap? && !ps[|ps| - 1].Gap? && !ps[|ps| - 1].LineComment?
    ensures ps == [] ==> ParametersWith("function" + head + "(" + RenderPieces(ps) + ")" + tail, rule) == Some([])
    ensures ps != [] ==>
      ParametersWith("function" + head + "(" + RenderPieces(ps) + ")" + tail, rule) ==
      Some(Split(RenderPieces(Compact(ps))))
  {
    var r := RenderPieces(ps);
    PiecesShape(ps);
    if ps != [] {
      RenderPiecesHead(ps);
      PiecesLast(ps);
    }
    DeclarationCapture(head, r, tail);
    if ps != [] {
      StripPieces(ps, rule);
      SpacesOfPieces(ps);
    }
  }

  // ---------------------------------------------------------------------------------------
  // Lists built from parts

  lemma {:induction false} RenderPiecesAppend(xs: seq<Piece>, ys: seq<Piece>)
    ensures RenderPieces(xs + ys) == RenderPieces(xs) + RenderPieces(ys)
  {
    if xs == [] {
      assert xs + ys == ys;
    } else {
      assert (xs + ys)[1..] == xs[1..] + ys;
      RenderPiecesAppend(xs[1..], ys);
    }
  }

  lemma {:induction false} CompactAppend(xs: seq<Piece>, ys: seq<Piece>)
    ensures Compact(xs + ys) == Compact(xs) + Compact(ys)
  {
    if xs == [] {
      assert xs + ys == ys;
    } else {
      assert (xs + ys)[1..] == xs[1..] + ys;
      CompactAppend(xs[1..], ys);
    }
  }

  lemma WellFormedCons(p: Piece, ps: seq<Piece>)
    requires PieceOk(p) && WellFormedPieces(ps)
    requires ps != [] ==> Adjacent(p, ps[0])
    ensures WellFormedPieces([p] + ps)
  {
    var zs := [p] + ps;
    assert forall i :: 1 <= i < |zs| ==> zs[i] == ps[i - 1];
  }

  lemma WellFormedAppend(xs: seq<Piece>, ys: seq<Piece>)
    requires WellFormedPieces(xs) && WellFormedPieces(ys)
    requires xs != [] && ys != [] ==> Adjacent(xs[|xs| - 1], ys[0])
    ensures WellFormedPieces(xs + ys)
  {
    var zs := xs + ys;
    forall i | 0 <= i < |zs| ensures PieceOk(zs[i]) {
      if i < |xs| { assert zs[i] == xs[i]; } else { assert zs[i] == ys[i - |xs|]; }
    }
    forall i | 0 <= i < |zs| - 1 ensures Adjacent(zs[i], zs[i + 1]) {
      if i < |xs| - 1 {
        assert zs[i] == xs[i] && zs[i + 1] == xs[i + 1];
      } else if i == |xs| - 1 {
        assert zs[i] == xs[i] && zs[i + 1] == ys[0];
      } else {
        assert zs[i] == ys[i - |xs|] && zs[i + 1] == ys[i - |xs| + 1];
      }
    }
  }
}
