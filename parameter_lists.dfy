/**
 * Parameter lists as a programmer writes them, and what `getFunctionParameters` makes of a
 * declaration whose list is written out that way.
 */
module ParameterLists {
  import opened Wrappers
  import opened Chars
  import opened ParameterParser
  import opened ParameterProperties

  /** A parameter's default value: none, a string literal, or an expression without quotes. */
  datatype Default = NoDefault | Quoted(quote: char, literal: string) | Bare(expr: string)

  datatype Param = Param(name: string, default: Default)

  predicate IsIdentChar(c: char)
  {
    IsLetter(c) || ('0' <= c <= '9') || c == '_' || c == '$'
  }

  predicate IsName(s: string)
  {
    s != [] && forall i :: 0 <= i < |s| ==> IsIdentChar(s[i])
  }

  /**
   * A parameter the scanners are meant for: an identifier, and a default that is a string literal
   * without escapes, quotes, line breaks or `)`, or a quote-free expression without `,` or `)`.
   */
  predicate WellFormed(p: Param)
  {
    IsName(p.name) &&
    match p.default
    case NoDefault => true
    case Quoted(q, lit) => IsQuote(q) && PlainLiteral(lit) && ')' !in lit
    case Bare(e) => e != [] && forall i :: 0 <= i < |e| ==> !StopsRun(e[i], QuoteAware) && !IsSpace(e[i])
  }

  predicate AllWellFormed(ps: seq<Param>)
  {
    forall i :: 0 <= i < |ps| ==> WellFormed(ps[i])
  }

  /** Every string default holds a comma: the lists the library's own pattern reads correctly. */
  predicate QuotedHoldCommas(ps: seq<Param>)
  {
    forall i :: 0 <= i < |ps| && ps[i].default.Quoted? ==> ',' in ps[i].default.literal
  }

  /** `name`, `name = 'literal'` or `name = expr`. */
  function Render(p: Param): string
  {
    p.name +
    match p.default
    case NoDefault => ""
    case Quoted(q, lit) => " = " + [q] + lit + [q]
    case Bare(e) => " = " + e
  }

  /** The parameters rendered and separated by `, `. */
  function RenderList(ps: seq<Param>): string
  {
    if ps == [] then ""
    else if |ps| == 1 then Render(ps[0])
    else Render(ps[0]) + ", " + RenderList(ps[1..])
  }

  /** `function` + `head` + `(` + the list + `)` + `tail`. */
  function Declaration(head: string, ps: seq<Param>, tail: string): string
  {
    "function" + head + "(" + RenderList(ps) + ")" + tail
  }

  function Names(ps: seq<Param>): seq<string>
  {
    if ps == [] then [] else [ps[0].name] + Names(ps[1..])
  }

  /** The same parameters without their defaults. */
  function Undefaulted(ps: seq<Param>): seq<Param>
  {
    if ps == [] then [] else [Param(ps[0].name, NoDefault)] + Undefaulted(ps[1..])
  }

  // ---------------------------------------------------------------------------------------

  lemma IdentCharsInert(s: string)
    requires IsName(s)
    ensures AllInert(s) && NoSpace(s) && ',' !in s && ')' !in s
  {
    assert forall i :: 0 <= i < |s| ==> Inert(s[i]) && !IsSpace(s[i]);
  }

  lemma StripQuotedParam(name: string, q: char, lit: string, rest: string, rule: DefaultRule)
    requires AllInert(name) && IsQuote(q) && PlainLiteral(lit)
    requires rule == QuoteAware || ',' in lit
    ensures Strip(name + (" = " + [q] + lit + [q]) + rest, rule) == name + Strip(rest, rule)
  {
    var d := " " + "=" + " " + [q] + lit + [q] + rest;
    assert name + (" = " + [q] + lit + [q]) + rest == name + d;
    StripKeepsInert(name, d, rule);
    assert AllSpace(" ");
    if rule == AsWritten {
      var k :| 0 <= k < |lit| && lit[k] == ',';
    }
    StripQuotedDefault(" ", " ", q, lit, rest, rule);
  }

  lemma StripBareParam(name: string, e: string, rest: string, rule: DefaultRule)
    requires AllInert(name)
    requires forall i :: 0 <= i < |e| ==> !StopsRun(e[i], QuoteAware)
    requires rest == [] || rest[0] == ','
    ensures Strip(name + (" = " + e) + rest, rule) == name + Strip(rest, rule)
  {
    var x := " " + e;
    var d := " " + "=" + x + rest;
    assert name + (" = " + e) + rest == name + d;
    StripKeepsInert(name, d, rule);
    assert AllSpace(" ");
    assert forall i :: 0 <= i < |x| ==> !StopsRun(x[i], QuoteAware) by {
      assert forall i :: 1 <= i < |x| ==> x[i] == e[i - 1];
    }
    StripBareDefault(" ", x, rest, rule);
  }

  /** One parameter: its default is deleted, its name kept. */
  lemma StripParam(p: Param, rest: string, rule: DefaultRule)
    requires WellFormed(p)
    requires rest == [] || rest[0] == ','
    requires rule == QuoteAware || (p.default.Quoted? ==> ',' in p.default.literal)
    ensures Strip(Render(p) + rest, rule) == p.name + Strip(rest, rule)
  {
    IdentCharsInert(p.name);
    match p.default
    case NoDefault =>
      assert Render(p) + rest == p.name + rest;
      StripKeepsInert(p.name, rest, rule);
    case Quoted(q, lit) =>
      StripQuotedParam(p.name, q, lit, rest, rule);
    case Bare(e) =>
      StripBareParam(p.name, e, rest, rule);
  }

  /** The separator before a name is kept. */
  lemma StripSeparator(r: string, rule: DefaultRule)
    requires r != [] && IsIdentChar(r[0])
    ensures Strip(", " + r, rule) == ", " + Strip(r, rule)
  {
    calc {
      Strip(", " + r, rule);
    == { assert ", " + r == "," + (" " + r); }
      Strip("," + (" " + r), rule);
    == { assert AllInert(","); StripKeepsInert(",", " " + r, rule); }
      "," + Strip(" " + r, rule);
    == { assert AllSpace(" ") && !IsSpace(r[0]) && r[0] != '='; StripKeepsSpaces(" ", r, rule); }
      "," + (" " + Strip(r, rule));
    == { assert "," + (" " + Strip(r, rule)) == ", " + Strip(r, rule); }
      ", " + Strip(r, rule);
    }
  }

  lemma WellFormedTail(ps: seq<Param>)
    requires |ps| >= 1 && AllWellFormed(ps)
    ensures AllWellFormed(ps[1..]) && WellFormed(ps[0])
    ensures QuotedHoldCommas(ps) ==> QuotedHoldCommas(ps[1..])
  {
    assert forall i :: 0 <= i < |ps[1..]| ==> ps[1..][i] == ps[i + 1];
  }

  lemma RenderListHead(ps: seq<Param>)
    requires |ps| >= 1 && IsName(ps[0].name)
    ensures RenderList(ps) != [] && IsIdentChar(RenderList(ps)[0])
  {
    var s := Render(ps[0]);
    assert s[0] == ps[0].name[0];
    if |ps| > 1 {
      RenderListStep(ps);
      assert (s + (", " + RenderList(ps[1..])))[0] == s[0];
    }
  }

  lemma RenderListStep(ps: seq<Param>)
    requires |ps| >= 2
    ensures RenderList(ps) == Render(ps[0]) + (", " + RenderList(ps[1..]))
  {
    var h := Render(ps[0]);
    var r := RenderList(ps[1..]);
    calc {
      RenderList(ps);
      h + ", " + r;
    == { ConcatAssoc(h, ", ", r); }
      h + (", " + r);
    }
  }

  lemma ConcatAssoc(a: string, b: string, c: string)
    ensures a + b + c == a + (b + c)
  {
  }

  lemma UndefaultedStep(ps: seq<Param>)
    requires |ps| >= 2
    ensures RenderList(Undefaulted(ps)) == ps[0].name + (", " + RenderList(Undefaulted(ps[1..])))
  {
    var u := Undefaulted(ps);
    var u1 := Undefaulted(ps[1..]);
    assert u == [Param(ps[0].name, NoDefault)] + u1;
    assert u1 != [];
    assert u[1..] == u1;
    assert Render(u[0]) == ps[0].name;
    RenderListStep(u);
  }

  lemma StripRenderedStep(ps: seq<Param>, rule: DefaultRule)
    requires |ps| >= 2 && AllWellFormed(ps)
    requires rule == QuoteAware || QuotedHoldCommas(ps)
    requires Strip(RenderList(ps[1..]), rule) == RenderList(Undefaulted(ps[1..]))
    ensures Strip(RenderList(ps), rule) == RenderList(Undefaulted(ps))
  {
    WellFormedTail(ps);
    var p := ps[0];
    var r := RenderList(ps[1..]);
    RenderListStep(ps);
    UndefaultedStep(ps);
    calc {
      Strip(RenderList(ps), rule);
      Strip(Render(p) + (", " + r), rule);
    == { assert rule == QuoteAware || (p.default.Quoted? ==> ',' in p.default.literal);
         StripParam(p, ", " + r, rule); }
      p.name + Strip(", " + r, rule);
    == { RenderListHead(ps[1..]); StripSeparator(r, rule); }
      p.name + (", " + Strip(r, rule));
      p.name + (", " + RenderList(Undefaulted(ps[1..])));
      RenderList(Undefaulted(ps));
    }
  }

  /** Deleting defaults from a rendered list leaves the names, still separated by `, `. */
  lemma {:induction false} StripRendered(ps: seq<Param>, rule: DefaultRule)
    requires AllWellFormed(ps)
    requires rule == QuoteAware || QuotedHoldCommas(ps)
    ensures Strip(RenderList(ps), rule) == RenderList(Undefaulted(ps))
  {
    if |ps| == 1 {
      var p := ps[0];
      assert WellFormed(p);
      assert rule == QuoteAware || (p.default.Quoted? ==> ',' in p.default.literal);
      StripParam(p, "", rule);
      assert Render(p) + "" == Render(p);
      assert Undefaulted(ps) == [Param(p.name, NoDefault)];
    } else if |ps| >= 2 {
      WellFormedTail(ps);
      StripRendered(ps[1..], rule);
      StripRenderedStep(ps, rule);
    }
  }

  /** One step of the list: the name stays, the separator loses its space. */
  lemma BareListStep(n: string, r: string)
    requires IsName(n)
    ensures RemoveSpaces(n + (", " + r)) == n + "," + RemoveSpaces(r)
  {
    calc {
      RemoveSpaces(n + (", " + r));
    == { assert ", " + r == "," + (" " + r); }
      RemoveSpaces(n + ("," + (" " + r)));
    == { RemoveSpacesAppend(n, "," + (" " + r)); }
      RemoveSpaces(n) + RemoveSpaces("," + (" " + r));
    == { RemoveSpacesAppend(",", " " + r); RemoveSpacesAppend(" ", r); }
      RemoveSpaces(n) + (RemoveSpaces(",") + (RemoveSpaces(" ") + RemoveSpaces(r)));
    == { IdentCharsInert(n); RemoveSpacesKeeps(n);
         assert RemoveSpaces(",") == "," && RemoveSpaces(" ") == []; }
      n + ("," + ([] + RemoveSpaces(r)));
    == { assert [] + RemoveSpaces(r) == RemoveSpaces(r); }
      n + "," + RemoveSpaces(r);
    }
  }

  /** With the defaults gone, whitespace removal leaves the names joined by commas. */
  lemma {:induction false} BareListSpacesRemoved(ps: seq<Param>)
    requires forall i :: 0 <= i < |ps| ==> IsName(ps[i].name)
    ensures RemoveSpaces(RenderList(Undefaulted(ps))) == Join(Names(ps))
  {
    if |ps| == 1 {
      var n := ps[0].name;
      assert Undefaulted(ps) == [Param(n, NoDefault)];
      assert RenderList(Undefaulted(ps)) == Render(Param(n, NoDefault)) == n;
      assert Names(ps) == [n] && Join([n]) == n;
      IdentCharsInert(n);
      RemoveSpacesKeeps(n);
    } else if |ps| > 1 {
      var n := ps[0].name;
      UndefaultedStep(ps);
      assert forall i :: 0 <= i < |ps[1..]| ==> ps[1..][i] == ps[i + 1];
      assert Names(ps) == [n] + Names(ps[1..]);
      assert Names(ps[1..]) != [];
      BareListSpacesRemoved(ps[1..]);
      BareListStep(n, RenderList(Undefaulted(ps[1..])));
    }
  }

  lemma {:induction false} RenderedListShape(ps: seq<Param>)
    requires AllWellFormed(ps)
    ensures ')' !in RenderList(ps)
    ensures ps != [] ==>
      RenderList(ps) != [] && !IsSpace(RenderList(ps)[0]) && !IsSpace(RenderList(ps)[|RenderList(ps)| - 1])
  {
    if ps != [] {
      var p := ps[0];
      assert WellFormed(p);
      IdentCharsInert(p.name);
      var s := Render(p);
      assert ')' !in s && !IsSpace(s[0]) && !IsSpace(s[|s| - 1]) by {
        match p.default
        case NoDefault =>
        case Quoted(q, lit) =>
          assert s == p.name + (" = " + [q] + lit + [q]);
        case Bare(e) =>
          assert s == p.name + (" = " + e);
          assert s[|s| - 1] == e[|e| - 1];
      }
      if |ps| > 1 {
        assert AllWellFormed(ps[1..]) by {
          forall i | 0 <= i < |ps[1..]| ensures WellFormed(ps[1..][i]) {
            assert ps[1..][i] == ps[i + 1];
          }
        }
        RenderedListShape(ps[1..]);
        var r := RenderList(ps[1..]);
        assert RenderList(ps) == s + ", " + r;
      }
    }
  }

  /** The declaration pattern at the start of `t`, with its `(` at `o` and its `)` at `c`. */
  lemma FunctionAtParens(t: string, o: nat, c: nat)
    requires 8 <= o < c < |t| && t[0..8] == "function"
    requires t[o] == '(' && t[c] == ')'
    requires forall k :: 8 <= k < o ==> t[k] != '('
    requires forall k :: o < k < c ==> t[k] != ')'
    requires o + 1 == c || (!IsSpace(t[o + 1]) && !IsSpace(t[c - 1]))
    ensures FunctionAt(t, 0) == Some(t[o + 1..c])
  {
    assert IndexFrom(t, 8, '(') == Some(o);
    assert IndexFrom(t, o + 1, ')') == Some(c);
    assert SpaceRunAt(t, o + 1) == 0;
    assert TrimBounds(t, o + 1, c) == (o + 1, c);
  }

  /**
   * The declaration pattern captures what lies between the first `(` and the first `)` after it,
   * here a text that neither starts nor ends with whitespace.
   */
  lemma DeclarationCapture(head: string, inner: string, tail: string)
    requires '(' !in head && ')' !in inner
    requires inner == [] || (!IsSpace(inner[0]) && !IsSpace(inner[|inner| - 1]))
    ensures RawCapture("function" + head + "(" + inner + ")" + tail) == Some(inner)
  {
    var t := "function" + head + "(" + inner + ")" + tail;
    var o := 8 + |head|;
    var c := o + 1 + |inner|;
    assert t[0..8] == "function";
    assert forall k :: 8 <= k < o ==> t[k] == head[k - 8];
    assert forall k :: o < k < c ==> t[k] == inner[k - o - 1];
    assert t[o] == '(' && t[c] == ')';
    assert t[o + 1..c] == inner;
    FunctionAtParens(t, o, c);
  }

  /** The declaration pattern captures a rendered list exactly. */
  lemma DeclarationCapturesList(head: string, ps: seq<Param>, tail: string)
    requires '(' !in head && AllWellFormed(ps)
    ensures RawCapture(Declaration(head, ps, tail)) == Some(RenderList(ps))
  {
    var r := RenderList(ps);
    RenderedListShape(ps);
    DeclarationCapture(head, r, tail);
  }

  /** The three replacements and the split turn a non-empty rendered list into its names. */
  lemma ListParameters(ps: seq<Param>, rule: DefaultRule)
    requires ps != [] && AllWellFormed(ps)
    requires rule == QuoteAware || QuotedHoldCommas(ps)
    ensures Split(RemoveSpaces(Strip(RenderList(ps), rule))) == Names(ps)
  {
    StripRendered(ps, rule);
    assert forall i :: 0 <= i < |ps| ==> IsName(ps[i].name) by {
      assert forall i :: 0 <= i < |ps| ==> WellFormed(ps[i]);
    }
    BareListSpacesRemoved(ps);
    NamesShape(ps);
    SplitJoin(Names(ps));
  }

  lemma {:induction false} NamesShape(ps: seq<Param>)
    requires forall i :: 0 <= i < |ps| ==> IsName(ps[i].name)
    ensures |Names(ps)| == |ps|
    ensures forall i :: 0 <= i < |ps| ==> ',' !in Names(ps)[i]
  {
    if ps != [] {
      IdentCharsInert(ps[0].name);
      NamesShape(ps[1..]);
      assert Names(ps) == [ps[0].name] + Names(ps[1..]);
      forall i | 1 <= i < |ps| ensures ',' !in Names(ps)[i] {
        assert Names(ps)[i] == Names(ps[1..])[i - 1];
        assert ps[1..][i - 1] == ps[i];
      }
    }
  }

  /**
   * A declaration's parameter names come back in order, defaults deleted. With the library's
   * pattern this holds when every string default holds a comma; the quote-aware pattern needs no
   * such condition.
   */
  lemma DeclarationParameters(head: string, ps: seq<Param>, tail: string, rule: DefaultRule)
    requires '(' !in head
    requires AllWellFormed(ps)
    requires rule == QuoteAware || QuotedHoldCommas(ps)
    ensures ParametersWith(Declaration(head, ps, tail), rule) == Some(Names(ps))
  {
    DeclarationCapturesList(head, ps, tail);
    if ps != [] {
      RenderedListShape(ps);
      ListParameters(ps, rule);
    } else {
      assert RenderList(ps) == [] && Names(ps) == [];
    }
  }

  // ---------------------------------------------------------------------------------------
  // Arrow functions

  /** A name the arrow pattern's class `[a-zA-Z0-9,]` admits: letters and digits. */
  predicate IsArrowName(s: string)
  {
    s != [] && forall i :: 0 <= i < |s| ==> IsArrowChar(s[i]) && s[i] != ','
  }

  lemma {:induction false} NoLineBreakFrom(t: string, i: nat)
    requires i <= |t| && OneLine(t)
    ensures NextLineFrom(t, i) == None
    decreases |t| - i
  {
    if i < |t| {
      NoLineBreakFrom(t, i + 1);
    }
  }

  /** `[a-zA-Z0-9,]*` at `i` runs over the class up to the first other character. */
  lemma {:induction false} ArrowRunSpan(s: string, i: nat, j: nat)
    requires i <= j <= |s|
    requires forall k :: i <= k < j ==> IsArrowChar(s[k])
    requires j == |s| || !IsArrowChar(s[j])
    ensures ArrowRunAt(s, i) == j - i
    decreases j - i
  {
    if i < j {
      ArrowRunSpan(s, i + 1, j);
    }
  }

  lemma {:induction false} JoinArrowChars(names: seq<string>)
    requires forall i :: 0 <= i < |names| ==> IsArrowName(names[i])
    ensures forall i :: 0 <= i < |Join(names)| ==> IsArrowChar(Join(names)[i])
    ensures |names| >= 1 ==> Join(names) != [] && IsArrowChar(Join(names)[0])
  {
    if |names| > 1 {
      JoinArrowChars(names[1..]);
      var j := Join(names[1..]);
      assert Join(names) == names[0] + "," + j;
      assert IsArrowName(names[0]);
      forall i | 0 <= i < |Join(names)| ensures IsArrowChar(Join(names)[i]) {
        if i < |names[0]| {
          assert Join(names)[i] == names[0][i];
        } else if i > |names[0]| {
          assert Join(names)[i] == j[i - |names[0]| - 1];
        }
      }
    } else if |names| == 1 {
      assert IsArrowName(names[0]);
    }
  }

  /** On a single line, a multiline search tries the start of the text only. */
  lemma SingleLineSearch(t: string, p: Pattern)
    requires OneLine(t)
    ensures SearchFrom(t, 0, p) == MatchAt(t, 0, p)
  {
    NoLineBreakFrom(t, 0);
  }

  /** The arrow pattern at the start of `t`: `(`, the class from 1 up to `m`, then `) =>`. */
  lemma ArrowAtParenList(t: string, m: nat)
    requires 1 < m && m + 4 <= |t|
    requires t[0] == '(' && t[m] == ')' && t[m + 1] == ' ' && t[m + 2] == '=' && t[m + 3] == '>'
    requires forall k :: 1 <= k < m ==> IsArrowChar(t[k])
    ensures ArrowAt(t, 0) == Some(t[1..m])
  {
    assert SpaceRunAt(t, 0) == 0 && SkipChar(t, 0, '(') == 1;
    assert SpaceRunAt(t, 1) == 0;
    ArrowRunSpan(t, 1, m);
    assert SpaceRunAt(t, m) == 0 && SkipChar(t, m, ')') == m + 1;
    assert SpaceRunAt(t, m + 1) == 1;
  }

  /** The arrow pattern's capture of `(list) => body`. */
  lemma ArrowAtList(j: string, body: string)
    requires j != [] && forall i :: 0 <= i < |j| ==> IsArrowChar(j[i])
    ensures ArrowAt("(" + j + ") => " + body, 0) == Some(j)
  {
    var src := "(" + j + ") => " + body;
    var m := 1 + |j|;
    assert forall k :: 1 <= k < m ==> src[k] == j[k - 1];
    assert src[0] == '(' && src[m] == ')' && src[m + 1] == ' ' && src[m + 2] == '=' && src[m + 3] == '>';
    assert src[1..m] == j;
    ArrowAtParenList(src, m);
  }

  lemma {:induction false} SourceOneLine(j: string, body: string)
    requires forall i :: 0 <= i < |j| ==> !IsLineTerminator(j[i])
    requires forall i :: 0 <= i < |body| ==> !IsLineTerminator(body[i])
    ensures OneLine("(" + j + ") => " + body)
  {
    var src := "(" + j + ") => " + body;
    forall i | 0 <= i < |src| ensures !IsLineTerminator(src[i]) {
      if 1 <= i < 1 + |j| {
        assert src[i] == j[i - 1];
      } else if i >= |j| + 6 {
        assert src[i] == body[i - |j| - 6];
      } else {
        assert src[i] in "() =>";
      }
    }
  }

  /** The capture of a one-line arrow function with a parenthesised list of letter-and-digit names. */
  lemma ArrowCapture(names: seq<string>, body: string)
    requires |names| >= 1 && forall i :: 0 <= i < |names| ==> IsArrowName(names[i])
    requires forall i :: 0 <= i < |body| ==> !IsLineTerminator(body[i])
    ensures RawCapture("(" + Join(names) + ") => " + body) == Some(Join(names))
  {
    var j := Join(names);
    var src := "(" + j + ") => " + body;
    JoinArrowChars(names);
    assert forall i :: 0 <= i < |j| ==> !IsLineTerminator(j[i]) by {
      assert forall i :: 0 <= i < |j| ==> IsArrowChar(j[i]);
    }
    SourceOneLine(j, body);
    SingleLineSearch(src, FunctionPattern);
    SingleLineSearch(src, ArrowPattern);
    if |src| >= 8 {
      assert src[0..8][0] == '(';
    }
    assert FunctionAt(src, 0) == None;
    ArrowAtList(j, body);
  }

  /** The parameters of such an arrow function are its names, in order. */
  lemma ArrowParameters(names: seq<string>, body: string, rule: DefaultRule)
    requires |names| >= 1 && forall i :: 0 <= i < |names| ==> IsArrowName(names[i])
    requires forall i :: 0 <= i < |body| ==> !IsLineTerminator(body[i])
    ensures ParametersWith("(" + Join(names) + ") => " + body, rule) == Some(names)
  {
    var j := Join(names);
    ArrowCapture(names, body);
    ArrowListCleaned(names, rule);
    CapturedParameters("(" + j + ") => " + body, j, rule);
  }

  /** What becomes of a non-empty capture. */
  lemma CapturedParameters(src: string, raw: string, rule: DefaultRule)
    requires RawCapture(src) == Some(raw) && raw != []
    ensures ParametersWith(src, rule) == Some(Split(RemoveSpaces(Strip(raw, rule))))
  {
  }

  /** Letters, digits and commas pass the deletion and whitespace patterns untouched. */
  lemma ArrowListCleaned(names: seq<string>, rule: DefaultRule)
    requires |names| >= 1 && forall i :: 0 <= i < |names| ==> IsArrowName(names[i])
    ensures Split(RemoveSpaces(Strip(Join(names), rule))) == names
  {
    var j := Join(names);
    JoinArrowChars(names);
    assert AllInert(j) && NoSpace(j) by {
      assert forall i :: 0 <= i < |j| ==> IsArrowChar(j[i]);
    }
    StripKeepsInert(j, "", rule);
    assert j + "" == j;
    RemoveSpacesKeeps(j);
    forall i | 0 <= i < |names| ensures ',' !in names[i] {
      assert IsArrowName(names[i]);
    }
    SplitJoin(names);
  }

  predicate OneLine(t: string)
  {
    forall i :: 0 <= i < |t| ==> !IsLineTerminator(t[i])
  }

  /** One line that the declaration pattern does not match: the arrow pattern decides. */
  lemma ArrowDecides(src: string)
    requires OneLine(src) && FunctionAt(src, 0) == None
    ensures RawCapture(src) == ArrowAt(src, 0)
  {
    SingleLineSearch(src, FunctionPattern);
    SingleLineSearch(src, ArrowPattern);
  }

  lemma BareArrowOneLine(name: string, body: string)
    requires IsArrowName(name) && OneLine(body)
    ensures OneLine(name + " => " + body)
  {
    var src := name + " => " + body;
    forall i | 0 <= i < |src| ensures !IsLineTerminator(src[i]) {
      if i < |name| {
        assert src[i] == name[i] && IsArrowChar(name[i]);
      } else if i >= |name| + 4 {
        assert src[i] == body[i - |name| - 4];
      } else {
        assert src[i] in " =>";
      }
    }
  }

  lemma BareArrowNotDeclaration(name: string, body: string)
    requires IsArrowName(name) && !(|name| >= 8 && name[..8] == "function")
    ensures FunctionAt(name + " => " + body, 0) == None
  {
    var src := name + " => " + body;
    if |src| >= 8 {
      if |name| >= 8 {
        assert src[0..8] == name[..8];
      } else {
        assert src[0..8][|name|] == ' ';
      }
    }
  }

  /** The arrow pattern at the start of `t`: the class up to `m`, then ` =>`. */
  lemma ArrowAtBare(t: string, m: nat)
    requires 0 < m && m + 3 <= |t|
    requires t[m] == ' ' && t[m + 1] == '=' && t[m + 2] == '>'
    requires forall k :: 0 <= k < m ==> IsArrowChar(t[k]) && t[k] != '('
    ensures ArrowAt(t, 0) == Some(t[0..m])
  {
    assert SpaceRunAt(t, 0) == 0 && SkipChar(t, 0, '(') == 0;
    ArrowRunSpan(t, 0, m);
    assert SpaceRunAt(t, m) == 1;
    assert SkipChar(t, m + 1, ')') == m + 1;
    assert SpaceRunAt(t, m + 1) == 0;
  }

  lemma ArrowAtName(name: string, body: string)
    requires IsArrowName(name)
    ensures ArrowAt(name + " => " + body, 0) == Some(name)
  {
    var src := name + " => " + body;
    var m := |name|;
    assert forall k :: 0 <= k < m ==> src[k] == name[k] && IsArrowChar(name[k]);
    assert src[m] == ' ' && src[m + 1] == '=' && src[m + 2] == '>';
    assert src[0..m] == name;
    ArrowAtBare(src, m);
  }

  /** `name => body` on one line gives back the name. */
  lemma BareArrowParameters(name: string, body: string, rule: DefaultRule)
    requires IsArrowName(name) && !(|name| >= 8 && name[..8] == "function")
    requires OneLine(body)
    ensures ParametersWith(name + " => " + body, rule) == Some([name])
  {
    var src := name + " => " + body;
    BareArrowOneLine(name, body);
    BareArrowNotDeclaration(name, body);
    ArrowDecides(src);
    ArrowAtName(name, body);
    ArrowListCleaned([name], rule);
    assert Join([name]) == name;
    CapturedParameters(src, name, rule);
  }

  lemma SpacedArrowOneLine(a: string, b: string, body: string)
    requires IsArrowName(a) && IsArrowName(b) && OneLine(body)
    ensures OneLine("(" + a + ", " + b + ") => " + body)
  {
    var j := a + ", " + b;
    forall i | 0 <= i < |j| ensures !IsLineTerminator(j[i]) {
      if i < |a| { assert j[i] == a[i] && IsArrowChar(a[i]); }
      else if i >= |a| + 2 { assert j[i] == b[i - |a| - 2] && IsArrowChar(b[i - |a| - 2]); }
      else { assert j[i] in ", "; }
    }
    SourceOneLine(j, body);
  }

  /** The arrow pattern at the start of `t`: `(`, the class up to `m`, a space and a class character. */
  lemma ArrowAtSpaced(t: string, m: nat)
    requires 1 < m && m + 2 <= |t|
    requires t[0] == '(' && t[m] == ' ' && IsArrowChar(t[m + 1])
    requires forall k :: 1 <= k < m ==> IsArrowChar(t[k])
    ensures ArrowAt(t, 0) == None
  {
    var x := t[m + 1];
    assert !IsSpace(x) && x != ')' && x != '=';
    assert SpaceRunAt(t, 0) == 0 && SkipChar(t, 0, '(') == 1;
    assert SpaceRunAt(t, 1) == 0;
    ArrowRunSpan(t, 1, m);
    assert SpaceRunAt(t, m + 1) == 0;
    assert SpaceRunAt(t, m) == 1;
    assert SkipChar(t, m + 1, ')') == m + 1;
  }

  lemma SpacedArrowAt(a: string, b: string, body: string)
    requires IsArrowName(a) && IsArrowName(b)
    ensures ArrowAt("(" + a + ", " + b + ") => " + body, 0) == None
  {
    var src := "(" + a + ", " + b + ") => " + body;
    var m := 2 + |a|;
    assert forall k :: 1 <= k < m - 1 ==> src[k] == a[k - 1] && IsArrowChar(a[k - 1]);
    assert src[0] == '(' && src[m - 1] == ',' && src[m] == ' ' && src[m + 1] == b[0];
    assert IsArrowChar(b[0]);
    ArrowAtSpaced(src, m);
  }

  /**
   * The arrow pattern's class holds no whitespace, so a list written with a space after a comma is
   * not matched: `match` is null and the library's `match[1]` throws.
   */
  lemma SpacedArrowListFails(a: string, b: string, body: string)
    requires IsArrowName(a) && IsArrowName(b) && OneLine(body)
    ensures RawCapture("(" + a + ", " + b + ") => " + body) == None
  {
    var src := "(" + a + ", " + b + ") => " + body;
    SpacedArrowOneLine(a, b, body);
    if |src| >= 8 {
      assert src[0..8][0] == '(';
    }
    ArrowDecides(src);
    SpacedArrowAt(a, b, body);
  }

  // ---------------------------------------------------------------------------------------
  // String defaults under the library's pattern

  /**
   * After a string default without a comma, the library's run stops at the comma that follows its
   * closing quote at `c1`; no quoted value starts there, so the run gives back one character and
   * the quoted group opens at that closing quote, running on to the next quote, at `c2`.
   */
  lemma ReopenedDefaultLen(s: string, i: nat, w: nat, c1: nat, c2: nat, q: char)
    requires i + w < c1 && c1 + 1 < c2 < |s| && IsQuote(q)
    requires forall k :: i <= k < i + w ==> IsSpace(s[k])
    requires s[i + w] == q && s[c1] == q && s[c2] == q && s[c1 + 1] == ','
    requires forall k :: i + w < k < c1 ==> !StopsRun(s[k], AsWritten)
    requires forall k :: c1 < k < c2 ==> PlainChar(s[k])
    ensures DefaultLenAt(s, i, AsWritten) == c2 + 1 - i
  {
    var e := c1 + 1 - i;
    assert forall k :: i <= k < c1 + 1 ==> !StopsRun(s[k], AsWritten);
    RunLenSkip(s, i, c1 + 1, AsWritten);
    assert RunLenAt(s, i, AsWritten) == e;
    QuotedLenSpan(s, c1, q, c2);
    assert QuotedLenAt(s, c1 + 1, '\'') == None && QuotedLenAt(s, c1 + 1, '"') == None;
    if q == '"' {
      assert QuotedLenAt(s, c1, '\'') == None;
    }
    assert QuotedFromAt(s, i, e - 1) == Some(c2 + 1 - i);
    assert QuotedFromAt(s, i, e) == Some(c2 + 1 - i);
  }

  lemma SeparatorPlain(b: string)
    requires IsName(b)
    ensures PlainLiteral(", " + b + " = ")
  {
    var mid := ", " + b + " = ";
    forall i | 0 <= i < |mid|
      ensures mid[i] != '\'' && mid[i] != '"' && mid[i] != '\\' && mid[i] != '\r' && mid[i] != '\n'
    {
      if 2 <= i < 2 + |b| {
        assert mid[i] == b[i - 2] && IsIdentChar(b[i - 2]);
      } else {
        assert mid[i] in ", =";
      }
    }
  }

  /** Where the pieces of ` = 'x'mid'z` stand in the joined text. */
  lemma MergedLayout(q: char, x: string, mid: string, z: string)
    requires PlainLiteral(mid) && mid != [] && mid[0] == ','
    requires forall i :: 0 <= i < |x| ==> !StopsRun(x[i], AsWritten)
    ensures var s := " =" + (" " + [q] + x + [q] + mid + [q] + z);
      var c1 := 4 + |x|;
      var c2 := c1 + 1 + |mid|;
      && s[0] == ' ' && s[1] == '=' && s[2] == ' ' && s[3] == q && s[c1] == q && s[c1 + 1] == ','
      && s[c2] == q
      && (forall k :: 3 < k < c1 ==> !StopsRun(s[k], AsWritten))
      && (forall k :: c1 < k < c2 ==> PlainChar(s[k]))
      && s[c2 + 1..] == z
  {
    var s := " =" + (" " + [q] + x + [q] + mid + [q] + z);
    var c1 := 4 + |x|;
    var c2 := c1 + 1 + |mid|;
    assert forall k :: 3 < k < c1 ==> s[k] == x[k - 4];
    assert forall k :: c1 < k < c2 ==> s[k] == mid[k - c1 - 1];
    assert s[c2 + 1..] == z;
  }

  /** The first default's match runs through the opening quote of the second literal. */
  lemma MergedTry(q: char, x: string, mid: string, z: string)
    requires IsQuote(q) && PlainLiteral(mid) && mid != [] && mid[0] == ','
    requires forall i :: 0 <= i < |x| ==> !StopsRun(x[i], AsWritten)
    ensures TryMatchAt(" =" + (" " + [q] + x + [q] + mid + [q] + z), 0, AsWritten) == Some(|x| + |mid| + 6)
  {
    var s := " =" + (" " + [q] + x + [q] + mid + [q] + z);
    var c1 := 4 + |x|;
    MergedLayout(q, x, mid, z);
    ReopenedDefaultLen(s, 2, 1, c1, c1 + 1 + |mid|, q);
    TryMatchDefault(s, 1, AsWritten);
  }

  lemma MergedMatch(q: char, x: string, mid: string, z: string)
    requires IsQuote(q) && PlainLiteral(mid) && mid != [] && mid[0] == ','
    requires forall i :: 0 <= i < |x| ==> !StopsRun(x[i], AsWritten)
    ensures Strip(" =" + (" " + [q] + x + [q] + mid + [q] + z), AsWritten) == Strip(z, AsWritten)
  {
    var s := " =" + (" " + [q] + x + [q] + mid + [q] + z);
    var n := |x| + |mid| + 6;
    MergedTry(q, x, mid, z);
    MergedLayout(q, x, mid, z);
    calc {
      Strip(s, AsWritten);
    == { StripDeletes(s, AsWritten, n); }
      Strip(s[n..], AsWritten);
    == { assert s[n..] == z; }
      Strip(z, AsWritten);
    }
  }

  lemma MergedStrip(a: string, q: char, x: string, b: string, y: string)
    requires IsName(a) && IsName(b) && IsQuote(q) && PlainLiteral(x)
    requires forall i :: 0 <= i < |x| ==> !StopsRun(x[i], AsWritten)
    requires AllInert(y)
    ensures Strip(a + (" =" + (" " + [q] + x + [q] + (", " + b + " = ") + [q] + (y + [q]))), AsWritten) == a + y + [q]
  {
    var z := y + [q];
    var mid := ", " + b + " = ";
    SeparatorPlain(b);
    var s := " =" + (" " + [q] + x + [q] + mid + [q] + z);
    IdentCharsInert(a);
    StripKeepsInert(a, s, AsWritten);
    MergedMatch(q, x, mid, z);
    InertQuoteTail(y, q);
  }

  lemma InertQuoteTail(y: string, q: char)
    requires AllInert(y) && IsQuote(q)
    ensures Strip(y + [q], AsWritten) == y + [q]
  {
    var z := y + [q];
    assert AllInert(z) by {
      assert forall i :: 0 <= i < |y| ==> z[i] == y[i];
    }
    StripKeepsInert(z, "", AsWritten);
    assert z + "" == z;
  }

  lemma TwoQuotedRendered(a: string, q: char, x: string, b: string, y: string)
    ensures RenderList([Param(a, Quoted(q, x)), Param(b, Quoted(q, y))])
      == a + (" =" + (" " + [q] + x + [q] + (", " + b + " = ") + [q] + (y + [q])))
  {
    var ps := [Param(a, Quoted(q, x)), Param(b, Quoted(q, y))];
    assert RenderList(ps[1..]) == Render(ps[1]);
    assert Render(ps[0]) == a + " = " + [q] + x + [q];
    assert Render(ps[1]) == b + " = " + [q] + y + [q];
  }

  lemma OneMergedName(a: string, y: string, q: char)
    requires IsName(a) && AllInert(y) && IsQuote(q) && forall i :: 0 <= i < |y| ==> y[i] != ','
    ensures Split(RemoveSpaces(a + y + [q])) == [a + y + [q]]
  {
    var m := a + y + [q];
    IdentCharsInert(a);
    assert NoSpace(m) && ',' !in m by {
      forall i | 0 <= i < |m| ensures !IsSpace(m[i]) && m[i] != ',' {
        if i < |a| { assert m[i] == a[i]; }
        else if i < |a| + |y| { assert m[i] == y[i - |a|] && Inert(y[i - |a|]); }
      }
    }
    RemoveSpacesKeeps(m);
    SplitJoin([m]);
    assert Join([m]) == m;
  }

  /** What the library reads from `a = 'x', b = 'y'` when neither literal holds a comma. */
  lemma MergedParameters(head: string, a: string, q: char, x: string, b: string, y: string, tail: string)
    requires '(' !in head && IsName(a) && IsName(b) && IsQuote(q)
    requires PlainLiteral(x) && forall i :: 0 <= i < |x| ==> !StopsRun(x[i], AsWritten)
    requires PlainLiteral(y) && AllInert(y) && forall i :: 0 <= i < |y| ==> y[i] != ',' && y[i] != ')'
    ensures GetFunctionParametersAsWritten(Declaration(head, [Param(a, Quoted(q, x)), Param(b, Quoted(q, y))], tail))
      == Some([a + y + [q]])
  {
    var ps := [Param(a, Quoted(q, x)), Param(b, Quoted(q, y))];
    var src := Declaration(head, ps, tail);
    TwoStringDefaultsWellFormed(a, q, x, b, y);
    DeclarationCapturesList(head, ps, tail);
    TwoQuotedRendered(a, q, x, b, y);
    var inner := RenderList(ps);
    assert inner != [] by { assert inner[..|a|] == a; }
    CapturedParameters(src, inner, AsWritten);
    MergedStrip(a, q, x, b, y);
    OneMergedName(a, y, q);
  }

  lemma TwoStringDefaultsWellFormed(a: string, q: char, x: string, b: string, y: string)
    requires IsName(a) && IsName(b) && IsQuote(q)
    requires PlainLiteral(x) && forall i :: 0 <= i < |x| ==> !StopsRun(x[i], AsWritten)
    requires PlainLiteral(y) && forall i :: 0 <= i < |y| ==> y[i] != ',' && y[i] != ')'
    ensures AllWellFormed([Param(a, Quoted(q, x)), Param(b, Quoted(q, y))])
  {
    assert ')' !in x by {
      assert forall i :: 0 <= i < |x| ==> x[i] != ')';
    }
    assert ')' !in y;
  }

  /**
   * Two string defaults without commas: the library reads one parameter made of the first name,
   * the second literal and a quote; the quote-aware pattern reads both names.
   */
  lemma AsWrittenMergesStringDefaults(head: string, a: string, q: char, x: string, b: string, y: string, tail: string)
    requires '(' !in head && IsName(a) && IsName(b) && IsQuote(q)
    requires PlainLiteral(x) && forall i :: 0 <= i < |x| ==> !StopsRun(x[i], AsWritten)
    requires PlainLiteral(y) && AllInert(y) && forall i :: 0 <= i < |y| ==> y[i] != ',' && y[i] != ')'
    ensures GetFunctionParametersAsWritten(Declaration(head, [Param(a, Quoted(q, x)), Param(b, Quoted(q, y))], tail))
      == Some([a + y + [q]])
    ensures GetFunctionParameters(Declaration(head, [Param(a, Quoted(q, x)), Param(b, Quoted(q, y))], tail))
      == Some([a, b])
  {
    MergedParameters(head, a, q, x, b, y, tail);
    TwoQuotedCorrected(head, a, q, x, b, y, tail);
  }

  lemma TwoQuotedCorrected(head: string, a: string, q: char, x: string, b: string, y: string, tail: string)
    requires '(' !in head && IsName(a) && IsName(b) && IsQuote(q)
    requires PlainLiteral(x) && forall i :: 0 <= i < |x| ==> !StopsRun(x[i], AsWritten)
    requires PlainLiteral(y) && forall i :: 0 <= i < |y| ==> y[i] != ',' && y[i] != ')'
    ensures GetFunctionParameters(Declaration(head, [Param(a, Quoted(q, x)), Param(b, Quoted(q, y))], tail))
      == Some([a, b])
  {
    var ps := [Param(a, Quoted(q, x)), Param(b, Quoted(q, y))];
    TwoStringDefaultsWellFormed(a, q, x, b, y);
    CorrectedDeclaration(head, ps, tail);
    TwoNames(ps);
  }

  lemma CorrectedDeclaration(head: string, ps: seq<Param>, tail: string)
    requires '(' !in head && AllWellFormed(ps)
    ensures GetFunctionParameters(Declaration(head, ps, tail)) == Some(Names(ps))
  {
    DeclarationParameters(head, ps, tail, QuoteAware);
  }

  lemma TwoNames(ps: seq<Param>)
    requires |ps| == 2
    ensures Names(ps) == [ps[0].name, ps[1].name]
  {
    assert Names(ps[1..][1..]) == [];
  }
}
