/**
 * What `getFunctionParameters` deletes and keeps: lemmas about the scanners of ParameterParser.
 * The scanners' lemmas speak of positions in one text; the deletion lemmas speak of a text built
 * from its pieces.
 */
module ParameterProperties {
  import opened Wrappers
  import opened Chars
  import opened ParameterParser

  // ---------------------------------------------------------------------------------------
  // split / join

  /** Splitting a comma-free, non-empty list of names joined by commas gives back the list. */
  lemma {:induction false} SplitJoin(parts: seq<string>)
    requires |parts| >= 1
    requires forall i :: 0 <= i < |parts| ==> ',' !in parts[i]
    ensures Split(Join(parts)) == parts
  {
    if |parts| == 1 {
      assert Join(parts) == parts[0];
    } else {
      var s := Join(parts);
      var rest := Join(parts[1..]);
      var n := |parts[0]|;
      assert s == parts[0] + [','] + rest;
      assert forall k :: 0 <= k < n ==> s[k] == parts[0][k] && s[k] != ',';
      assert s[n] == ',';
      assert IndexFrom(s, 0, ',') == Some(n);
      assert s[n + 1..] == rest;
      assert s[..n] == parts[0];
      SplitJoin(parts[1..]);
    }
  }

  // ---------------------------------------------------------------------------------------
  // whitespace removal

  lemma {:induction false} RemoveSpacesAppend(a: string, b: string)
    ensures RemoveSpaces(a + b) == RemoveSpaces(a) + RemoveSpaces(b)
  {
    if a == [] {
      assert a + b == b;
    } else {
      assert (a + b)[1..] == a[1..] + b;
      RemoveSpacesAppend(a[1..], b);
    }
  }

  /** Whitespace removal keeps every other character, in order. */
  lemma {:induction false} RemoveSpacesKeeps(s: string)
    requires NoSpace(s)
    ensures RemoveSpaces(s) == s
  {
    if s != [] {
      assert NoSpace(s[1..]) by {
        forall i | 0 <= i < |s[1..]| ensures !IsSpace(s[1..][i]) {
          assert s[1..][i] == s[i + 1];
        }
      }
      RemoveSpacesKeeps(s[1..]);
    }
  }

  /** Whitespace removal deletes every whitespace character. */
  lemma {:induction false} RemoveSpacesDeletes(s: string)
    requires AllSpace(s)
    ensures RemoveSpaces(s) == []
  {
    if s != [] {
      assert AllSpace(s[1..]) by {
        forall i | 0 <= i < |s[1..]| ensures IsSpace(s[1..][i]) {
          assert s[1..][i] == s[i + 1];
        }
      }
      RemoveSpacesDeletes(s[1..]);
    }
  }

  // ---------------------------------------------------------------------------------------
  // The scanners over a stretch of text

  /** `\s*` at `i` runs over whitespace up to the first other character. */
  lemma {:induction false} SpaceRunSpan(s: string, i: nat, j: nat)
    requires i <= j <= |s|
    requires forall k :: i <= k < j ==> IsSpace(s[k])
    requires j == |s| || !IsSpace(s[j])
    ensures SpaceRunAt(s, i) == j - i
    decreases j - i
  {
    if i < j {
      SpaceRunSpan(s, i + 1, j);
    }
  }

  /** `.*$` at `i` runs up to the first line terminator. */
  lemma {:induction false} LineEndSpan(s: string, i: nat, j: nat)
    requires i <= j <= |s|
    requires forall k :: i <= k < j ==> !IsLineTerminator(s[k])
    requires j == |s| || IsLineTerminator(s[j])
    ensures LineEndAt(s, i) == j - i
    decreases j - i
  {
    if i < j {
      LineEndSpan(s, i + 1, j);
    }
  }

  /** `[\s\S]*?\*\/` at `i` stops at the first star-slash pair. */
  lemma {:induction false} BlockEndSpan(s: string, i: nat, j: nat)
    requires i <= j && j + 2 <= |s| && s[j] == '*' && s[j + 1] == '/'
    requires forall k :: i <= k < j ==> !(s[k] == '*' && s[k + 1] == '/')
    ensures BlockEndAt(s, i) == Some(j - i)
    decreases j - i
  {
    if i < j {
      BlockEndSpan(s, i + 1, j);
    }
  }

  /** The run passes over characters that do not stop it. */
  lemma {:induction false} RunLenSkip(s: string, i: nat, j: nat, rule: DefaultRule)
    requires i <= j <= |s|
    requires forall k :: i <= k < j ==> !StopsRun(s[k], rule)
    ensures RunLenAt(s, i, rule) == (j - i) + RunLenAt(s, j, rule)
    decreases j - i
  {
    if i < j {
      RunLenSkip(s, i + 1, j, rule);
    }
  }

  /** The run ends at or before any character that stops it. */
  lemma {:induction false} RunLenBefore(s: string, i: nat, k: nat, rule: DefaultRule)
    requires i <= k < |s| && StopsRun(s[k], rule)
    ensures i + RunLenAt(s, i, rule) <= k
    decreases k - i
  {
    if i < k && !StopsRun(s[i], rule) {
      RunLenBefore(s, i + 1, k, rule);
    }
  }

  /** A character a string literal's body may hold without ending or escaping anything. */
  predicate PlainChar(c: char)
  {
    c != '\'' && c != '"' && c != '\\' && c != '\r' && c != '\n'
  }

  /** A string value's body: no quote of either kind, no backslash, no line break. */
  predicate PlainLiteral(lit: string)
  {
    forall i :: 0 <= i < |lit| ==> PlainChar(lit[i])
  }

  predicate IsQuote(c: char)
  {
    c == '\'' || c == '"'
  }

  /** A plain body closes at its first quote. */
  lemma {:induction false} CloseQuoteSpan(s: string, j: nat, q: char, off: nat, esc: Option<nat>, e: nat)
    requires IsQuote(q) && j + off <= e < |s| && s[e] == q
    requires forall k :: j + off <= k < e ==> PlainChar(s[k])
    requires esc.Some? ==> esc.value < off
    ensures CloseQuoteAt(s, j, q, off, esc) == Some(e - j + 1)
    decreases e - j - off
  {
    if j + off < e {
      CloseQuoteSpan(s, j, q, off + 1, esc, e);
    }
  }

  /** A quoted value with a plain body reaches its closing quote. */
  lemma QuotedLenSpan(s: string, i: nat, q: char, e: nat)
    requires IsQuote(q) && i < e < |s| && s[i] == q && s[e] == q
    requires forall k :: i < k < e ==> PlainChar(s[k])
    ensures QuotedLenAt(s, i, q) == Some(e - i + 1)
  {
    CloseQuoteSpan(s, i + 1, q, 0, None, e);
  }

  /** Trying the quoted group where no quote stands changes nothing. */
  lemma {:induction false} QuotedFromSkip(s: string, i: nat, lo: nat, e: nat)
    requires lo <= e && i + e <= |s|
    requires forall k :: i + lo < k <= i + e ==> k == |s| || !IsQuote(s[k])
    ensures QuotedFromAt(s, i, e) == QuotedFromAt(s, i, lo)
    decreases e
  {
    if lo < e {
      QuotedFromSkip(s, i, lo, e - 1);
    }
  }

  /** Without a quote anywhere it is tried, the quoted group does not match. */
  lemma {:induction false} QuotedFromNone(s: string, i: nat, e: nat)
    requires i + e <= |s|
    requires forall k :: i <= k <= i + e ==> k == |s| || !IsQuote(s[k])
    ensures QuotedFromAt(s, i, e) == None
    decreases e
  {
    if e > 0 {
      QuotedFromNone(s, i, e - 1);
    }
  }

  /** The quoted group tried at the whitespace's end matches through the closing quote at `e`. */
  lemma QuotedFromHere(s: string, i: nat, w: nat, e: nat, q: char)
    requires i + w < e < |s| && IsQuote(q)
    requires s[i + w] == q && s[e] == q
    requires forall k :: i + w < k < e ==> PlainChar(s[k])
    ensures QuotedFromAt(s, i, w) == Some(e + 1 - i)
  {
    QuotedLenSpan(s, i + w, q, e);
  }

  /**
   * A string value after whitespace, under the quote-aware rule: the run stops at the opening
   * quote, and the quoted group matches the value from `i` through its closing quote at `e`.
   */
  lemma QuotedValueLenAware(s: string, i: nat, w: nat, e: nat, q: char)
    requires i + w < e < |s| && IsQuote(q)
    requires forall k :: i <= k < i + w ==> IsSpace(s[k])
    requires s[i + w] == q && s[e] == q
    requires forall k :: i + w < k < e ==> PlainChar(s[k])
    ensures DefaultLenAt(s, i, QuoteAware) == e + 1 - i
  {
    QuotedFromHere(s, i, w, e, q);
    RunLenSkip(s, i, i + w, QuoteAware);
    assert RunLenAt(s, i + w, QuoteAware) == 0;
  }

  /**
   * The same under the library's rule: its run passes the opening quote, so the value is matched
   * whole only when a comma or `)` at `c` inside the literal stops the run there.
   */
  lemma QuotedValueLenAsWritten(s: string, i: nat, w: nat, e: nat, q: char, c: nat)
    requires i + w < c < e < |s| && IsQuote(q)
    requires forall k :: i <= k < i + w ==> IsSpace(s[k])
    requires s[i + w] == q && s[e] == q
    requires forall k :: i + w < k < e ==> PlainChar(s[k])
    requires s[c] == ',' || s[c] == ')'
    ensures DefaultLenAt(s, i, AsWritten) == e + 1 - i
  {
    QuotedFromHere(s, i, w, e, q);
    RunLenSkip(s, i, i + w + 1, AsWritten);
    RunLenBefore(s, i + w + 1, c, AsWritten);
    var m := RunLenAt(s, i, AsWritten);
    assert forall k :: i + w < k <= i + m ==> !IsQuote(s[k]) by {
      assert forall k :: i + w < k <= i + m ==> PlainChar(s[k]);
    }
    QuotedFromSkip(s, i, w, m);
  }

  /** A value with no quote, comma or `)`: the bare run matches it up to what follows. */
  lemma BareValueLen(s: string, i: nat, j: nat, rule: DefaultRule)
    requires i <= j <= |s|
    requires forall k :: i <= k < j ==> !StopsRun(s[k], QuoteAware)
    requires j == |s| || s[j] == ',' || s[j] == ')'
    ensures DefaultLenAt(s, i, rule) == j - i
  {
    RunLenSkip(s, i, j, rule);
    RunLenSkip(s, i, j, AsWritten);
    QuotedFromNone(s, i, j - i);
  }

  // ---------------------------------------------------------------------------------------
  // What the deletion pattern deletes and keeps

  /** One step of the left-to-right replacement where no match starts. */
  lemma StripKeepsFirst(s: string, rule: DefaultRule)
    requires s != [] && TryMatchAt(s, 0, rule) == None
    ensures Strip(s, rule) == [s[0]] + Strip(s[1..], rule)
  {
  }

  /** One step of the left-to-right replacement where a match of length `n` starts. */
  lemma StripDeletes(s: string, rule: DefaultRule, n: nat)
    requires s != [] && TryMatchAt(s, 0, rule) == Some(n)
    ensures Strip(s, rule) == Strip(s[n..], rule)
  {
  }

  /** After whitespace, `=` starts a default: the third or fourth alternative matches there. */
  lemma TryMatchDefault(s: string, w: nat, rule: DefaultRule)
    requires w < |s| && s[w] == '='
    requires forall k :: 0 <= k < w ==> IsSpace(s[k])
    ensures TryMatchAt(s, 0, rule) == Some(w + 1 + DefaultLenAt(s, w + 1, rule))
  {
    SpaceRunSpan(s, 0, w);
    assert s[0] == '=' || IsSpace(s[0]);
  }

  /** A character no alternative of the deletion pattern can start at. */
  predicate Inert(c: char)
  {
    c != '/' && c != '=' && !IsSpace(c)
  }

  predicate AllInert(a: string)
  {
    forall i :: 0 <= i < |a| ==> Inert(a[i])
  }

  /** No alternative matches at a character other than `/`, `=` or whitespace. */
  lemma NoMatchAtInert(s: string, rule: DefaultRule)
    requires s != [] && Inert(s[0])
    ensures TryMatchAt(s, 0, rule) == None
  {
  }

  /** One replacement step at a character no alternative can start at. */
  lemma StripInertStep(a: string, b: string, rule: DefaultRule)
    requires a != [] && Inert(a[0])
    ensures Strip(a + b, rule) == [a[0]] + Strip(a[1..] + b, rule)
  {
    var s := a + b;
    assert s[0] == a[0];
    NoMatchAtInert(s, rule);
    StripKeepsFirst(s, rule);
    assert s[1..] == a[1..] + b;
  }

  /** Text without `/`, `=` or whitespace is kept as it is, in order. */
  lemma {:induction false} StripKeepsInert(a: string, b: string, rule: DefaultRule)
    requires AllInert(a)
    ensures Strip(a + b, rule) == a + Strip(b, rule)
  {
    if a == [] {
      assert a + b == b;
    } else {
      calc {
        Strip(a + b, rule);
      == { StripInertStep(a, b, rule); }
        [a[0]] + Strip(a[1..] + b, rule);
      == { StripKeepsInert(a[1..], b, rule); }
        [a[0]] + (a[1..] + Strip(b, rule));
      == { assert [a[0]] + a[1..] == a; }
        a + Strip(b, rule);
      }
    }
  }

  /** No alternative matches at whitespace that does not lead to `=`. */
  lemma NoMatchAtSpaces(a: string, b: string, rule: DefaultRule)
    requires a != [] && AllSpace(a)
    requires b == [] || (!IsSpace(b[0]) && b[0] != '=')
    ensures TryMatchAt(a + b, 0, rule) == None
  {
    var s := a + b;
    assert forall k :: 0 <= k < |a| ==> s[k] == a[k];
    assert |a| < |s| ==> s[|a|] == b[0];
    SpaceRunSpan(s, 0, |a|);
  }

  lemma AllSpaceTail(a: string)
    requires a != [] && AllSpace(a)
    ensures AllSpace(a[1..])
  {
    forall i | 0 <= i < |a[1..]| ensures IsSpace(a[1..][i]) {
      assert a[1..][i] == a[i + 1];
    }
  }

  /** One replacement step at whitespace that does not lead to `=`. */
  lemma StripSpaceStep(a: string, b: string, rule: DefaultRule)
    requires a != [] && AllSpace(a)
    requires b == [] || (!IsSpace(b[0]) && b[0] != '=')
    ensures Strip(a + b, rule) == [a[0]] + Strip(a[1..] + b, rule)
  {
    var s := a + b;
    NoMatchAtSpaces(a, b, rule);
    StripKeepsFirst(s, rule);
    assert s[1..] == a[1..] + b;
  }

  /** Whitespace not followed by `=` is kept (the whitespace pattern removes it later). */
  lemma {:induction false} StripKeepsSpaces(a: string, b: string, rule: DefaultRule)
    requires AllSpace(a)
    requires b == [] || (!IsSpace(b[0]) && b[0] != '=')
    ensures Strip(a + b, rule) == a + Strip(b, rule)
  {
    if a == [] {
      assert a + b == b;
    } else {
      calc {
        Strip(a + b, rule);
      == { StripSpaceStep(a, b, rule); }
        [a[0]] + Strip(a[1..] + b, rule);
      == { AllSpaceTail(a); StripKeepsSpaces(a[1..], b, rule); }
        [a[0]] + (a[1..] + Strip(b, rule));
      == { assert [a[0]] + a[1..] == a; }
        a + Strip(b, rule);
      }
    }
  }

  /** A line comment is deleted up to, not including, the line break that ends it. */
  lemma StripLineComment(t: string, b: string, rule: DefaultRule)
    requires forall i :: 0 <= i < |t| ==> !IsLineTerminator(t[i])
    requires b == [] || IsLineTerminator(b[0])
    ensures Strip("//" + t + b, rule) == Strip(b, rule)
  {
    var s := "//" + t + b;
    assert forall k :: 2 <= k < 2 + |t| ==> s[k] == t[k - 2];
    assert 2 + |t| < |s| ==> s[2 + |t|] == b[0];
    LineEndSpan(s, 2, 2 + |t|);
    assert TryMatchAt(s, 0, rule) == Some(2 + |t|);
    StripDeletes(s, rule, 2 + |t|);
    assert s[2 + |t|..] == b;
  }

  /** The body of a block comment holds no star-slash pair. */
  predicate NoCloser(body: string)
  {
    forall i :: 0 <= i < |body| - 1 ==> !(body[i] == '*' && body[i + 1] == '/')
  }

  /** A block comment is deleted through its first closing star-slash. */
  lemma StripBlockComment(body: string, b: string, rule: DefaultRule)
    requires NoCloser(body)
    ensures Strip("/*" + body + "*/" + b, rule) == Strip(b, rule)
  {
    var s := "/*" + body + "*/" + b;
    var j := 2 + |body|;
    assert forall k :: 2 <= k < j ==> s[k] == body[k - 2];
    assert s[j] == '*' && s[j + 1] == '/';
    BlockEndSpan(s, 2, j);
    assert TryMatchAt(s, 0, rule) == Some(j + 2);
    StripDeletes(s, rule, j + 2);
    assert s[j + 2..] == b;
  }

  /** Whitespace, `=`, whitespace and a quoted value closing at `e`: one match, through `e`. */
  lemma QuotedDefaultAt(s: string, p: nat, w: nat, e: nat, q: char, rule: DefaultRule)
    requires p + 1 + w < e < |s| && IsQuote(q)
    requires forall k :: 0 <= k < p ==> IsSpace(s[k])
    requires s[p] == '='
    requires forall k :: p + 1 <= k < p + 1 + w ==> IsSpace(s[k])
    requires s[p + 1 + w] == q && s[e] == q
    requires forall k :: p + 1 + w < k < e ==> PlainChar(s[k])
    requires rule == QuoteAware || exists k :: p + 1 + w < k < e && (s[k] == ',' || s[k] == ')')
    ensures TryMatchAt(s, 0, rule) == Some(e + 1)
  {
    if rule == AsWritten {
      var c :| p + 1 + w < c < e && (s[c] == ',' || s[c] == ')');
      QuotedValueLenAsWritten(s, p + 1, w, e, q, c);
    } else {
      QuotedValueLenAware(s, p + 1, w, e, q);
    }
    TryMatchDefault(s, p, rule);
  }

  /** Where the pieces of `sp = sp2 'lit' b` stand in the joined text. */
  lemma QuotedDefaultLayout(sp: string, sp2: string, q: char, lit: string, b: string)
    requires AllSpace(sp) && AllSpace(sp2) && PlainLiteral(lit)
    ensures var s := sp + "=" + sp2 + [q] + lit + [q] + b;
      var i := |sp| + 1 + |sp2|;
      && (forall k :: 0 <= k < |sp| ==> IsSpace(s[k]))
      && s[|sp|] == '='
      && (forall k :: |sp| + 1 <= k < i ==> IsSpace(s[k]))
      && s[i] == q && s[i + 1 + |lit|] == q
      && (forall k :: i < k < i + 1 + |lit| ==> PlainChar(s[k]) && s[k] == lit[k - i - 1])
      && s[i + 2 + |lit|..] == b
  {
    var s := sp + "=" + sp2 + [q] + lit + [q] + b;
    var i := |sp| + 1 + |sp2|;
    assert forall k :: 0 <= k < |sp| ==> s[k] == sp[k];
    assert forall k :: |sp| + 1 <= k < i ==> s[k] == sp2[k - |sp| - 1];
    assert forall k :: i < k < i + 1 + |lit| ==> s[k] == lit[k - i - 1];
    assert s[i + 2 + |lit|..] == b;
  }

  /** The default `= 'literal'` after whitespace is one match of the deletion pattern. */
  lemma QuotedDefaultMatch(sp: string, sp2: string, q: char, lit: string, b: string, rule: DefaultRule)
    requires AllSpace(sp) && AllSpace(sp2)
    requires IsQuote(q) && PlainLiteral(lit)
    requires rule == QuoteAware || exists i :: 0 <= i < |lit| && (lit[i] == ',' || lit[i] == ')')
    ensures TryMatchAt(sp + "=" + sp2 + [q] + lit + [q] + b, 0, rule) == Some(|sp| + |sp2| + |lit| + 3)
  {
    var s := sp + "=" + sp2 + [q] + lit + [q] + b;
    var i := |sp| + 1 + |sp2|;
    QuotedDefaultLayout(sp, sp2, q, lit, b);
    if rule == AsWritten {
      var c :| 0 <= c < |lit| && (lit[c] == ',' || lit[c] == ')');
      assert s[i + 1 + c] == lit[c];
    }
    QuotedDefaultAt(s, |sp|, |sp2|, i + 1 + |lit|, q, rule);
  }

  /**
   * A default whose value is a string literal is deleted with the whole literal, commas and
   * parentheses inside included. The library's pattern guarantees this only when the literal
   * holds a comma or a parenthesis; the quote-aware pattern always does.
   */
  lemma StripQuotedDefault(sp: string, sp2: string, q: char, lit: string, b: string, rule: DefaultRule)
    requires AllSpace(sp) && AllSpace(sp2)
    requires IsQuote(q) && PlainLiteral(lit)
    requires rule == QuoteAware || exists i :: 0 <= i < |lit| && (lit[i] == ',' || lit[i] == ')')
    ensures Strip(sp + "=" + sp2 + [q] + lit + [q] + b, rule) == Strip(b, rule)
  {
    var s := sp + "=" + sp2 + [q] + lit + [q] + b;
    var n := |sp| + |sp2| + |lit| + 3;
    QuotedDefaultMatch(sp, sp2, q, lit, b, rule);
    calc {
      Strip(s, rule);
    == { StripDeletes(s, rule, n); }
      Strip(s[n..], rule);
    == { assert s[n..] == b; }
      Strip(b, rule);
    }
  }

  /** Whitespace, `=` and a value with no quote, comma or `)` up to `j`: one match, up to `j`. */
  lemma BareDefaultAt(s: string, p: nat, j: nat, rule: DefaultRule)
    requires p < j <= |s|
    requires forall k :: 0 <= k < p ==> IsSpace(s[k])
    requires s[p] == '='
    requires forall k :: p + 1 <= k < j ==> !StopsRun(s[k], QuoteAware)
    requires j == |s| || s[j] == ',' || s[j] == ')'
    ensures TryMatchAt(s, 0, rule) == Some(j)
  {
    BareValueLen(s, p + 1, j, rule);
    TryMatchDefault(s, p, rule);
  }

  /** The default `= expr` after whitespace, `expr` free of quotes, commas and `)`, is one match. */
  lemma BareDefaultMatch(sp: string, expr: string, b: string, rule: DefaultRule)
    requires AllSpace(sp)
    requires forall i :: 0 <= i < |expr| ==> !StopsRun(expr[i], QuoteAware)
    requires b == [] || b[0] == ',' || b[0] == ')'
    ensures TryMatchAt(sp + "=" + expr + b, 0, rule) == Some(|sp| + 1 + |expr|)
  {
    var s := sp + "=" + expr + b;
    var i := |sp| + 1;
    var j := i + |expr|;
    assert forall k :: 0 <= k < |sp| ==> IsSpace(s[k]) by {
      assert forall k :: 0 <= k < |sp| ==> s[k] == sp[k];
    }
    assert forall k :: i <= k < j ==> !StopsRun(s[k], QuoteAware) by {
      assert forall k :: i <= k < j ==> s[k] == expr[k - i];
    }
    assert s[|sp|] == '=';
    assert j < |s| ==> s[j] == b[0];
    BareDefaultAt(s, |sp|, j, rule);
  }

  /** A default whose value holds no quote, comma or parenthesis is deleted up to the next comma. */
  lemma StripBareDefault(sp: string, expr: string, b: string, rule: DefaultRule)
    requires AllSpace(sp)
    requires forall i :: 0 <= i < |expr| ==> !StopsRun(expr[i], QuoteAware)
    requires b == [] || b[0] == ',' || b[0] == ')'
    ensures Strip(sp + "=" + expr + b, rule) == Strip(b, rule)
  {
    var s := sp + "=" + expr + b;
    var n := |sp| + 1 + |expr|;
    BareDefaultMatch(sp, expr, b, rule);
    calc {
      Strip(s, rule);
    == { StripDeletes(s, rule, n); }
      Strip(s[n..], rule);
    == { assert s[n..] == b; }
      Strip(b, rule);
    }
  }
}
