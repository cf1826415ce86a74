/**
 * `getFunctionParameters`: recovers a callable's parameter names from its source text with four
 * regular expressions, each written here as a dedicated scanner that follows the backtracking
 * matcher's choices:
 *
 *  - the declaration pattern `^function\s*[^(]*\(\s*([^)]*?)\s*\)` (multiline),
 *  - the arrow pattern `^\s*\(?\s*([a-zA-Z0-9,]*?)\s*\)?\s*=>` (multiline),
 *  - the deletion pattern for line comments, block comments and `= default` initialisers,
 *  - the whitespace pattern `\s`,
 *
 * followed by `split(',')`.
 *
 * Every scanner reads the text at a position `i` and returns a length counted from `i` (or, for
 * the searches, a position), so that scanning never builds a new string.
 */
module ParameterParser {
  import opened Wrappers
  import opened Chars

  // ---------------------------------------------------------------------------------------
  // Scanning helpers

  /** Length of the whitespace run at `i` (a greedy `\s*`). */
  function SpaceRunAt(s: string, i: nat): (n: nat)
    requires i <= |s|
    ensures i + n <= |s|
    ensures i + n == |s| || !IsSpace(s[i + n])
    decreases |s| - i
  {
    if i < |s| && IsSpace(s[i]) then 1 + SpaceRunAt(s, i + 1) else 0
  }

  /** The whitespace run stops at the first other character. */
  lemma {:induction false} SpaceRunStops(s: string, i: nat, k: nat)
    requires i <= k < |s| && !IsSpace(s[k])
    ensures i + SpaceRunAt(s, i) <= k
    decreases k - i
  {
    if i < k && IsSpace(s[i]) {
      SpaceRunStops(s, i + 1, k);
    }
  }

  /** Length of the whitespace run that ends at `hi`, not reaching below `lo`. */
  function SpaceRunBefore(s: string, lo: nat, hi: nat): (n: nat)
    requires lo <= hi <= |s|
    ensures lo <= hi - n
    ensures hi - n == lo || !IsSpace(s[hi - n - 1])
    decreases hi - lo
  {
    if lo < hi && IsSpace(s[hi - 1]) then 1 + SpaceRunBefore(s, lo, hi - 1) else 0
  }

  /** The first position at or after `i` holding `c`. */
  function IndexFrom(s: string, i: nat, c: char): (r: Option<nat>)
    requires i <= |s|
    ensures r.Some? ==> i <= r.value < |s| && s[r.value] == c
    ensures r.Some? ==> forall k :: i <= k < r.value ==> s[k] != c
    ensures r.None? ==> forall k :: i <= k < |s| ==> s[k] != c
    decreases |s| - i
  {
    if i == |s| then None
    else if s[i] == c then Some(i)
    else IndexFrom(s, i + 1, c)
  }

  /** The position after the first line terminator at or after `i`: where `^` matches next. */
  function NextLineFrom(t: string, i: nat): (r: Option<nat>)
    requires i <= |t|
    ensures r.Some? ==> i < r.value <= |t|
    decreases |t| - i
  {
    if i == |t| then None
    else if IsLineTerminator(t[i]) then Some(i + 1)
    else NextLineFrom(t, i + 1)
  }

  // ---------------------------------------------------------------------------------------
  // The two signature patterns

  datatype Pattern = FunctionPattern | ArrowPattern

  /** The bounds of `t[lo..hi]` without its surrounding whitespace, where `t[hi]` is not whitespace. */
  function TrimBounds(t: string, lo: nat, hi: nat): (b: (nat, nat))
    requires lo <= hi < |t| && !IsSpace(t[hi])
    ensures lo <= b.0 <= b.1 <= hi
    ensures b.0 == b.1 || (!IsSpace(t[b.0]) && !IsSpace(t[b.1 - 1]))
  {
    SpaceRunStops(t, lo, hi);
    var a := lo + SpaceRunAt(t, lo);
    (a, hi - SpaceRunBefore(t, a, hi))
  }

  /** `\(\s*([^)]*?)\s*\)` between the `(` at `o` and the first `)` after it, at `c`. */
  function Enclosed(t: string, o: nat, c: nat): (r: string)
    requires o < c < |t| && t[c] == ')'
    requires forall k :: o < k < c ==> t[k] != ')'
    ensures ')' !in r
    ensures r == [] || (!IsSpace(r[0]) && !IsSpace(r[|r| - 1]))
  {
    var (lo, hi) := TrimBounds(t, o + 1, c);
    var inner := t[lo..hi];
    assert forall k :: 0 <= k < |inner| ==> inner[k] == t[lo + k] && t[lo + k] != ')';
    inner
  }

  /**
   * `function\s*[^(]*\(\s*([^)]*?)\s*\)` anchored at `i`: the text between the first `(` after the
   * keyword and the first `)` after that, without its surrounding whitespace.
   */
  function FunctionAt(t: string, i: nat): (r: Option<string>)
    requires i <= |t|
    ensures r.Some? ==> ')' !in r.value
    ensures r.Some? ==> r.value == [] || (!IsSpace(r.value[0]) && !IsSpace(r.value[|r.value| - 1]))
  {
    if i + 8 <= |t| && t[i..i + 8] == "function" then
      match IndexFrom(t, i + 8, '(')
      case None => None
      case Some(o) =>
        match IndexFrom(t, o + 1, ')')
        case None => None
        case Some(c) => Some(Enclosed(t, o, c))
    else None
  }

  /** Length of the run of `[a-zA-Z0-9,]` at `i`. */
  function ArrowRunAt(s: string, i: nat): (n: nat)
    requires i <= |s|
    ensures i + n <= |s|
    ensures i + n == |s| || !IsArrowChar(s[i + n])
    decreases |s| - i
  {
    if i < |s| && IsArrowChar(s[i]) then 1 + ArrowRunAt(s, i + 1) else 0
  }

  lemma {:induction false} ArrowRunChars(s: string, i: nat)
    requires i <= |s|
    ensures forall k :: i <= k < i + ArrowRunAt(s, i) ==> IsArrowChar(s[k])
    decreases |s| - i
  {
    if i < |s| && IsArrowChar(s[i]) {
      ArrowRunChars(s, i + 1);
    }
  }

  /** The run of `[a-zA-Z0-9,]` at `c`, as text. */
  function ArrowNamesAt(t: string, c: nat): (r: string)
    requires c <= |t|
    ensures |r| == ArrowRunAt(t, c)
    ensures forall k :: 0 <= k < |r| ==> IsArrowChar(r[k])
  {
    var names := t[c..c + ArrowRunAt(t, c)];
    ArrowRunChars(t, c);
    assert forall k :: 0 <= k < |names| ==> names[k] == t[c + k];
    names
  }

  /** The position after an optional `c` at `i`. */
  function SkipChar(t: string, i: nat, c: char): (j: nat)
    requires i <= |t|
    ensures i <= j <= |t|
  {
    if i < |t| && t[i] == c then i + 1 else i
  }

  /**
   * `\s*\(?\s*([a-zA-Z0-9,]*?)\s*\)?\s*=>` anchored at `i`. Every quantifier here has one
   * successful choice at most, so the first match is found by taking each greedily.
   */
  function ArrowAt(t: string, i: nat): (r: Option<string>)
    requires i <= |t|
    ensures r.Some? ==> forall k :: 0 <= k < |r.value| ==> IsArrowChar(r.value[k])
  {
    var a := i + SpaceRunAt(t, i);
    var b := SkipChar(t, a, '(');
    var c := b + SpaceRunAt(t, b);
    var n := ArrowRunAt(t, c);
    var d := c + n + SpaceRunAt(t, c + n);
    var e := SkipChar(t, d, ')');
    var g := e + SpaceRunAt(t, e);
    if g + 2 <= |t| && t[g] == '=' && t[g + 1] == '>' then Some(ArrowNamesAt(t, c))
    else None
  }

  function MatchAt(t: string, i: nat, p: Pattern): Option<string>
    requires i <= |t|
  {
    match p
    case FunctionPattern => FunctionAt(t, i)
    case ArrowPattern => ArrowAt(t, i)
  }

  /** `source.match(pattern)[1]` for a multiline pattern: tried at each line start from `i` on. */
  function SearchFrom(t: string, i: nat, p: Pattern): Option<string>
    requires i <= |t|
    decreases |t| - i
  {
    match MatchAt(t, i, p)
    case Some(c) => Some(c)
    case None =>
      match NextLineFrom(t, i)
      case None => None
      case Some(j) => SearchFrom(t, j, p)
  }

  /** `source.match(functionRegex) || source.match(lambdaRegex)`, then its capture. */
  function RawCapture(src: string): Option<string>
  {
    match SearchFrom(src, 0, FunctionPattern)
    case Some(c) => Some(c)
    case None => SearchFrom(src, 0, ArrowPattern)
  }

  // ---------------------------------------------------------------------------------------
  // The deletion pattern
  //
  //   (\/\/.*$) | (\/\*[\s\S]*?\*\/) | (\s*=[^,)]*(QUOTED)) | (\s*=[^,)]*)
  //
  // where QUOTED is `'(?:\\'|[^'\r\n])*'` or the same with `"`.

  /**
   * AsWritten is the pattern in the library. QuoteAware stops the run before a default's value
   * at a quote as well, `\s*=[^,)'"]*(QUOTED)`, so a string value is matched from its opening quote.
   */
  datatype DefaultRule = AsWritten | QuoteAware

  /** `.*$` at `i`: the length up to the next line terminator. */
  function LineEndAt(s: string, i: nat): (n: nat)
    requires i <= |s|
    ensures i + n <= |s|
    ensures i + n == |s| || IsLineTerminator(s[i + n])
    decreases |s| - i
  {
    if i < |s| && !IsLineTerminator(s[i]) then 1 + LineEndAt(s, i + 1) else 0
  }

  // `[\s\S]*?\*\/` at `i`: how far the first star-slash pair lies.
  function BlockEndAt(s: string, i: nat): (r: Option<nat>)
    requires i <= |s|
    ensures r.Some? ==> i + r.value + 2 <= |s|
    decreases |s| - i
  {
    if i + 2 > |s| then None
    else if s[i] == '*' && s[i + 1] == '/' then Some(0)
    else
      match BlockEndAt(s, i + 1)
      case None => None
      case Some(k) => Some(k + 1)
  }

  predicate StopsRun(c: char, rule: DefaultRule)
  {
    c == ',' || c == ')' || (rule == QuoteAware && (c == '\'' || c == '"'))
  }

  /** The greedy run `[^,)]*` (or `[^,)'"]*`) at `i`. */
  function RunLenAt(s: string, i: nat, rule: DefaultRule): (n: nat)
    requires i <= |s|
    ensures i + n <= |s|
    ensures i + n == |s| || StopsRun(s[i + n], rule)
    decreases |s| - i
  {
    if i < |s| && !StopsRun(s[i], rule) then 1 + RunLenAt(s, i + 1, rule) else 0
  }

  /**
   * The body and closing quote of a quoted value whose body starts at `j`:
   * `(?:\\q|[^q\r\n])*q`. `off` body characters are already consumed and `lastEsc` is the offset
   * of the last `\q` pair's quote. The loop is greedy; when it cannot be followed by `q`,
   * backtracking reads the last `\` of a `\q` pair as an ordinary character and closes on its
   * quote. The result counts from `j`.
   */
  function CloseQuoteAt(s: string, j: nat, q: char, off: nat, lastEsc: Option<nat>): (r: Option<nat>)
    requires j + off <= |s|
    requires lastEsc.Some? ==> lastEsc.value < off
    ensures r.Some? ==> 0 < r.value && j + r.value <= |s|
    decreases |s| - j - off
  {
    var p := j + off;
    if p + 2 <= |s| && s[p] == '\\' && s[p + 1] == q then CloseQuoteAt(s, j, q, off + 2, Some(off + 1))
    else if p < |s| && s[p] != q && s[p] != '\r' && s[p] != '\n' then
      CloseQuoteAt(s, j, q, off + 1, lastEsc)
    else if p < |s| && s[p] == q then Some(off + 1)
    else if lastEsc.Some? then Some(lastEsc.value + 1)
    else None
  }

  /** The length of the quoted value at `i`, with `q` as its quote. */
  function QuotedLenAt(s: string, i: nat, q: char): (r: Option<nat>)
    requires i <= |s|
    ensures r.Some? ==> 0 < r.value && i + r.value <= |s|
  {
    if i < |s| && s[i] == q then
      match CloseQuoteAt(s, i + 1, q, 0, None)
      case Some(n) => Some(n + 1)
      case None => None
    else None
  }

  /**
   * The quoted group after the run that starts at `i`: tried where the run ends (`e` characters
   * on), then one character earlier, and so on (the greedy run backtracking); single quotes
   * before double quotes at each place. The result counts from `i`.
   */
  function QuotedFromAt(s: string, i: nat, e: nat): (r: Option<nat>)
    requires i + e <= |s|
    ensures r.Some? ==> i + r.value <= |s|
    decreases e
  {
    match QuotedLenAt(s, i + e, '\'')
    case Some(n) => Some(e + n)
    case None =>
      match QuotedLenAt(s, i + e, '"')
      case Some(n) => Some(e + n)
      case None => if e == 0 then None else QuotedFromAt(s, i, e - 1)
  }

  /**
   * What the third and fourth alternatives match after `\s*=`, from `i`: the run followed by a
   * quoted value if one fits (the run giving back characters as needed), or else the library's
   * bare run.
   */
  function DefaultLenAt(s: string, i: nat, rule: DefaultRule): (n: nat)
    requires i <= |s|
    ensures i + n <= |s|
  {
    match QuotedFromAt(s, i, RunLenAt(s, i, rule))
    case Some(n) => n
    case None => RunLenAt(s, i, AsWritten)
  }

  /** The length of the deletion pattern's match at `i`, if it matches there. */
  function TryMatchAt(s: string, i: nat, rule: DefaultRule): (r: Option<nat>)
    requires i <= |s|
    ensures r.Some? ==> 0 < r.value && i + r.value <= |s|
  {
    if i + 2 <= |s| && s[i] == '/' && s[i + 1] == '/' then Some(2 + LineEndAt(s, i + 2))
    else if i + 2 <= |s| && s[i] == '/' && s[i + 1] == '*' && BlockEndAt(s, i + 2).Some? then
      Some(4 + BlockEndAt(s, i + 2).value)
    else
      var w := SpaceRunAt(s, i);
      if i + w < |s| && s[i + w] == '=' then Some(w + 1 + DefaultLenAt(s, i + w + 1, rule))
      else None
  }

  /** `s.replace(commentsRegex, '')`: every match, searched left to right, is deleted. */
  function Strip(s: string, rule: DefaultRule): string
    decreases |s|
  {
    if s == [] then []
    else
      match TryMatchAt(s, 0, rule)
      case Some(n) => Strip(s[n..], rule)
      case None => [s[0]] + Strip(s[1..], rule)
  }

  /** `s.replace(/\s/g, '')`. */
  function RemoveSpaces(s: string): (r: string)
    ensures NoSpace(r)
  {
    if s == [] then []
    else
      var r := (if IsSpace(s[0]) then [] else [s[0]]) + RemoveSpaces(s[1..]);
      r
  }

  // ---------------------------------------------------------------------------------------
  // split(',') and join(',')

  /** `parts.join(',')`. */
  function Join(parts: seq<string>): string
  {
    if parts == [] then ""
    else if |parts| == 1 then parts[0]
    else parts[0] + "," + Join(parts[1..])
  }

  /** `s.split(',')`: never empty, joins back to `s`, and no part holds a comma. */
  function Split(s: string): (parts: seq<string>)
    ensures |parts| >= 1 && Join(parts) == s
    ensures forall i :: 0 <= i < |parts| ==> ',' !in parts[i]
    ensures NoSpace(s) ==> forall i :: 0 <= i < |parts| ==> NoSpace(parts[i])
    decreases |s|
  {
    match IndexFrom(s, 0, ',')
    case None => [s]
    case Some(i) =>
      var tail := s[i + 1..];
      var rest := Split(tail);
      var parts := [s[..i]] + rest;
      assert parts[1..] == rest;
      assert s == s[..i] + "," + tail;
      assert ',' !in s[..i] by {
        assert forall k :: 0 <= k < i ==> s[..i][k] == s[k];
      }
      assert NoSpace(s) ==> NoSpace(s[..i]) && NoSpace(tail) by {
        if NoSpace(s) {
          forall k | 0 <= k < |tail| ensures !IsSpace(tail[k]) {
            assert tail[k] == s[i + 1 + k];
          }
        }
      }
      parts
  }

  // ---------------------------------------------------------------------------------------
  // getFunctionParameters

  /**
   * The parameter names of the callable whose source text is `src`, or `None` when neither
   * signature pattern matches (the host then throws a TypeError reading `null[1]`). An empty
   * capture gives no names; otherwise the capture is stripped, its whitespace removed, and the
   * rest split at commas.
   */
  function ParametersWith(src: string, rule: DefaultRule): (r: Option<seq<string>>)
    ensures r.None? <==> RawCapture(src).None?
    ensures r.Some? && RawCapture(src).value == [] ==> r.value == []
    ensures r.Some? && RawCapture(src).value != [] ==>
      |r.value| >= 1 &&
      Join(r.value) == RemoveSpaces(Strip(RawCapture(src).value, rule)) &&
      forall i :: 0 <= i < |r.value| ==> NoSpace(r.value[i]) && ',' !in r.value[i]
  {
    match RawCapture(src)
    case None => None
    case Some(raw) =>
      if |raw| > 0 then Some(Split(RemoveSpaces(Strip(raw, rule)))) else Some([])
  }

  /** `getFunctionParameters` as the library writes it. */
  function GetFunctionParametersAsWritten(src: string): Option<seq<string>>
  {
    ParametersWith(src, AsWritten)
  }

  /** `getFunctionParameters` with a quoted default matched from its opening quote. */
  function GetFunctionParameters(src: string): Option<seq<string>>
  {
    ParametersWith(src, QuoteAware)
  }
}
