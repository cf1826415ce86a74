/**
 * `typeOf`: the host renders a value as the descriptor `"[object X]"`; the library takes the
 * first run of letters after a whitespace character and lowercases it.
 */
module TypeClassifier {
  import opened Wrappers
  import opened Chars
  import opened HostValues

  /** The word the host writes after `"[object "` for each kind of value. */
  function ClassName(v: Value): string
  {
    match v
    case Undefined => "Undefined"
    case Null => "Null"
    case Str(_) => "String"
    case Num(_) => "Number"
    case Bool(_) => "Boolean"
    case Array(_) => "Array"
    case Date(_) => "Date"
    case RegExp(_) => "RegExp"
    case Error(_) => "Error"
    case Function(_, _) => "Function"
    case Object(_, _) => "Object"
  }

  /** `({}).toString.call(v)`. */
  function Descriptor(v: Value): string
  {
    "[object " + ClassName(v) + "]"
  }

  /** Length of the run of letters at `i` (a greedy `[a-zA-Z]+` once its first letter is seen). */
  function LetterRunAt(s: string, i: nat): (n: nat)
    requires i <= |s|
    ensures i + n <= |s|
    ensures i + n == |s| || !IsLetter(s[i + n])
    decreases |s| - i
  {
    if i < |s| && IsLetter(s[i]) then 1 + LetterRunAt(s, i + 1) else 0
  }

  lemma {:induction false} LetterRunLetters(s: string, i: nat)
    requires i <= |s|
    ensures forall k :: i <= k < i + LetterRunAt(s, i) ==> IsLetter(s[k])
    decreases |s| - i
  {
    if i < |s| && IsLetter(s[i]) {
      LetterRunLetters(s, i + 1);
    }
  }

  /** The letters at `j`, as text. */
  function LettersAt(s: string, j: nat): (r: string)
    requires j <= |s|
    ensures |r| == LetterRunAt(s, j) && AllLetters(r)
  {
    var w := s[j..j + LetterRunAt(s, j)];
    LetterRunLetters(s, j);
    assert forall k :: 0 <= k < |w| ==> w[k] == s[j + k];
    w
  }

  /**
   * The capture of `/\s([a-zA-Z]+)/` searched from `i` on: the letters after the first whitespace
   * character that a letter follows, or `None` when the pattern does not match.
   */
  function WordAt(s: string, i: nat): (r: Option<string>)
    requires i <= |s|
    ensures r.Some? ==> |r.value| > 0 && AllLetters(r.value)
    decreases |s| - i
  {
    if i + 2 > |s| then None
    else if IsSpace(s[i]) && IsLetter(s[i + 1]) then Some(LettersAt(s, i + 1))
    else WordAt(s, i + 1)
  }

  /** `s.match(/\s([a-zA-Z]+)/)[1]`, or `None` where `match` gives `null`. */
  function DescriptorWord(s: string): (r: Option<string>)
    ensures r.Some? ==> |r.value| > 0 && AllLetters(r.value)
  {
    WordAt(s, 0)
  }

  function LowerChar(c: char): char
  {
    if 'A' <= c <= 'Z' then (c as int + 32) as char else c
  }

  /** `String.prototype.toLowerCase` on letters. */
  function Lower(s: string): (r: string)
    ensures |r| == |s|
  {
    seq(|s|, i requires 0 <= i < |s| => LowerChar(s[i]))
  }

  /** `typeOf(v)`. */
  function TypeOf(v: Value): string
  {
    match DescriptorWord(Descriptor(v))
    case Some(w) => Lower(w)
    case None => ""
  }

  /** The closed vocabulary of tags. */
  const Tags: set<string> :=
    {"undefined", "null", "string", "number", "boolean", "array", "date", "regexp", "error",
     "function", "object"}

  // ---------------------------------------------------------------------------------------

  /** The search passes over characters that are not whitespace. */
  lemma {:induction false} WordSkips(s: string, i: nat, j: nat)
    requires i <= j && j + 2 <= |s|
    requires forall k :: i <= k < j ==> !IsSpace(s[k])
    ensures WordAt(s, i) == WordAt(s, j)
    decreases j - i
  {
    if i < j {
      WordSkips(s, i + 1, j);
    }
  }

  lemma {:induction false} LetterRunSpan(s: string, i: nat, j: nat)
    requires i <= j <= |s|
    requires forall k :: i <= k < j ==> IsLetter(s[k])
    requires j == |s| || !IsLetter(s[j])
    ensures LetterRunAt(s, i) == j - i
    decreases j - i
  {
    if i < j {
      LetterRunSpan(s, i + 1, j);
    }
  }

  /** The pattern finds exactly the class word in a host descriptor. */
  lemma DescriptorWordOf(w: string)
    requires |w| > 0 && AllLetters(w)
    ensures DescriptorWord("[object " + w + "]") == Some(w)
  {
    var s := "[object " + w + "]";
    var e := 8 + |w|;
    assert forall k :: 0 <= k < 7 ==> s[k] == "[object"[k];
    assert forall k :: 0 <= k < 7 ==> !IsSpace(s[k]);
    assert forall k :: 8 <= k < e ==> s[k] == w[k - 8];
    assert s[7] == ' ' && s[8] == w[0] && s[e] == ']';
    WordSkips(s, 0, 7);
    LetterRunSpan(s, 8, e);
    assert s[8..e] == w;
  }

  /** The lowercase tag the library documents for each kind of value. */
  function DocumentedTag(v: Value): (tag: string)
    ensures tag in Tags
  {
    match v
    case Undefined => "undefined"
    case Null => "null"
    case Str(_) => "string"
    case Num(_) => "number"
    case Bool(_) => "boolean"
    case Array(_) => "array"
    case Date(_) => "date"
    case RegExp(_) => "regexp"
    case Error(_) => "error"
    case Function(_, _) => "function"
    case Object(_, _) => "object"
  }

  lemma ClassNameIsWord(v: Value)
    ensures AllLetters(ClassName(v)) && |ClassName(v)| > 0
  {
  }

  lemma LowerClassName(v: Value)
    ensures Lower(ClassName(v)) == DocumentedTag(v)
  {
    if v.Undefined? || v.Null? || v.Str? || v.Num? || v.Bool? {
      LowerPrimitiveClassName(v);
    } else {
      LowerBuiltinClassName(v);
    }
  }

  lemma LowerPrimitiveClassName(v: Value)
    requires v.Undefined? || v.Null? || v.Str? || v.Num? || v.Bool?
    ensures Lower(ClassName(v)) == DocumentedTag(v)
  {
    match v
    case Undefined => assert Lower("Undefined") == "undefined";
    case Null => assert Lower("Null") == "null";
    case Str(_) => assert Lower("String") == "string";
    case Num(_) => assert Lower("Number") == "number";
    case Bool(_) => assert Lower("Boolean") == "boolean";
  }

  lemma LowerBuiltinClassName(v: Value)
    requires !(v.Undefined? || v.Null? || v.Str? || v.Num? || v.Bool?)
    ensures Lower(ClassName(v)) == DocumentedTag(v)
  {
    match v
    case Array(_) => assert Lower("Array") == "array";
    case Date(_) => assert Lower("Date") == "date";
    case RegExp(_) => assert Lower("RegExp") == "regexp";
    case Error(_) => assert Lower("Error") == "error";
    case Function(_, _) => assert Lower("Function") == "function";
    case Object(_, _) => assert Lower("Object") == "object";
  }

  /**
   * `typeOf` is total: the pattern always finds the class word, so the result is that word
   * lowercased, which is the documented tag of the value's kind.
   */
  lemma TypeOfIsLoweredClassName(v: Value)
    ensures DescriptorWord(Descriptor(v)) == Some(ClassName(v))
    ensures TypeOf(v) == Lower(ClassName(v)) == DocumentedTag(v)
    ensures TypeOf(v) in Tags
  {
    LowerClassName(v);
    ClassNameIsWord(v);
    DescriptorWordOf(ClassName(v));
  }

  /** The tag is `'function'` exactly for the plain functions, the only callables of `Value`. */
  lemma TypeOfFunction(v: Value)
    ensures TypeOf(v) == "function" <==> v.Function?
  {
    TypeOfIsLoweredClassName(v);
  }

  /** The tag is `'object'` exactly for composites: arrays, dates, errors and so on are not. */
  lemma TypeOfObject(v: Value)
    ensures TypeOf(v) == "object" <==> v.Object?
  {
    TypeOfIsLoweredClassName(v);
  }
}
