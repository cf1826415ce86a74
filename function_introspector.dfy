/**
 * `Func`: a wrapper around one callable that reports the callable's declared name and the names
 * of its parameters, read from its source text.
 */
module FunctionIntrospector {
  import opened Wrappers
  import opened Chars
  import opened HostValues
  import opened TypeClassifier
  import opened ReflectionErrors
  import opened ParameterParser
  import opened ParameterLists

  /**
   * `getFunctionParameters(source)` as the library's callers see it: the parameter names, or the
   * host's `TypeError` when neither signature pattern matches (`match[1]` on `null`). It reads a
   * quoted default from its opening quote (`QuoteAware`); `DeclarationParametersOf` shows where
   * this agrees with the library's own pattern.
   */
  function ParametersOf(source: string): (r: Result<seq<string>, Thrown>)
    ensures r.Failure? <==> RawCapture(source).None?
    ensures r.Failure? ==> r.error == HostTypeError
    ensures r.Success? ==> (r.value == [] <==> RawCapture(source).value == [])
    ensures r.Success? && RawCapture(source).value != [] ==>
      Join(r.value) == RemoveSpaces(Strip(RawCapture(source).value, QuoteAware))
    ensures r.Success? ==> forall i :: 0 <= i < |r.value| ==> NoSpace(r.value[i]) && ',' !in r.value[i]
  {
    match GetFunctionParameters(source)
    case Some(names) => Success(names)
    case None => Failure(HostTypeError)
  }

  /**
   * The source text of a declaration `function<head>(<list>)<tail>` yields exactly its declared
   * names; the library's own pattern yields the same names whenever every quoted default holds
   * a `,`.
   */
  lemma DeclarationParametersOf(head: string, ps: seq<Param>, tail: string)
    requires '(' !in head && AllWellFormed(ps)
    ensures ParametersOf(Declaration(head, ps, tail)) == Success(Names(ps))
    ensures QuotedHoldCommas(ps) ==> GetFunctionParametersAsWritten(Declaration(head, ps, tail)) == Some(Names(ps))
  {
    CorrectedDeclaration(head, ps, tail);
    if QuotedHoldCommas(ps) {
      DeclarationParameters(head, ps, tail, AsWritten);
    }
  }

  class Func {
    /** `_func`: the wrapped callable, set once by the constructor. */
    const func: Value

    constructor(v: Value)
      requires TypeOf(v) == "function"
      ensures func == v && Valid()
    {
      func := v;
      TypeOfFunction(v);
    }

    /** The wrapped value is a callable. */
    predicate Valid()
    {
      func.Function?
    }

    /** `new Func(v)`: throws `FuncNotFunctionError` unless `v` is tagged `'function'`. */
    static method Create(v: Value) returns (r: Result<Func, ReflectionError>)
      ensures r.Failure? <==> TypeOf(v) != "function"
      ensures r.Failure? ==> r.error == FuncNotFunctionError
      ensures r.Success? ==> fresh(r.value) && r.value.func == v && r.value.Valid()
    {
      if TypeOf(v) != "function" {
        return Failure(FuncNotFunctionError);
      }
      var f := new Func(v);
      return Success(f);
    }

    /** `getName()`: the callable's declared name. */
    function GetName(): (name: string)
      requires Valid()
      ensures Function(name, func.source) == func
    {
      func.name
    }

    /**
     * `getParameters()`: the parameter names read from the callable's source text; the host's
     * `TypeError` when neither signature pattern matches it.
     */
    function GetParameters(): (r: Result<seq<string>, Thrown>)
      requires Valid()
      ensures r == ParametersOf(func.source)
      ensures r.Failure? <==> RawCapture(func.source).None?
      ensures r.Failure? ==> r.error == HostTypeError
      ensures r.Success? ==> forall i :: 0 <= i < |r.value| ==> NoSpace(r.value[i]) && ',' !in r.value[i]
    {
      ParametersOf(func.source)
    }
  }

  /** `getParameters()` on a callable declared as `function<head>(<list>)<tail>` lists its names. */
  lemma FuncDeclarationParameters(f: Func, head: string, ps: seq<Param>, tail: string)
    requires f.Valid() && f.func.source == Declaration(head, ps, tail)
    requires '(' !in head && AllWellFormed(ps)
    ensures f.GetParameters() == Success(Names(ps))
    ensures QuotedHoldCommas(ps) ==> GetFunctionParametersAsWritten(f.func.source) == Some(Names(ps))
  {
    DeclarationParametersOf(head, ps, tail);
  }
}
