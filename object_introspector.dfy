/**
 * `Obj`: a wrapper around one object that answers questions about its members, either over the
 * object's own layer only or over its whole prototype chain.
 */
module ObjectIntrospector {
  import opened Wrappers
  import opened Chars
  import opened HostValues
  import opened TypeClassifier
  import opened ReflectionErrors
  import opened ParameterParser
  import opened FunctionIntrospector
  import opened ParameterLists

  /**
   * `includePrototype === undefined || includePrototype === true`: an omitted flag or `true`
   * selects the whole chain; any other value, `false` included, selects the own layer.
   */
  predicate ChainScope(includePrototype: Value)
  {
    includePrototype == Undefined || includePrototype == Bool(true)
  }

  /** Which names an enumeration keeps. */
  datatype Selection = Methods | Properties | PropertiesAndMethods

  /** `xs` is `ys` with some elements left out and the rest in their order. */
  predicate IsSubsequence(xs: seq<string>, ys: seq<string>)
    decreases |ys|
  {
    if xs == [] then true
    else if ys == [] then false
    else if xs[0] == ys[0] then IsSubsequence(xs[1..], ys[1..])
    else IsSubsequence(xs, ys[1..])
  }

  class Obj {
    /** `_obj`: the wrapped object, set once by the constructor. */
    const target: Value

    constructor(v: Value)
      requires v != Null && TypeOf(v) == "object"
      ensures target == v && target.Object?
    {
      target := v;
      TypeOfObject(v);
    }

    /**
     * `new Obj(v)`: throws `ObjNotObjectError` when `v` is `null` or not tagged `'object'`, so
     * arrays, dates, regular expressions, errors and callables are all refused.
     */
    static method Create(v: Value) returns (r: Result<Obj, ReflectionError>)
      ensures r.Failure? <==> v == Null || TypeOf(v) != "object"
      ensures r.Failure? ==> r.error == ObjNotObjectError
      ensures r.Success? ==> fresh(r.value) && r.value.target == v && v.Object?
    {
      if v == Null || TypeOf(v) != "object" {
        return Failure(ObjNotObjectError);
      }
      var o := new Obj(v);
      return Success(o);
    }

    /** The wrapped object's layers, own layer first. */
    function Layers(): seq<Layer>
    {
      LayersOf(target)
    }

    /** `name in this._obj` for the chain scope, `this._obj.hasOwnProperty(name)` otherwise. */
    predicate Present(name: string, includePrototype: Value)
    {
      if ChainScope(includePrototype) then InChain(Layers(), name) else HasOwn(Layers(), name)
    }

    /** `hasProperty(property, includePrototype)`: present, and not tagged `'function'`. */
    predicate HasProperty(property: string, includePrototype: Value)
    {
      Present(property, includePrototype) && TypeOf(Get(Layers(), property)) != "function"
    }

    /** `hasMethod(name, includePrototype)`: present, and tagged `'function'`. */
    predicate HasMethod(name: string, includePrototype: Value)
    {
      Present(name, includePrototype) && TypeOf(Get(Layers(), name)) == "function"
    }

    /** The check each enumeration applies to one name. */
    predicate Selects(s: Selection, name: string, includePrototype: Value)
    {
      match s
      case Methods => HasMethod(name, includePrototype)
      case Properties => HasProperty(name, includePrototype)
      case PropertiesAndMethods => HasProperty(name, includePrototype) || HasMethod(name, includePrototype)
    }

    /** The names the check keeps, in their order. */
    function Filtered(names: seq<string>, s: Selection, includePrototype: Value): seq<string>
    {
      if names == [] then []
      else
        var head := if Selects(s, names[0], includePrototype) then [names[0]] else [];
        head + Filtered(names[1..], s, includePrototype)
    }

    /** The `for…in` loop shared by the enumerations: push each name the check keeps. */
    method Collect(s: Selection, includePrototype: Value) returns (names: seq<string>)
      ensures names == Filtered(ForIn(Layers()), s, includePrototype)
    {
      var keys := ForIn(Layers());
      names := [];
      var i := 0;
      while i < |keys|
        invariant 0 <= i <= |keys|
        invariant names + Filtered(keys[i..], s, includePrototype) == Filtered(keys, s, includePrototype)
      {
        FilteredStep(this, keys, i, s, includePrototype);
        ghost var rest := Filtered(keys[i + 1..], s, includePrototype);
        if Selects(s, keys[i], includePrototype) {
          assert (names + [keys[i]]) + rest == names + ([keys[i]] + rest);
          names := names + [keys[i]];
        } else {
          assert [] + rest == rest;
        }
        i := i + 1;
      }
      assert keys[|keys|..] == [];
    }

    /** `getMethods(includePrototype)`. */
    method GetMethods(includePrototype: Value) returns (methods: seq<string>)
      ensures methods == Filtered(ForIn(Layers()), Methods, includePrototype)
    {
      methods := Collect(Methods, includePrototype);
    }

    /** `getProperties(includePrototype)`. */
    method GetProperties(includePrototype: Value) returns (properties: seq<string>)
      ensures properties == Filtered(ForIn(Layers()), Properties, includePrototype)
    {
      properties := Collect(Properties, includePrototype);
    }

    /** `getPropertiesAndMethods(includePrototype)`. */
    method GetPropertiesAndMethods(includePrototype: Value) returns (properties: seq<string>)
      ensures properties == Filtered(ForIn(Layers()), PropertiesAndMethods, includePrototype)
    {
      properties := Collect(PropertiesAndMethods, includePrototype);
    }

    /** `getPropertyOrMethod(propertyOrMethod, includePrototype)`: the name is never read. */
    method GetPropertyOrMethod(propertyOrMethod: string, includePrototype: Value) returns (properties: seq<string>)
      ensures properties == Filtered(ForIn(Layers()), PropertiesAndMethods, includePrototype)
    {
      properties := Collect(PropertiesAndMethods, includePrototype);
    }

    /** `getMethod(name, includePrototype)`. */
    function GetMethod(name: string, includePrototype: Value): (r: Result<Value, ReflectionError>)
      ensures r.Failure? <==> !HasMethod(name, includePrototype)
      ensures r.Failure? ==> r.error == ObjMethodNotExistError
      ensures r.Success? ==> r.value.Function? && InChain(Layers(), name)
    {
      if !HasMethod(name, includePrototype) then Failure(ObjMethodNotExistError)
      else
        TypeOfFunction(Get(Layers(), name));
        PresentInChain(this, name, includePrototype);
        Success(Get(Layers(), name))
    }

    /** `getProperty(property, includePrototype)`. */
    function GetProperty(property: string, includePrototype: Value): (r: Result<Value, ReflectionError>)
      ensures r.Failure? <==> !HasProperty(property, includePrototype)
      ensures r.Failure? ==> r.error == ObjPropertyNotExistError
      ensures r.Success? ==> !r.value.Function? && InChain(Layers(), property)
    {
      if !HasProperty(property, includePrototype) then Failure(ObjPropertyNotExistError)
      else
        TypeOfFunction(Get(Layers(), property));
        PresentInChain(this, property, includePrototype);
        Success(Get(Layers(), property))
    }

    /**
     * `getMethodParameters(name)`: always checked over the whole chain; the parameter names of
     * the method's source text, or the host's `TypeError` when that text matches no signature.
     */
    function GetMethodParameters(name: string): (r: Result<seq<string>, Thrown>)
      ensures r == Failure(Reflection(ObjMethodNotExistError)) <==> !HasMethod(name, Bool(true))
      ensures HasMethod(name, Bool(true)) ==>
        Get(Layers(), name).Function? && r == ParametersOf(Get(Layers(), name).source)
      ensures r.Failure? && HasMethod(name, Bool(true)) ==> r.error == HostTypeError
      ensures r.Success? ==> forall i :: 0 <= i < |r.value| ==> NoSpace(r.value[i]) && ',' !in r.value[i]
    {
      if !HasMethod(name, Bool(true)) then Failure(Reflection(ObjMethodNotExistError))
      else
        TypeOfFunction(Get(Layers(), name));
        ParametersOf(Get(Layers(), name).source)
    }

    /** `getConstructorParameters()`: the parameters of the `constructor` member. */
    function GetConstructorParameters(): (r: Result<seq<string>, Thrown>)
      ensures r == GetMethodParameters("constructor")
      ensures r == Failure(Reflection(ObjMethodNotExistError)) <==> !HasMethod("constructor", Bool(true))
      ensures r.Success? ==> forall i :: 0 <= i < |r.value| ==> NoSpace(r.value[i]) && ',' !in r.value[i]
    {
      GetMethodParameters("constructor")
    }

    /** `getConstructor()`: `this._obj.constructor`, `undefined` when the chain has none. */
    function GetConstructor(): (c: Value)
      ensures !InChain(Layers(), "constructor") ==> c == Undefined
    {
      Get(Layers(), "constructor")
    }

    /**
     * `getName()`: `this._obj.constructor.name`. A callable reports its declared name, an object
     * its own or inherited `name`, an error the `name` it inherits from `Error.prototype`;
     * reading a member of `undefined` or `null` throws the host's `TypeError`; the other
     * primitives and built-ins have no `name`.
     */
    function GetName(): (r: Result<Value, Thrown>)
      ensures r.Failure? <==> GetConstructor() == Undefined || GetConstructor() == Null
      ensures r.Failure? ==> r.error == HostTypeError
      ensures GetConstructor().Function? ==> r == Success(Str(GetConstructor().name))
      ensures GetConstructor().Object? ==> r == Success(Get(LayersOf(GetConstructor()), "name"))
      ensures GetConstructor().Error? ==> r == Success(Str("Error"))
      ensures (GetConstructor().Str? || GetConstructor().Num? || GetConstructor().Bool? ||
               GetConstructor().Array? || GetConstructor().Date? || GetConstructor().RegExp?) ==>
        r == Success(Undefined)
    {
      match GetConstructor()
      case Undefined => Failure(HostTypeError)
      case Null => Failure(HostTypeError)
      case Function(name, _) => Success(Str(name))
      case Object(own, protos) => Success(Get([own] + protos, "name"))
      case Error(_) => Success(Str("Error"))
      case _ => Success(Undefined)
    }
  }

  // ---------------------------------------------------------------------------------------
  // The two checks and their scopes

  /** A name the check finds, in either scope, is found in the chain. */
  lemma PresentInChain(o: Obj, name: string, includePrototype: Value)
    requires o.Present(name, includePrototype)
    ensures InChain(o.Layers(), name)
  {
    if !ChainScope(includePrototype) {
      OwnShadows(o.Layers(), name);
    }
  }

  /** No name is both a property and a method, whatever the scope. */
  lemma HasChecksExclusive(o: Obj, name: string, includePrototype: Value)
    ensures !(o.HasProperty(name, includePrototype) && o.HasMethod(name, includePrototype))
  {
  }

  /** An omitted flag behaves as `true`. */
  lemma OmittedScopeIsChain(o: Obj, name: string)
    ensures o.HasProperty(name, Undefined) == o.HasProperty(name, Bool(true))
    ensures o.HasMethod(name, Undefined) == o.HasMethod(name, Bool(true))
  {
  }

  /** The own scope finds a subset of what the chain scope finds. */
  lemma OwnScopeImpliesChainScope(o: Obj, name: string)
    ensures o.HasProperty(name, Bool(false)) ==> o.HasProperty(name, Bool(true))
    ensures o.HasMethod(name, Bool(false)) ==> o.HasMethod(name, Bool(true))
  {
    if HasOwn(o.Layers(), name) {
      OwnShadows(o.Layers(), name);
    }
  }

  /** A member is a property or a method exactly when it is present. */
  lemma MemberIsPropertyOrMethod(o: Obj, name: string, includePrototype: Value)
    ensures o.Selects(PropertiesAndMethods, name, includePrototype) <==> o.Present(name, includePrototype)
  {
  }

  /**
   * The accessors return the value of the nearest layer holding the name: an own member hides
   * every inherited member of that name.
   */
  lemma AccessorsReturnNearest(o: Obj, name: string, includePrototype: Value, k: nat)
    requires k < |o.Layers()|
    requires Find(o.Layers()[k], name).Some?
    requires forall j :: 0 <= j < k ==> Find(o.Layers()[j], name).None?
    ensures o.GetMethod(name, includePrototype).Success? ==>
      o.GetMethod(name, includePrototype).value == Find(o.Layers()[k], name).value.value
    ensures o.GetProperty(name, includePrototype).Success? ==>
      o.GetProperty(name, includePrototype).value == Find(o.Layers()[k], name).value.value
  {
    FirstLayerWins(o.Layers(), name, k);
  }

  // ---------------------------------------------------------------------------------------
  // The enumerations

  /** One step of the enumeration loop. */
  lemma FilteredStep(o: Obj, names: seq<string>, i: nat, s: Selection, includePrototype: Value)
    requires i < |names|
    ensures o.Filtered(names[i..], s, includePrototype) ==
      (if o.Selects(s, names[i], includePrototype) then [names[i]] else []) + o.Filtered(names[i + 1..], s, includePrototype)
  {
    assert names[i..][1..] == names[i + 1..];
  }

  /** A name is kept exactly when it is enumerated and passes the check. */
  lemma {:induction false} FilteredMembers(o: Obj, names: seq<string>, s: Selection, includePrototype: Value, x: string)
    ensures x in o.Filtered(names, s, includePrototype) <==> x in names && o.Selects(s, x, includePrototype)
  {
    if names != [] {
      FilteredMembers(o, names[1..], s, includePrototype, x);
      assert names == [names[0]] + names[1..];
    }
  }

  /** What is kept is an order-preserving subsequence of what was enumerated. */
  lemma {:induction false} FilteredSubsequence(o: Obj, names: seq<string>, s: Selection, includePrototype: Value)
    ensures IsSubsequence(o.Filtered(names, s, includePrototype), names)
  {
    if names != [] {
      FilteredSubsequence(o, names[1..], s, includePrototype);
      var rest := o.Filtered(names[1..], s, includePrototype);
      if o.Selects(s, names[0], includePrototype) {
        assert o.Filtered(names, s, includePrototype) == [names[0]] + rest;
        assert ([names[0]] + rest)[1..] == rest;
      } else {
        assert o.Filtered(names, s, includePrototype) == rest;
        if rest != [] {
          FilteredMembers(o, names[1..], s, includePrototype, rest[0]);
          assert rest[0] != names[0];
        }
      }
    }
  }

  /** No name is kept twice when none was enumerated twice. */
  lemma {:induction false} FilteredUnique(o: Obj, names: seq<string>, s: Selection, includePrototype: Value)
    requires NoDuplicates(names)
    ensures NoDuplicates(o.Filtered(names, s, includePrototype))
  {
    if names != [] {
      NoDuplicatesTail(names);
      FilteredUnique(o, names[1..], s, includePrototype);
      if o.Selects(s, names[0], includePrototype) {
        FilteredMembers(o, names[1..], s, includePrototype, names[0]);
        NoDuplicatesCons(names[0], o.Filtered(names[1..], s, includePrototype));
      }
    }
  }

  /** Properties and methods never overlap, so the combined list is as long as the two lists. */
  lemma {:induction false} FilteredLengths(o: Obj, names: seq<string>, includePrototype: Value)
    ensures |o.Filtered(names, PropertiesAndMethods, includePrototype)|
      == |o.Filtered(names, Properties, includePrototype)| + |o.Filtered(names, Methods, includePrototype)|
  {
    if names != [] {
      FilteredLengths(o, names[1..], includePrototype);
      HasChecksExclusive(o, names[0], includePrototype);
    }
  }

  /**
   * The names an enumeration returns: each at most once, and exactly those found in the chain
   * whose nearest entry is enumerable and which pass the enumeration's check.
   */
  lemma EnumerationCharacterization(o: Obj, s: Selection, includePrototype: Value, x: string)
    ensures NoDuplicates(o.Filtered(ForIn(o.Layers()), s, includePrototype))
    ensures IsSubsequence(o.Filtered(ForIn(o.Layers()), s, includePrototype), ForIn(o.Layers()))
    ensures x in o.Filtered(ForIn(o.Layers()), s, includePrototype) <==>
      InChain(o.Layers(), x) && Find(Entries(o.Layers()), x).value.enumerable && o.Selects(s, x, includePrototype)
  {
    ForInCharacterization(o.Layers(), x);
    FilteredUnique(o, ForIn(o.Layers()), s, includePrototype);
    FilteredSubsequence(o, ForIn(o.Layers()), s, includePrototype);
    FilteredMembers(o, ForIn(o.Layers()), s, includePrototype, x);
  }

  /** With the own scope, every listed method or property is an own member. */
  lemma OwnScopeListsOwnNames(o: Obj, s: Selection, includePrototype: Value, x: string)
    requires !ChainScope(includePrototype)
    requires x in o.Filtered(ForIn(o.Layers()), s, includePrototype)
    ensures HasOwn(o.Layers(), x)
  {
    FilteredMembers(o, ForIn(o.Layers()), s, includePrototype, x);
  }

  /**
   * `getMethodParameters(name)` on a method declared as `function<head>(<list>)<tail>` lists the
   * declared names, whatever layer of the chain holds the method.
   */
  lemma MethodDeclarationParameters(o: Obj, name: string, head: string, ps: seq<Param>, tail: string)
    requires o.HasMethod(name, Bool(true))
    requires Get(o.Layers(), name).Function? && Get(o.Layers(), name).source == Declaration(head, ps, tail)
    requires '(' !in head && AllWellFormed(ps)
    ensures o.GetMethodParameters(name) == Success(Names(ps))
    ensures QuotedHoldCommas(ps) ==> GetFunctionParametersAsWritten(Get(o.Layers(), name).source) == Some(Names(ps))
  {
    DeclarationParametersOf(head, ps, tail);
  }
}
