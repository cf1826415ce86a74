/**
 * The library's test fixture: an instance of `function TestObject(param)` with own members
 * `hello` (a string) and `sub` (an object), and a prototype holding `test` (a string) and
 * `sayHello` (a method with a commented, multi-line parameter list).
 *
 * The bodies of the constructor and of `sayHello` are left as parameters: reading parameter names
 * never looks past the closing parenthesis of the list, so every fact below holds for any body.
 */
module Fixtures {
  import opened Wrappers
  import opened HostValues
  import opened TypeClassifier
  import opened ReflectionErrors
  import opened ParameterParser
  import opened ParserExamples
  import opened ObjectIntrospector

  /** The non-enumerable members of `Object.prototype` that matter here. */
  const ObjectPrototype: Layer := [
    Entry("constructor", Function("Object", "function Object() { [native code] }"), false),
    Entry("hasOwnProperty", Function("hasOwnProperty", "function hasOwnProperty() { [native code] }"), false),
    Entry("toString", Function("toString", "function toString() { [native code] }"), false)
  ]

  /** `this.sub`: an object literal with one method. */
  const Sub: Value :=
    Object([Entry("sayHello", Function("sayHello", "function () { return 'Hi People !'; }"), true)],
           [ObjectPrototype])

  /** `TestObject` itself, whatever its body. */
  function TestObject(ctorBody: string): Value
  {
    Function("TestObject", TestObjectSource(ctorBody))
  }

  /** The function assigned to `TestObject.prototype.sayHello`: anonymous, whatever its body. */
  function SayHello(methodBody: string): Value
  {
    Function("", SayHelloSource(methodBody))
  }

  /** `TestObject.prototype`: the constructor link, then `test` and `sayHello` in assignment order. */
  function Prototype(ctor: Value, sayHello: Value): Layer
  {
    [Entry("constructor", ctor, false), Entry("test", Str("test"), true), Entry("sayHello", sayHello, true)]
  }

  /** `new TestObject()`, for the constructor `ctor` and the method `sayHello`. */
  function Instance(ctor: Value, sayHello: Value): Value
  {
    Object([Entry("hello", Str("Hello World !"), true), Entry("sub", Sub, true)],
           [Prototype(ctor, sayHello), ObjectPrototype])
  }

  /** The own entries, then the prototype's, then `Object.prototype`'s. */
  lemma InstanceEntries(ctor: Value, sayHello: Value)
    ensures Entries(LayersOf(Instance(ctor, sayHello))) ==
      Instance(ctor, sayHello).own + Prototype(ctor, sayHello) + ObjectPrototype
  {
    var layers: seq<seq<Entry>> := LayersOf(Instance(ctor, sayHello));
    assert Entries(layers[1..][1..][1..]) == [];
    assert Entries(layers[1..][1..]) == ObjectPrototype + [];
    assert Entries(layers[1..]) == Prototype(ctor, sayHello) + (ObjectPrototype + []);
  }

  lemma WalkStep(es: seq<Entry>, k: nat, seen: set<string>)
    requires k < |es| && es[k].name !in seen
    ensures Walk(es[k..], seen) ==
      (if es[k].enumerable then [es[k].name] else []) + Walk(es[k + 1..], seen + {es[k].name})
  {
    assert es[k..][1..] == es[k + 1..];
  }

  /** Entries none of which is enumerable add nothing to an enumeration. */
  lemma {:induction false} WalkHidden(es: seq<Entry>, seen: set<string>)
    requires forall i :: 0 <= i < |es| ==> !es[i].enumerable
    ensures Walk(es, seen) == []
  {
    if es != [] {
      WalkHidden(es[1..], seen);
      WalkHidden(es[1..], seen + {es[0].name});
    }
  }

  /** Enumeration visits the own members, then the prototype's enumerable ones. */
  lemma InstanceForIn(ctor: Value, sayHello: Value)
    ensures ForIn(LayersOf(Instance(ctor, sayHello))) == ["hello", "sub", "test", "sayHello"]
  {
    InstanceEntries(ctor, sayHello);
    var es := Entries(LayersOf(Instance(ctor, sayHello)));
    assert |es| == 8;
    var s1: set<string> := {"hello"};
    var s2 := s1 + {"sub"};
    var s3 := s2 + {"constructor"};
    var s4 := s3 + {"test"};
    var s5 := s4 + {"sayHello"};
    assert Walk(es[5..], s5) == [] by {
      WalkHidden(es[5..], s5);
    }
    assert Walk(es[4..], s4) == ["sayHello"] by {
      assert es[4].name == "sayHello" && es[4].enumerable;
      WalkStep(es, 4, s4);
    }
    assert Walk(es[3..], s3) == ["test", "sayHello"] by {
      assert es[3].name == "test" && es[3].enumerable;
      WalkStep(es, 3, s3);
    }
    assert Walk(es[2..], s2) == ["test", "sayHello"] by {
      assert es[2].name == "constructor" && !es[2].enumerable;
      WalkStep(es, 2, s2);
    }
    assert Walk(es[1..], s1) == ["sub", "test", "sayHello"] by {
      assert es[1].name == "sub" && es[1].enumerable;
      WalkStep(es, 1, s1);
    }
    assert es[0].name == "hello" && es[0].enumerable;
    WalkStep(es, 0, {});
    assert {} + {"hello"} == s1;
  }

  /** The own members, found in the own layer. */
  lemma OwnLookups(ctor: Value, sayHello: Value)
    ensures var layers := LayersOf(Instance(ctor, sayHello));
      HasOwn(layers, "hello") && HasOwn(layers, "sub") &&
      Get(layers, "hello") == Str("Hello World !") && Get(layers, "sub") == Sub
  {
    var layers: seq<seq<Entry>> := LayersOf(Instance(ctor, sayHello));
    assert layers[0][1..][0].name == "sub";
    FirstLayerWins(layers, "hello", 0);
    FirstLayerWins(layers, "sub", 0);
  }

  /** The `k`-th prototype member: absent from the own layer, found in the prototype. */
  lemma InheritedLookup(ctor: Value, sayHello: Value, k: nat)
    requires k < 3
    ensures var layers := LayersOf(Instance(ctor, sayHello));
      var e := Prototype(ctor, sayHello)[k];
      !HasOwn(layers, e.name) && InChain(layers, e.name) && Get(layers, e.name) == e.value
  {
    var layers: seq<seq<Entry>> := LayersOf(Instance(ctor, sayHello));
    var p := Prototype(ctor, sayHello);
    var name := p[k].name;
    assert layers[0][0].name != name && layers[0][1].name != name;
    assert Find(layers[0], name).None?;
    assert forall j :: 0 <= j < k ==> p[j].name != name;
    assert Find(p[k..], name) == Some(p[k]);
    FindSuffix(p, k, name);
    FirstLayerWins(layers, name, 1);
  }

  /** Nothing before position `k` bears the name, so the lookup skips to `es[k..]`. */
  lemma {:induction false} FindSuffix(es: seq<Entry>, k: nat, name: string)
    requires k <= |es|
    requires forall j :: 0 <= j < k ==> es[j].name != name
    ensures Find(es, name) == Find(es[k..], name)
  {
    if k > 0 {
      FindSuffix(es[1..], k - 1, name);
      assert es[1..][k - 1..] == es[k..];
    }
  }

  /** The inherited members, found in the prototype and not in the own layer. */
  lemma InheritedLookups(ctor: Value, sayHello: Value)
    ensures var layers := LayersOf(Instance(ctor, sayHello));
      !HasOwn(layers, "test") && !HasOwn(layers, "sayHello") && !HasOwn(layers, "constructor") &&
      InChain(layers, "test") && InChain(layers, "sayHello") && InChain(layers, "constructor") &&
      Get(layers, "test") == Str("test") &&
      Get(layers, "sayHello") == sayHello &&
      Get(layers, "constructor") == ctor
  {
    InheritedLookup(ctor, sayHello, 0);
    InheritedLookup(ctor, sayHello, 1);
    InheritedLookup(ctor, sayHello, 2);
  }

  /** A member found in the chain is a method exactly when its value is a callable. */
  lemma ChainMember(o: Obj, name: string, v: Value, includePrototype: Value)
    requires ChainScope(includePrototype)
    requires InChain(o.Layers(), name) && Get(o.Layers(), name) == v
    ensures o.HasMethod(name, includePrototype) <==> v.Function?
    ensures o.HasProperty(name, includePrototype) <==> !v.Function?
  {
    TypeOfFunction(v);
  }

  /** An own member is an own-scope property exactly when its value is not a callable. */
  lemma OwnMember(o: Obj, name: string, v: Value)
    requires HasOwn(o.Layers(), name) && Get(o.Layers(), name) == v
    ensures o.HasProperty(name, Bool(false)) <==> !v.Function?
  {
    TypeOfFunction(v);
  }

  /** Over the whole chain: `hello`, `sub` and `test` are properties, `sayHello` a method. */
  lemma InstanceChainChecks(o: Obj, ctor: Value, sayHello: Value)
    requires o.target == Instance(ctor, sayHello) && ctor.Function? && sayHello.Function?
    ensures o.HasProperty("hello", Undefined) && o.HasProperty("sub", Undefined) && o.HasProperty("test", Undefined)
    ensures o.HasMethod("sayHello", Undefined) && !o.HasProperty("sayHello", Undefined)
    ensures o.HasMethod("constructor", Bool(true))
  {
    OwnLookups(ctor, sayHello);
    InheritedLookups(ctor, sayHello);
    OwnShadows(o.Layers(), "hello");
    OwnShadows(o.Layers(), "sub");
    ChainMember(o, "hello", Str("Hello World !"), Undefined);
    ChainMember(o, "sub", Sub, Undefined);
    ChainMember(o, "test", Str("test"), Undefined);
    ChainMember(o, "sayHello", sayHello, Undefined);
    ChainMember(o, "constructor", ctor, Bool(true));
  }

  /** Over the own layer: `hello` and `sub` are properties; `test` and `sayHello` are absent. */
  lemma InstanceOwnChecks(o: Obj, ctor: Value, sayHello: Value)
    requires o.target == Instance(ctor, sayHello)
    ensures o.HasProperty("hello", Bool(false)) && o.HasProperty("sub", Bool(false))
    ensures !o.Present("test", Bool(false)) && !o.Present("sayHello", Bool(false))
  {
    OwnLookups(ctor, sayHello);
    InheritedLookups(ctor, sayHello);
    OwnMember(o, "hello", Str("Hello World !"));
    OwnMember(o, "sub", Sub);
  }

  /** `hello`, `sub` and `test` are properties; `sayHello` is a method; nothing else is listed. */
  lemma InstanceMembers(o: Obj, ctor: Value, sayHello: Value)
    requires o.target == Instance(ctor, sayHello) && ctor.Function? && sayHello.Function?
    ensures o.HasProperty("hello", Undefined) && o.HasProperty("sub", Undefined) && o.HasProperty("test", Undefined)
    ensures o.HasMethod("sayHello", Undefined) && !o.HasProperty("sayHello", Undefined)
    ensures o.HasProperty("hello", Bool(false)) && o.HasProperty("sub", Bool(false))
    ensures !o.HasProperty("test", Bool(false)) && !o.HasMethod("sayHello", Bool(false))
    ensures o.HasMethod("constructor", Bool(true))
    ensures Get(o.Layers(), "constructor") == ctor
    ensures Get(o.Layers(), "sayHello") == sayHello
  {
    InstanceChainChecks(o, ctor, sayHello);
    InstanceOwnChecks(o, ctor, sayHello);
    InheritedLookups(ctor, sayHello);
  }

  /** The one-name list a check keeps for `x`. */
  function Kept(o: Obj, x: string, s: Selection, includePrototype: Value): seq<string>
  {
    if o.Selects(s, x, includePrototype) then [x] else []
  }

  lemma FilteredFour(o: Obj, a: string, b: string, c: string, d: string, s: Selection, includePrototype: Value)
    ensures o.Filtered([a, b, c, d], s, includePrototype) ==
      Kept(o, a, s, includePrototype) + (Kept(o, b, s, includePrototype) +
      (Kept(o, c, s, includePrototype) + Kept(o, d, s, includePrototype)))
  {
    FilteredCons(o, d, [], s, includePrototype);
    FilteredCons(o, c, [d], s, includePrototype);
    FilteredCons(o, b, [c, d], s, includePrototype);
    FilteredCons(o, a, [b, c, d], s, includePrototype);
    assert [d] + [] == [d] && [c] + [d] == [c, d] && [b] + [c, d] == [b, c, d];
    assert [a] + [b, c, d] == [a, b, c, d];
  }

  lemma FilteredCons(o: Obj, x: string, rest: seq<string>, s: Selection, includePrototype: Value)
    ensures o.Filtered([x] + rest, s, includePrototype) == Kept(o, x, s, includePrototype) + o.Filtered(rest, s, includePrototype)
  {
    assert ([x] + rest)[1..] == rest;
  }

  /** Over the whole chain, `sayHello` is the one method. */
  lemma InstanceChainMethods(o: Obj, ctor: Value, sayHello: Value)
    requires o.target == Instance(ctor, sayHello) && ctor.Function? && sayHello.Function?
    ensures o.Filtered(ForIn(o.Layers()), Methods, Undefined) == ["sayHello"]
  {
    InstanceForIn(ctor, sayHello);
    InstanceChainChecks(o, ctor, sayHello);
    FilteredFour(o, "hello", "sub", "test", "sayHello", Methods, Undefined);
    HasChecksExclusive(o, "hello", Undefined);
    HasChecksExclusive(o, "sub", Undefined);
    HasChecksExclusive(o, "test", Undefined);
  }

  /** Over the whole chain, the three others are properties. */
  lemma InstanceChainProperties(o: Obj, ctor: Value, sayHello: Value)
    requires o.target == Instance(ctor, sayHello) && ctor.Function? && sayHello.Function?
    ensures o.Filtered(ForIn(o.Layers()), Properties, Undefined) == ["hello", "sub", "test"]
  {
    InstanceForIn(ctor, sayHello);
    InstanceChainChecks(o, ctor, sayHello);
    FilteredFour(o, "hello", "sub", "test", "sayHello", Properties, Undefined);
  }

  /** Over the own layer, no method is listed. */
  lemma InstanceOwnMethods(o: Obj, ctor: Value, sayHello: Value)
    requires o.target == Instance(ctor, sayHello)
    ensures o.Filtered(ForIn(o.Layers()), Methods, Bool(false)) == []
  {
    InstanceForIn(ctor, sayHello);
    InstanceOwnChecks(o, ctor, sayHello);
    FilteredFour(o, "hello", "sub", "test", "sayHello", Methods, Bool(false));
    HasChecksExclusive(o, "hello", Bool(false));
    HasChecksExclusive(o, "sub", Bool(false));
  }

  /** Over the own layer, only the two own properties are listed. */
  lemma InstanceOwnProperties(o: Obj, ctor: Value, sayHello: Value)
    requires o.target == Instance(ctor, sayHello)
    ensures o.Filtered(ForIn(o.Layers()), Properties, Bool(false)) == ["hello", "sub"]
  {
    InstanceForIn(ctor, sayHello);
    InstanceOwnChecks(o, ctor, sayHello);
    FilteredFour(o, "hello", "sub", "test", "sayHello", Properties, Bool(false));
  }

  /**
   * The library's expectations for the fixture: the two checks, the listed methods and
   * properties, own members first, the constructor's and `sayHello`'s parameters, the
   * constructor and its name, and the two member reads.
   */
  method TestObjectScenario(ctorBody: string, methodBody: string)
    returns (hasHello: bool, hasSayHello: bool, methods: seq<string>, properties: seq<string>, ownProperties: seq<string>,
             ctorParams: Result<seq<string>, Thrown>, methodParams: Result<seq<string>, Thrown>,
             name: Result<Value, Thrown>, ctorValue: Value,
             sayHelloMethod: Result<Value, ReflectionError>, helloProperty: Result<Value, ReflectionError>)
    ensures hasHello && hasSayHello
    ensures methods == ["sayHello"]
    ensures properties == ["hello", "sub", "test"]
    ensures ownProperties == ["hello", "sub"]
    ensures ctorParams == Success(["param"])
    ensures methodParams == Success(["param1", "param2", "param3", "param4"])
    ensures name == Success(Str("TestObject"))
    ensures ctorValue == TestObject(ctorBody) && ctorValue.Function?
    ensures sayHelloMethod == Success(SayHello(methodBody))
    ensures helloProperty == Success(Str("Hello World !"))
  {
    var ctor := TestObject(ctorBody);
    var sayHello := SayHello(methodBody);
    TypeOfObject(Instance(ctor, sayHello));
    var created := Obj.Create(Instance(ctor, sayHello));
    var o := created.value;
    InstanceMembers(o, ctor, sayHello);
    InstanceChainMethods(o, ctor, sayHello);
    InstanceChainProperties(o, ctor, sayHello);
    InstanceOwnMethods(o, ctor, sayHello);
    InstanceOwnProperties(o, ctor, sayHello);
    hasHello := o.HasProperty("hello", Undefined);
    hasSayHello := o.HasMethod("sayHello", Undefined);
    methods := o.GetMethods(Undefined);
    properties := o.GetProperties(Undefined);
    ownProperties := o.GetProperties(Bool(false));
    TestObjectParameters(ctorBody);
    SayHelloParameters(methodBody);
    ctorParams := o.GetConstructorParameters();
    methodParams := o.GetMethodParameters("sayHello");
    name := o.GetName();
    ctorValue := o.GetConstructor();
    sayHelloMethod := o.GetMethod("sayHello", Undefined);
    helloProperty := o.GetProperty("hello", Undefined);
  }
}
