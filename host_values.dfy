/**
 * The host's values, as far as the library observes them.
 *
 * An object is a finite chain of layers: its own properties first, then each prototype in
 * turn. A layer is the ordered list of a layer's properties. The host primitives the library
 * relies on (`name in obj`, `obj.hasOwnProperty(name)`, `obj[name]`, `for (name in obj)`,
 * `fn.toString()`, `fn.name`) are the functions of this module.
 */
module HostValues {
  import opened Wrappers

  datatype Value =
    | Undefined
    | Null
    | Str(text: string)
    | Num(number: int)
    | Bool(truth: bool)
    | Array(items: seq<Value>)
    | Date(time: int)
    | RegExp(pattern: string)
    | Error(message: string)
      /** A plain (non-async, non-generator) function: its declared name (`fn.name`) and its rendered source text (`fn.toString()`). */
    | Function(name: string, source: string)
      /** A composite: its own layer and its prototype chain, nearest prototype first. */
    | Object(own: Layer, protos: seq<Layer>)

  /** One property of one layer. */
  datatype Entry = Entry(name: string, value: Value, enumerable: bool)

  type Layer = seq<Entry>

  /** The layers of a value: none for anything but an object. */
  function LayersOf(v: Value): (layers: seq<Layer>)
    ensures v.Object? <==> |layers| > 0
  {
    if v.Object? then [v.own] + v.protos else []
  }

  /** All entries of a chain, own layer first. */
  function Entries(layers: seq<Layer>): seq<Entry>
  {
    if layers == [] then [] else layers[0] + Entries(layers[1..])
  }

  /** The first entry named `name`. */
  function Find(es: seq<Entry>, name: string): (r: Option<Entry>)
    ensures r.Some? ==> r.value in es && r.value.name == name
    ensures r.None? <==> forall i :: 0 <= i < |es| ==> es[i].name != name
  {
    if es == [] then None
    else if es[0].name == name then Some(es[0])
    else Find(es[1..], name)
  }

  /** `name in obj`: some layer of the chain has the name. */
  predicate InChain(layers: seq<Layer>, name: string)
  {
    Find(Entries(layers), name).Some?
  }

  /** `obj.hasOwnProperty(name)`: the own layer has the name. */
  predicate HasOwn(layers: seq<Layer>, name: string)
  {
    |layers| > 0 && Find(layers[0], name).Some?
  }

  /** `obj[name]`: the value of the first entry with that name, or `undefined`. */
  function Get(layers: seq<Layer>, name: string): Value
  {
    match Find(Entries(layers), name)
    case Some(e) => e.value
    case None => Undefined
  }

  /**
   * `for (name in obj)`: the enumerable names, layer by layer; a name met before, enumerable or
   * not, is skipped, so a shadowed prototype property is not listed again.
   */
  function ForIn(layers: seq<Layer>): seq<string>
  {
    Walk(Entries(layers), {})
  }

  function Walk(es: seq<Entry>, seen: set<string>): seq<string>
  {
    if es == [] then []
    else if es[0].name in seen then Walk(es[1..], seen)
    else (if es[0].enumerable then [es[0].name] else []) + Walk(es[1..], seen + {es[0].name})
  }

  predicate NoDuplicates(names: seq<string>)
  {
    forall i, j :: 0 <= i < j < |names| ==> names[i] != names[j]
  }

  lemma NoDuplicatesTail(names: seq<string>)
    requires names != [] && NoDuplicates(names)
    ensures NoDuplicates(names[1..]) && names[0] !in names[1..]
  {
    forall i, j | 0 <= i < j < |names[1..]| ensures names[1..][i] != names[1..][j] {
      assert names[1..][i] == names[i + 1] && names[1..][j] == names[j + 1];
    }
    forall i | 0 <= i < |names[1..]| ensures names[1..][i] != names[0] {
      assert names[1..][i] == names[i + 1];
    }
  }

  lemma NoDuplicatesCons(name: string, rest: seq<string>)
    requires name !in rest && NoDuplicates(rest)
    ensures NoDuplicates([name] + rest)
  {
    var r := [name] + rest;
    forall i, j | 0 <= i < j < |r| ensures r[i] != r[j] {
      if i == 0 {
        assert r[j] == rest[j - 1] && r[j] in rest;
      } else {
        assert r[i] == rest[i - 1] && r[j] == rest[j - 1];
      }
    }
  }

  // ---------------------------------------------------------------------------------------
  // Properties of the host primitives

  lemma {:induction false} FindAppend(a: seq<Entry>, b: seq<Entry>, name: string)
    ensures Find(a + b, name) == if Find(a, name).Some? then Find(a, name) else Find(b, name)
  {
    if a != [] {
      assert (a + b)[1..] == a[1..] + b;
      FindAppend(a[1..], b, name);
    } else {
      assert a + b == b;
    }
  }

  /**
   * Shadowing: when layer `k` is the first layer holding `name`, lookup through the whole chain
   * yields that layer's entry, so an own property hides every prototype property of that name.
   */
  lemma {:induction false} FirstLayerWins(layers: seq<Layer>, name: string, k: nat)
    requires k < |layers|
    requires Find(layers[k], name).Some?
    requires forall j :: 0 <= j < k ==> Find(layers[j], name).None?
    ensures Find(Entries(layers), name) == Find(layers[k], name)
    ensures Get(layers, name) == Find(layers[k], name).value.value
    ensures InChain(layers, name)
  {
    FindAppend(layers[0], Entries(layers[1..]), name);
    if k > 0 {
      FirstLayerWins(layers[1..], name, k - 1);
    }
  }

  /** An own property is found in the chain, and lookup returns the own value. */
  lemma OwnShadows(layers: seq<Layer>, name: string)
    requires HasOwn(layers, name)
    ensures InChain(layers, name)
    ensures Get(layers, name) == Find(layers[0], name).value.value
  {
    FirstLayerWins(layers, name, 0);
  }

  lemma {:induction false} WalkMembers(es: seq<Entry>, seen: set<string>, name: string)
    ensures name in Walk(es, seen) <==>
      name !in seen && Find(es, name).Some? && Find(es, name).value.enumerable
  {
    if es != [] {
      WalkMembers(es[1..], seen + {es[0].name}, name);
      WalkMembers(es[1..], seen, name);
    }
  }

  lemma {:induction false} WalkUnique(es: seq<Entry>, seen: set<string>)
    ensures NoDuplicates(Walk(es, seen))
    ensures forall n :: n in Walk(es, seen) ==> n !in seen
  {
    if es != [] {
      var seen' := seen + {es[0].name};
      WalkUnique(es[1..], seen');
      WalkUnique(es[1..], seen);
    }
  }

  /**
   * `for…in` lists each name at most once, and lists exactly the names found in the chain
   * whose nearest (shadowing) entry is enumerable.
   */
  lemma ForInCharacterization(layers: seq<Layer>, name: string)
    ensures NoDuplicates(ForIn(layers))
    ensures name in ForIn(layers) <==>
      InChain(layers, name) && Find(Entries(layers), name).value.enumerable
  {
    WalkUnique(Entries(layers), {});
    WalkMembers(Entries(layers), {}, name);
  }
}
