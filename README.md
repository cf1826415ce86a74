# ReflectionJS: a model of `typeOf`, `Obj`, `Func` and `getFunctionParameters`

ReflectionJS (`js-reflection`) is a small JavaScript library that examines values at run time.
This project models its core in Dafny and proves properties of that model. The core comes in
two revisions: `index.js` and `src/index.js`. Apart from doc-comment tags (`@returns` against
`@return`), they differ in two things. `src/index.js` lacks `getPropertiesAndMethods` and `getPropertyOrMethod`, and it spells
the flag parameter `includeProtoypye`. The model follows `index.js`, the superset.

- `typeOf(v)` reads the host's `Object.prototype.toString` descriptor `"[object X]"`. It takes
  the first word after a whitespace character and lower-cases it (module `TypeClassifier`). The
  model keeps that literal recipe and proves that it yields one of the documented type tags.
- `Obj` wraps one composite object (class `ObjectIntrospector.Obj`). It answers `hasProperty` /
  `hasMethod` over the own layer or the whole prototype chain, enumerates members with a
  `for…in` loop, and reads members, the constructor, its name and parameter lists. A method
  (`Collect`) models the loop that pushes names, and is proved against the specification
  function `Filtered` over the host's `for…in` order.
- `Func` wraps one callable (class `FunctionIntrospector.Func`) and reports its name and
  parameter names.
- `getFunctionParameters(source)` recovers parameter names from source text using four regular
  expressions (module `ParameterParser`). Each expression is written as a scanner that makes
  the same choices as the backtracking matcher. Lemmas relate the scanners to parameter lists
  built from names, defaults and comments (`ParameterLists`, `CommentedLists`), and to the
  library's own test fixture (`ParserExamples`, `Fixtures`).
- The errors (`ObjNotObjectError`, `ObjMethodNotExistError`, `ObjPropertyNotExistError`,
  `FuncNotFunctionError`) are a datatype. A host `TypeError` (from reading a member of
  `undefined`/`null`, or `match[1]` of a failed match) is the separate outcome `HostTypeError`.

The host is abstracted as values (module `HostValues`).
- An object is its own layer plus its prototype layers. Each layer is an ordered list of
  entries that carry a name, a value and an enumerable flag.
- `name in obj`, `obj[name]` and `hasOwnProperty` are lookups on that chain. The first layer
  that holds a name wins.
- `for…in` visits each layer in order. It lists enumerable names that were not met before.

Where the library's documented behaviour and its code differ, the model follows the code:
- A parenthesised arrow list written with a space after the comma, `(a, b) => …`, is not
  recognised. The arrow pattern's capture class `[a-zA-Z0-9,]` excludes whitespace, neither
  pattern matches, and reading `match[1]` throws a host `TypeError`
  (`ParameterLists.SpacedArrowListFails`). Without the space, `(a,b) => …` gives `["a","b"]`.
- The doc comments construct `new Obj(testObj)` with a function. The constructor rejects every
  value whose `typeOf` is not `"object"`, functions included (`ObjectIntrospector.Obj.Create`).

## Model

| member | source | states |
|---|---|---|
| TypeClassifier.DescriptorWordOf | index.js:29 | the first-word scanner applied to `"[object W]"` returns exactly `W`, for every non-empty letter word `W` |
| TypeClassifier.WordAt | index.js:29 | a word found by `\s([a-zA-Z]+)` is non-empty and made only of ASCII letters |
| TypeClassifier.DocumentedTag | index.js:11-25 | the tag the documentation gives each kind of value is one of the documented type names |
| TypeClassifier.TypeOfIsLoweredClassName | index.js:27-30 | `typeOf` of every value is the lower-cased class word of its descriptor, equals the documented tag, and lies in the documented set |
| TypeClassifier.TypeOfFunction | index.js:27-30 | `typeOf(v) === 'function'` holds exactly for plain (non-async, non-generator) functions |
| TypeClassifier.TypeOfObject | index.js:27-30 | `typeOf(v) === 'object'` holds exactly for plain composites (not arrays, dates, regexps, errors, callables, null) |
| ReflectionErrors.MessagesIdentifyErrors | index.js:322-344 | each error belongs to exactly one family (its prototype chain passes through `ObjError.prototype` or through `FuncError.prototype`), every message is non-empty, and distinct errors carry distinct messages |
| HostValues.FirstLayerWins | index.js:217 | when the nearest layer holding a name is layer `k`, lookup on the chain returns that layer's value and the name is `in` the object |
| HostValues.OwnShadows | index.js:78 | an own property is in the chain and shadows every inherited one of the same name |
| HostValues.ForInCharacterization | index.js:187 | `for…in` lists each name at most once, and lists exactly the names in the chain whose nearest entry is enumerable |
| ObjectIntrospector.Obj.Create | index.js:50-57 | construction fails with `ObjNotObjectError` exactly when the value is `null` or its `typeOf` is not `'object'`; otherwise the wrapper holds that value |
| ObjectIntrospector.Obj.constructor | index.js:50-57 | a wrapper can only be built around a composite object, which it stores |
| ObjectIntrospector.HasChecksExclusive | index.js:74-100 | no name is both a property and a method under the same flag |
| ObjectIntrospector.OmittedScopeIsChain | index.js:76 | omitting the flag answers exactly as passing `true` |
| ObjectIntrospector.OwnScopeImpliesChainScope | index.js:76-78 | a property or method found in the own layer is also found over the chain |
| ObjectIntrospector.MemberIsPropertyOrMethod | index.js:287 | "property or method" holds exactly when the name is present in the selected scope |
| ObjectIntrospector.Obj.Collect | index.js:186-194 | the enumeration loop returns the `for…in` names, in order, that pass the selected check |
| ObjectIntrospector.Obj.GetMethods | index.js:184-195 | `getMethods(flag)` returns the `for…in` names that are methods under the flag |
| ObjectIntrospector.Obj.GetProperties | index.js:233-244 | `getProperties(flag)` returns the `for…in` names that are non-function properties under the flag |
| ObjectIntrospector.Obj.GetPropertiesAndMethods | index.js:282-293 | `getPropertiesAndMethods(flag)` returns the `for…in` names that are properties or methods under the flag |
| ObjectIntrospector.Obj.GetPropertyOrMethod | index.js:309-320 | `getPropertyOrMethod(name, flag)` ignores `name` and returns the same list as `getPropertiesAndMethods(flag)` |
| ObjectIntrospector.Obj.GetMethod | index.js:210-218 | fails with `ObjMethodNotExistError` exactly when `hasMethod` is false; otherwise returns a callable that is in the chain |
| ObjectIntrospector.Obj.GetProperty | index.js:259-267 | fails with `ObjPropertyNotExistError` exactly when `hasProperty` is false; otherwise returns a non-callable value that is in the chain |
| ObjectIntrospector.AccessorsReturnNearest | index.js:210-267 | a successful `getMethod`/`getProperty` returns the value from the nearest layer that holds the name |
| ObjectIntrospector.Obj.GetMethodParameters | index.js:161-169 | fails with `ObjMethodNotExistError` exactly when the name is not a method over the whole chain (whatever the flag); otherwise the result is the parse of that method's source text, whose only failure is the host `TypeError`; names are free of whitespace and commas |
| ObjectIntrospector.Obj.GetConstructorParameters | index.js:144-147 | is `getMethodParameters('constructor')`: fails with `ObjMethodNotExistError` exactly when there is no callable `constructor` in the chain; names are free of whitespace and commas |
| ObjectIntrospector.MethodDeclarationParameters | index.js:161-169 | `getMethodParameters(name)` on a method declared as `function<head>(<list>)` returns exactly the declared names; the library's own pattern gives the same names whenever each quoted default holds a `,` |
| ObjectIntrospector.Obj.GetConstructor | index.js:128-131 | with no `constructor` anywhere in the chain the result is `undefined` |
| ObjectIntrospector.Obj.GetName | index.js:113-116 | throws the host `TypeError` exactly when the constructor is `undefined` or `null`; a callable constructor yields its declared name, an object constructor the `name` found through its own chain, an error `"Error"` (inherited from `Error.prototype`), and the other primitives and built-ins `undefined` |
| ObjectIntrospector.FilteredMembers | index.js:184-195 | a name is in a filtered enumeration exactly when it was enumerated and passes the check |
| ObjectIntrospector.FilteredSubsequence | index.js:184-195 | a filtered enumeration keeps the enumeration order |
| ObjectIntrospector.FilteredUnique | index.js:233-244 | filtering a duplicate-free enumeration yields a duplicate-free list |
| ObjectIntrospector.FilteredLengths | index.js:282-293 | the combined list is exactly as long as the property list plus the method list |
| ObjectIntrospector.EnumerationCharacterization | index.js:184-195 | every enumeration is duplicate-free, in `for…in` order, and holds exactly the enumerable chain names that pass its check |
| ObjectIntrospector.OwnScopeListsOwnNames | index.js:233-244 | with an own-scope flag every listed name is an own property |
| FunctionIntrospector.Func.Create | index.js:357-364 | construction fails with `FuncNotFunctionError` exactly when `typeOf` is not `'function'`; otherwise the wrapper holds that callable |
| FunctionIntrospector.Func.constructor | index.js:357-364 | a wrapper can only be built around a callable, which it stores |
| FunctionIntrospector.Func.GetName | index.js:376-379 | the name returned is the wrapped callable's declared name |
| FunctionIntrospector.Func.GetParameters | index.js:391-394 | is the parse of the wrapped callable's source text: fails (host `TypeError`) exactly when neither signature pattern matches it; names are free of whitespace and commas |
| FunctionIntrospector.FuncDeclarationParameters | index.js:391-394 | `getParameters()` on a callable declared as `function<head>(<list>)` returns exactly the declared names; the library's own pattern gives the same names whenever each quoted default holds a `,` |
| FunctionIntrospector.ParametersOf | index.js:422-424 | fails exactly when nothing is captured; an empty capture gives `[]` and only an empty capture does; otherwise the names joined with commas are the capture with comments, defaults and whitespace removed; names are free of whitespace and commas |
| FunctionIntrospector.DeclarationParametersOf | index.js:414-425 | the parse of every well-formed declaration is exactly its declared names, and the library's own pattern gives the same names whenever each quoted default holds a `,` |
| ParameterParser.FunctionAt | index.js:416 | a declaration capture holds no `)` and neither starts nor ends with whitespace |
| ParameterParser.ArrowAt | index.js:417 | an arrow capture consists only of letters, digits and commas |
| ParameterParser.RemoveSpaces | index.js:419 | the result contains no whitespace |
| ParameterParser.Split | index.js:424 | at least one part; the parts joined with `,` give back the input; no part holds a comma; whitespace-free input gives whitespace-free parts |
| ParameterParser.ParametersWith | index.js:422-424 | no result exactly when neither pattern matches; an empty capture gives `[]`; otherwise the parts, joined with commas, are the capture with comments, defaults and whitespace removed, and no part holds whitespace or a comma |
| ParameterProperties.SplitJoin | index.js:424 | splitting comma-free parts joined with `,` gives back the parts |
| ParameterProperties.RemoveSpacesKeeps | index.js:419 | text without whitespace is unchanged |
| ParameterProperties.RemoveSpacesDeletes | index.js:419 | text made only of whitespace is deleted entirely |
| ParameterProperties.StripLineComment | index.js:418 | a `//` comment is deleted up to the end of its line, and the rest is untouched |
| ParameterProperties.StripBlockComment | index.js:418 | a `/* … */` comment is deleted, and the rest is untouched |
| ParameterProperties.StripQuotedDefault | index.js:418 | a `= 'literal'` default is deleted whole when the literal holds a `,` or `)` (as written) or always (corrected) |
| ParameterProperties.StripBareDefault | index.js:418 | a `= expression` default with no `,`, `)` or quote is deleted up to the next `,` or `)` |
| ParameterProperties.StripKeepsInert | index.js:418 | text that starts none of the deleted forms passes through unchanged |
| ParameterProperties.StripKeepsSpaces | index.js:418 | whitespace not followed by `=` passes through unchanged |
| ParameterProperties.QuotedValueLenAware | index.js:418 | with the quote-aware rule a quoted default ends at its closing quote |
| ParameterProperties.QuotedValueLenAsWritten | index.js:418 | as written, a quoted default that holds a `,` or `)` ends at its closing quote |
| ParameterLists.DeclarationCapturesList | index.js:416 | for a `function` header followed by a well-formed list, the capture is exactly the rendered list |
| ParameterLists.StripRendered | index.js:418 | deleting defaults from a rendered list leaves the list of bare names with their separators |
| ParameterLists.ListParameters | index.js:418-424 | deleting, removing whitespace and splitting a rendered list gives back its names |
| ParameterLists.NamesShape | index.js:424 | one name per parameter, none holding a comma |
| ParameterLists.DeclarationParameters | index.js:414-425 | for every well-formed declaration the parser returns exactly the declared names (as written only while quoted defaults hold a comma) |
| ParameterLists.CorrectedDeclaration | index.js:414-425 | with the corrected default rule the parser returns exactly the declared names for every well-formed declaration |
| ParameterLists.CapturedParameters | index.js:423-424 | a non-empty capture becomes the comma split of the capture cleaned of comments, defaults and whitespace |
| ParameterLists.ArrowParameters | index.js:417 | `(a,b,…) => body` on one line yields exactly the listed names |
| ParameterLists.ArrowListCleaned | index.js:417-424 | an arrow capture passes cleaning unchanged and splits back into its names |
| ParameterLists.BareArrowParameters | index.js:417 | `x => body` yields `[x]` |
| ParameterLists.SpacedArrowListFails | index.js:417 | `(a, b) => body` (a space after the comma) matches neither pattern |
| ParameterLists.ArrowDecides | index.js:422 | when the declaration pattern fails on one-line text, the arrow pattern decides the capture |
| ParameterLists.AsWrittenMergesStringDefaults | index.js:418 | as written, two comma-free quoted defaults `a = 'x', b = 'y'` collapse into one bogus name `a` + `y` + quote; corrected, they give `[a, b]` |
| CommentedLists.StripPieces | index.js:418 | a list of names, separators, whitespace and comments loses exactly its comments |
| CommentedLists.SpacesOfPieces | index.js:419 | removing whitespace from a comment-free list leaves just names and commas |
| CommentedLists.CommentedDeclaration | index.js:414-425 | a declaration whose list mixes names, commas, whitespace and comments yields the split of its names and commas alone |
| ParserExamples.QuotedDefaultsMerge | index.js:418 | `function f(a = 'x', b = 'y')` gives `["ay'"]` as written and `["a","b"]` corrected |
| ParserExamples.QuotedDefaultWithComma | index.js:418 | as written, a quoted default holding a comma is deleted whole: `function g(a = 'x,y', b) {}` gives `["a","b"]` |
| ParserExamples.TestObjectParameters | spec/index.spec.js:5-14 | the test fixture's constructor `TestObject(param)` gives `["param"]` under both default rules |
| ParserExamples.SayHelloListText | spec/index.spec.js:18-21 | the fixture's commented list is the five groups of names, comments and whitespace as written in the test |
| ParserExamples.SayHelloParameters | spec/index.spec.js:18-24 | the fixture's `sayHello` with block, post and line comments gives `["param1","param2","param3","param4"]` under both default rules |
| ParserExamples.CommentOnlyList | index.js:423-424 | a list made only of a comment is a non-empty capture and gives `[""]`, under both default rules |
| ParserExamples.EmptyList | index.js:423-424 | an empty list gives `[]`, under both default rules |
| ParserExamples.ArrowListExample | index.js:417 | `(a,b) => body` gives `["a","b"]`, under both default rules |
| ParserExamples.BareArrow | index.js:417 | `x => body` gives `["x"]`, under both default rules |
| Fixtures.InstanceForIn | spec/index.spec.js:5-24 | `for…in` over a `TestObject` instance yields `hello`, `sub`, `test`, `sayHello` in that order |
| Fixtures.OwnLookups | spec/index.spec.js:5-14 | the instance owns `hello` and `sub` with the constructor's values |
| Fixtures.InheritedLookups | spec/index.spec.js:16-18 | `test`, `sayHello` and `constructor` are inherited, not own, and read their prototype values |
| Fixtures.InstanceChainChecks | spec/index.spec.js:26-46 | over the chain `hello`, `sub`, `test` are properties, `sayHello` is a method and not a property, and `constructor` is a method |
| Fixtures.InstanceOwnChecks | index.js:74-100 | in the own layer `hello`, `sub` are properties while `test` and `sayHello` are absent |
| Fixtures.InstanceMembers | spec/index.spec.js:26-46 | the checks over both scopes for the fixture, and the inherited `constructor` and `sayHello` values |
| Fixtures.InstanceChainMethods | spec/index.spec.js:92-101 | `getMethods()` on the fixture is `["sayHello"]` |
| Fixtures.InstanceChainProperties | spec/index.spec.js:114-123 | `getProperties()` on the fixture is `["hello","sub","test"]` |
| Fixtures.InstanceOwnMethods | index.js:182 | `getMethods(false)` on the fixture is `[]`: its methods are all inherited |
| Fixtures.InstanceOwnProperties | index.js:231 | `getProperties(false)` on the fixture is `["hello","sub"]` |
| Fixtures.TestObjectScenario | spec/index.spec.js:26-135 | every expectation of the test suite on a `TestObject` instance: `hasProperty('hello')`, `hasMethod('sayHello')`, methods, properties, own properties, constructor and method parameters, name, constructor, `getMethod('sayHello')`, `getProperty('hello')` |

## Left out

- The host engine is not modelled. `Object.prototype.toString`, property lookup, `for…in` order, `fn.toString()` and `fn.name` are functions on the `Value` datatype, not the engine's algorithms. Getters, symbols, proxies, integer-like key ordering and non-enumerable own names are not represented beyond the enumerable flag.
- The regular-expression engine is not modelled in general. Only the four patterns of `getFunctionParameters` are written, as scanners specialised to each pattern.
- ParameterProperties.QuotedValueLenAware: states the end of a quoted default only for literals without backslashes or line breaks; escaped quotes (`\'`) are scanned by the model but no lemma characterises them.
- FunctionIntrospector.ParametersOf, FunctionIntrospector.Func.GetParameters, ObjectIntrospector.Obj.GetMethodParameters, ObjectIntrospector.Obj.GetConstructorParameters, ObjectIntrospector.MethodDeclarationParameters and FunctionIntrospector.FuncDeclarationParameters parse with the corrected default rule of the finding below. So where a quoted default holding no `,` or `)` is followed later in the parameter list, on the same line, by another quote of the same kind (such as `a = 'x', b = 'y'`), they return the declared names while the library returns a merged name. On every declaration whose quoted defaults each hold a `,` they provably agree with the library (`FunctionIntrospector.DeclarationParametersOf`). Declarations such as `function f(a = 'x', b) {}`, where the library also gives `["a","b"]`, are not covered by a lemma stated of the library's own pattern.
- MethodDeclarationParameters (in `ObjectIntrospector`) promises exactly the declared names for every well-formed declaration only under the corrected default rule; under the library's pattern it promises them only when every quoted default holds a `,`, for the reason in the line above.
- FuncDeclarationParameters (in `FunctionIntrospector`) promises exactly the declared names for every well-formed declaration only under the corrected default rule; under the library's pattern it promises them only when every quoted default holds a `,`, for the reason in the line above.
- HostValues.Value, TypeClassifier.TypeOfIsLoweredClassName and TypeClassifier.TypeOfFunction: `Value` has only the eleven kinds the library documents (undefined, null, string, number, boolean, array, date, regexp, error, plain function, plain object). `arguments` objects, async and generator functions, and values whose descriptor comes from `Symbol.toStringTag` (`Map`, `Set`, `Promise`, …) are not represented. For those, `typeOf` gives tags such as `'arguments'`, `'asyncfunction'`, `'generatorfunction'` or `'map'`, so `new Func(async function () {})` throws `FuncNotFunctionError` and `new Obj(new Map())` throws `ObjNotObjectError`. The claims that the tag lies in the documented set and that `'function'` means a callable hold only for the represented kinds.
- ObjectIntrospector.Obj.Present (and through it `HasProperty`, `HasMethod` and every getter and listing called with an own-scope flag) treats `hasOwnProperty` as the built-in `Object.prototype.hasOwnProperty`. The library calls `this._obj.hasOwnProperty(name)`, looked up through the object's chain, so an object without it (`Object.create(null)`) or one that shadows it with a non-function makes the library throw a `TypeError` (and a shadowing function runs user code); the model answers `true` or `false` there.
- ObjectIntrospector.Obj.GetConstructor: states only the `undefined` case, because otherwise the result is the plain chain lookup of `constructor` (`HostValues.FirstLayerWins` describes it).
- FunctionIntrospector.Func.GetName: states only that the name is the callable's declared name, because `fn.name` is a plain read with no other behaviour to describe.
- The error objects' prototype plumbing (`Object.create`, the `name`, `message` and `constructor` fields of each prototype) is reduced to the error datatype and its messages; the `IsObjError`/`IsFuncError` predicates stand for "`ObjError.prototype` / `FuncError.prototype` is on the error's prototype chain". `ObjError` and `FuncError` are exported as plain objects (neither callable nor carrying `Symbol.hasInstance`), so `e instanceof ObjError` and `e instanceof FuncError` throw a host `TypeError`; `instanceof` answers only against the leaf constructors such as `ObjNotObjectError`. That host behaviour is not modelled.
- Function bodies are opaque parameters of the fixtures; the parser lemmas only require that a body used after an arrow lies on one line.
- The demo scripts `app.js` and `src/app.js` only print to the console and are not modelled.
- `src/index.js` differs from `index.js` only by the missing `getPropertiesAndMethods`/`getPropertyOrMethod`, a renamed parameter and doc-comment tags; it is covered by the same model.
- Numbers are unbounded integers; floating point values and `NaN` are not represented, as no operation of the core depends on them.

## Findings

| source | as written | input that shows it | evidently intended | confidence | as-written member | corrected member |
|---|---|---|---|---|---|---|
| index.js:418 | in `\s*=[^,)]*('…')`, the greedy `[^,)]*` backtracks until a quote it can open; for a quoted default without `,` or `)` that is followed later on its line by another quote of the same kind, it opens a "string" at that default's closing quote, which runs to that next quote, so the deletion swallows the comma between the parameters | `function f(a = 'x', b = 'y') {}` gives `["ay'"]` | `["a","b"]`: every default deleted, one name per parameter | not executed | ParameterLists.AsWrittenMergesStringDefaults | ParameterLists.CorrectedDeclaration |
