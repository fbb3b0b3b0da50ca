# befuzzle, modelled in Dafny

befuzzle is a property-based fuzzer for HTTP services described by a Swagger 2
specification. It turns every operation of the specification into a test
case. A test case samples random parameter bundles (query, path, header and
form maps, and an optional JSON body), assembles each bundle into an HTTP
request, sends it, and classifies the response status. A 5xx status is a
failure. A 2xx status, a declared status, or any status when undeclared ones
are allowed, is a pass.

This project models that core and proves properties of the model:

- `Generators` (generators.dfy) holds the sampler language.
  - The generators the program builds with the QuickTheories library are a datatype `Gen`.
  - `Sample` gives a generator's meaning: one draw from an abstract random stream (`seq<int>`).
  - Late-bound definition references (`DynamicGen`) look the table up on every draw, and each lookup spends one unit of fuel.
  - `Fits` is an independent description of every value a generator can produce, and `SampleFits` proves that sampling stays within it.
- `Fuzz` (fuzz.dfy) covers construction. It turns properties, models and parameters into generators, and builds the table of definitions. Every exception thrown at construction time is an `Err`. `FuzzLemmas` (fuzz_lemmas.dfy) states what the built generators sample: enum membership, length and size bounds, key sets, the timing of reference resolution, and the failure rules per parameter location.
- `Traversable` (traversable.dfy) covers `sequence`.
  - It is a pure function with its draw order and indexing lemmas.
  - `SequenceIndexed` and `SampleSequence` are methods that build a fresh `ArrayList` class instance through `add`, proved equal to the function.
- `Values` (values.dfy) holds JSON values and the insertion-ordered maps that `toMap()` builds.
- `Requests` (request.dfy) holds the request object.
  - The validation rules of `buildRequest` are stated on their own.
  - `Request` is a class with a memoised builder (`BuildRequest`, `AddParams`).
  - `HttpRequest` is a class that records the calls made on a Unirest request builder.
  - The status oracle is `CheckStatus`, and `Verdict` adds transport failures.
  - The curl transcript is `PrettyPrintCurl`, whose loops are proved against the function `Transcript`.
- `TestCases` (testcase.dfy) covers the test case.
  - `Generator` composes the five samplers into one sampler of a whole request.
  - `CreateTestCases` builds one test case per operation.
- `Cli` (cli.dfy) covers the command-line front end: the write-plan, read-plan and interactive modes. Console input is a list of lines and a parse function.

Several collaborators the program calls cannot be seen here, so they are parameters of the functions that use them:

- the clock (`Env.clock`);
- `JsonNode.toString` (`text`);
- `URLEncoder.encode` (`encode`);
- `URIBuilder` (`uri`);
- the HTTP transport (`send`);
- running one test case with QuickTheories (`run`);
- `Integer.parseInt` (`parse`).

The model follows what the code does, including where its own comments promise something else:

- A definition that is itself a reference (`RefModel`) is read from the table eagerly while `init` is still building that table (Fuzz.kt:29-30, 166-169). The comment on `DynamicGen` (Fuzz.kt:33-37) says references are bound late, so that recursive and cyclic definitions work. `Fuzz.InitAsWritten` and `TestCases.CreateTestCasesAsWritten` model the code as written. `Fuzz.Init` binds such a definition late, and `TestCases.CreateTestCases` uses it. `TestCases.CreateTestCasesAgree` proves the two agree on every specification without a top-level `RefModel`, and that the as-written one fails on every other. See "## Findings".
- A reference to a missing definition is fatal at construction only where the code looks it up eagerly: a body schema that is a `RefModel` (Fuzz.kt:166-169). Reference properties, and arrays of references, fail only when sampled (`Dangling`).
- A model with no property map samples a constant empty object (Fuzz.kt:149-152).
- The transcript's query segment repeats the builder's contents instead of printing `?` and the `key=encoded value` pairs joined by `&` (Request.kt:152-158). `Requests.Request.PrettyPrintCurl` keeps the text as written, and `Requests.IntendedTranscript` is the corrected text. See "## Findings".

## Model

Source paths are relative to the repository root.

| member | source | states |
|---|---|---|
| Traversable.Sequence | src/main/kotlin/io/github/dariusf/befuzzle/Traversable.kt:9-12 | a successful draw of N samplers has exactly N values |
| Traversable.SequenceFrom | src/main/kotlin/io/github/dariusf/befuzzle/Traversable.kt:18-31 | the indexed recursion from `index` yields `index + 1` values |
| Traversable.SequenceDrawsLastFirst | src/main/kotlin/io/github/dariusf/befuzzle/Traversable.kt:14-31 | `sequence` draws the samplers from last to first: it equals drawing the reversed list in order and reversing the values |
| Traversable.SequenceAt | src/main/kotlin/io/github/dariusf/befuzzle/Traversable.kt:22-27 | the i-th value of a successful draw is a value the i-th sampler produces |
| Traversable.SequenceEmpty | src/main/kotlin/io/github/dariusf/befuzzle/Traversable.kt:19-20 | no samplers give the empty list and read nothing from the stream |
| Traversable.SequenceOfConstants | src/test/kotlin/io/github/dariusf/befuzzle/FuzzTest.kt:25-32 | sequencing the constants 1, 2 and 3 yields `[1, 2, 3]` on every stream |
| Traversable.ArrayList.Add | src/main/kotlin/io/github/dariusf/befuzzle/Traversable.kt:26 | `add` appends one element at the end |
| Traversable.SequenceIndexed | src/main/kotlin/io/github/dariusf/befuzzle/Traversable.kt:18-31 | the method succeeds or fails exactly as `SequenceFrom` does; on success it returns a fresh list whose elements and remaining stream are `SequenceFrom`'s |
| Traversable.SampleSequence | src/main/kotlin/io/github/dariusf/befuzzle/Traversable.kt:9-12 | the public `sequence` gives a fresh list with `Sequence`'s values, or `Sequence`'s error |
| Values.PutFacts | src/main/kotlin/io/github/dariusf/befuzzle/Fuzz.kt:163 | a map put: the key maps to the new value, other keys keep their values, a new key is appended at the end, and distinct keys stay distinct |
| Values.ToMapKeys | src/main/kotlin/io/github/dariusf/befuzzle/Fuzz.kt:163 | `toMap()` keeps the key set, makes keys distinct, and maps each key to its last value in the list |
| Values.ToMapOfDistinct | src/main/kotlin/io/github/dariusf/befuzzle/Fuzz.kt:221-223 | `toMap()` of a list with distinct keys is that list, in the same order |
| Generators.Sample | src/main/kotlin/io/github/dariusf/befuzzle/Fuzz.kt:38-141 | `generate` on every generator the program builds: `oneOf` with null, `pick`, strings, bounds, lists, maps, constants, sequenced objects, and `DynamicGen` looking its definition up when drawn (no contract of its own; `SampleFits` and the `FuzzLemmas` lemmas state what it draws) |
| Generators.SampleFits | src/main/kotlin/io/github/dariusf/befuzzle/Fuzz.kt:60-141 | every value any generator draws satisfies the independent description `Fits` |
| Generators.DrawStringFits | src/main/kotlin/io/github/dariusf/befuzzle/Fuzz.kt:139-141 | a string draw always succeeds, with a length inside the bounds and only basic Latin characters |
| Generators.SequencedFits | src/main/kotlin/io/github/dariusf/befuzzle/Fuzz.kt:153-164 | an object built by sequencing named fields fits the object description: one entry per field, each field's value from that field's generator |
| Generators.FieldDrawsFit | src/main/kotlin/io/github/dariusf/befuzzle/Fuzz.kt:153-164 | sequencing the field samplers draws one pair per field, in field order, each named after its field and holding a value of that field's generator |
| Generators.PairsFitObject | src/main/kotlin/io/github/dariusf/befuzzle/Fuzz.kt:153-164 | pairs drawn field by field, collected into a map, give an object that fits the sequenced description |
| Generators.SampleMapFits | src/main/kotlin/io/github/dariusf/befuzzle/Fuzz.kt:221-223 | an empty parameter map samples `{}` without reading the stream; a field map samples an object that fits its fields |
| Generators.SampleItemsFit | src/main/kotlin/io/github/dariusf/befuzzle/Fuzz.kt:115 | drawing n list items gives n values, each fitting the item generator |
| Generators.SampleEntriesFit | src/main/kotlin/io/github/dariusf/befuzzle/Fuzz.kt:122 | drawing n map entries gives n pairs with keys inside the key bounds and values fitting the value generator |
| Fuzz.PropertyGen | src/main/kotlin/io/github/dariusf/befuzzle/Fuzz.kt:60-64 | `propertyGen`: `oneOf` of null and the property's own generator (no contract of its own; see the `FuzzLemmas` rows for enums, strings, arrays, maps and references) |
| Fuzz.PropertyGenAux | src/main/kotlin/io/github/dariusf/befuzzle/Fuzz.kt:66-137 | `propertyGenAux`: one generator per property kind, with the enum, length and size defaults and the errors for a reference and an unknown kind (no contract of its own; see `FuzzLemmas`) |
| Fuzz.FieldGen | src/main/kotlin/io/github/dariusf/befuzzle/Fuzz.kt:153-160 | one object field: a late-bound reference for a ref property, `propertyGen` otherwise (no contract of its own; see `FuzzLemmas.FieldGensShape` and `FieldFits`) |
| Fuzz.ModelGen | src/main/kotlin/io/github/dariusf/befuzzle/Fuzz.kt:143-183 | `modelGen` for an object, a reference and an array model (no contract of its own; see `FuzzLemmas.ObjectModelSamples`, `RefModelResolvedAtConstruction` and `ArrayModelOfRefSamplesDefinition`) |
| Fuzz.InitAsWritten | src/main/kotlin/io/github/dariusf/befuzzle/Fuzz.kt:28-31 | the table `init` assigns, with `modelGen` run while `definitions` is still unassigned (no contract of its own; see `FuzzLemmas.InitAsWrittenTable` and `InitAsWrittenRejectsTopLevelRef`) |
| Fuzz.Init | src/main/kotlin/io/github/dariusf/befuzzle/Fuzz.kt:28-31 | the corrected table, binding a top-level `RefModel` late (no contract of its own; see `FuzzLemmas.InitTable` and `InitAgreesWithoutAliases`) |
| Fuzz.ScalarParamGen | src/main/kotlin/io/github/dariusf/befuzzle/Fuzz.kt:252-264 | the path, header and form generator by declared type and format (no contract of its own; see `FuzzLemmas.ParamGenSupported` and `ScalarParamSamples`) |
| Fuzz.ParamGen | src/main/kotlin/io/github/dariusf/befuzzle/Fuzz.kt:194-342 | the generator of one query, path, header or form parameter (no contract of its own; see `FuzzLemmas.ParamGenSupported`) |
| Fuzz.LocationGen | src/main/kotlin/io/github/dariusf/befuzzle/Fuzz.kt:194-226 | the shared shape of the four parameter-map generators: a constant empty map with no parameters, otherwise the sequenced parameter generators (no contract of its own; see `FuzzLemmas.LocationGenBuilds` and `LocationGenKeys`) |
| Fuzz.BodyParamsGenerator | src/main/kotlin/io/github/dariusf/befuzzle/Fuzz.kt:228-241 | `bodyParamsGenerator` (no contract of its own; see `FuzzLemmas.BodyParamsRules`) |
| Fuzz.PickOf | src/main/kotlin/io/github/dariusf/befuzzle/Fuzz.kt:69-73 | `pick` builds iff the enum list is not empty |
| Fuzz.StringGen | src/main/kotlin/io/github/dariusf/befuzzle/Fuzz.kt:139-141 | the string generator builds iff `0 <= min <= max` |
| Fuzz.ListGen | src/main/kotlin/io/github/dariusf/befuzzle/Fuzz.kt:115 | the list generator builds iff `0 <= min <= max` |
| Fuzz.ParamsIn | src/main/kotlin/io/github/dariusf/befuzzle/Fuzz.kt:196-198 | the filter keeps exactly the parameters of one location |
| FuzzLemmas.EnumSamplesAreMembers | src/main/kotlin/io/github/dariusf/befuzzle/Fuzz.kt:69-100 | an enum property builds iff its enum is non-empty, and then every draw is null or an enum member |
| FuzzLemmas.StringSamplesWithinBounds | src/main/kotlin/io/github/dariusf/befuzzle/Fuzz.kt:92-100 | a non-enum string property builds iff `0 <= minLength⊳0 <= maxLength⊳5`, and then draws null or a basic Latin string of a length in those bounds |
| FuzzLemmas.ArraySamplesWithinBounds | src/main/kotlin/io/github/dariusf/befuzzle/Fuzz.kt:107-116 | a non-ref array builds iff its item builds and the size bounds are valid; it draws null or a list whose size is within `[minItems⊳0, maxItems⊳5]` and whose every element fits the nullable item generator |
| FuzzLemmas.MapSamplesShape | src/main/kotlin/io/github/dariusf/befuzzle/Fuzz.kt:118-124 | a map property draws null or an object of at most 4 distinct keys of length at most 5, each value fitting the value generator |
| FuzzLemmas.ObjectPropertySamplesShape | src/main/kotlin/io/github/dariusf/befuzzle/Fuzz.kt:125-131 | an object property draws null or an object of at most 4 distinct keys, with keys and string values of length at most 5 |
| FuzzLemmas.ArrayOfRefSamplesOneValue | src/main/kotlin/io/github/dariusf/befuzzle/Fuzz.kt:107-110 | an array of references draws null or one value of the referenced definition, not a list |
| FuzzLemmas.ArrayModelOfRefSamplesDefinition | src/main/kotlin/io/github/dariusf/befuzzle/Fuzz.kt:171-178 | an array model of a reference builds, draws exactly what the referenced definition draws when it exists, and fails with `Dangling` when it does not |
| FuzzLemmas.RefModelResolvedAtConstruction | src/main/kotlin/io/github/dariusf/befuzzle/Fuzz.kt:166-170 | a `RefModel` is the table's generator for its name, or "not defined; problem parsing?" at construction |
| FuzzLemmas.RefInEagerPositionFails | src/main/kotlin/io/github/dariusf/befuzzle/Fuzz.kt:132-133 | a reference as a map value, as a query item, or as the value of a map that is an array's item fails at construction with the "handled before this point" error |
| FuzzLemmas.FieldGensShape | src/main/kotlin/io/github/dariusf/befuzzle/Fuzz.kt:153-160 | the field generators build iff every field's does, and then one generator per field, in order, under the field's name |
| FuzzLemmas.ObjectModelSamples | src/main/kotlin/io/github/dariusf/befuzzle/Fuzz.kt:153-164 | an object model draws an object whose key set is exactly its declared property names, with distinct keys, each value fitting that property (null or structural for non-refs, the referenced definition's value for refs) |
| FuzzLemmas.FieldFits | src/main/kotlin/io/github/dariusf/befuzzle/Fuzz.kt:155-159 | a field's value fits its property: refs unwrapped, other properties nullable |
| FuzzLemmas.ModelWithoutPropertiesSamplesEmptyObject | src/main/kotlin/io/github/dariusf/befuzzle/Fuzz.kt:149-152 | a model with no property map samples the empty object and reads nothing from the stream |
| FuzzLemmas.RefFieldsResolveWhenSampled | src/main/kotlin/io/github/dariusf/befuzzle/Fuzz.kt:38-45 | an object model with a ref field builds the same generator whatever the table holds at construction; a dangling ref field fails only when sampled |
| FuzzLemmas.DefinitionGensShape | src/main/kotlin/io/github/dariusf/befuzzle/Fuzz.kt:29-30 | mapping the definitions succeeds iff each succeeds, and then gives one generator per definition, in order |
| FuzzLemmas.TableOfFacts | src/main/kotlin/io/github/dariusf/befuzzle/Fuzz.kt:30 | `toMap()` into a table has exactly the listed names as keys, and with distinct names each maps to its own generator |
| FuzzLemmas.InitTable | src/main/kotlin/io/github/dariusf/befuzzle/Fuzz.kt:29-30 | the corrected table builds iff every definition does; its keys are exactly the definition names, each mapped to that definition's generator |
| FuzzLemmas.InitAliasSamplesTarget | src/main/kotlin/io/github/dariusf/befuzzle/Fuzz.kt:166-169 | in the corrected table an alias definition samples what its target samples, one fuel unit later, or `Dangling` when the target is missing |
| FuzzLemmas.InitAsWrittenRejectsTopLevelRef | src/main/kotlin/io/github/dariusf/befuzzle/Fuzz.kt:29-30 | as written, any specification with a top-level `RefModel` definition fails while the table is being built |
| FuzzLemmas.AliasDocument | src/main/kotlin/io/github/dariusf/befuzzle/Fuzz.kt:29-30 | on two definitions, `Pet` and an alias to it, the table as written fails with an uninitialised read, and the corrected table binds the alias late |
| FuzzLemmas.InitAgreesWithoutAliases | src/main/kotlin/io/github/dariusf/befuzzle/Fuzz.kt:28-31 | when no definition is itself a `RefModel`, the table `init` computes is exactly the corrected table |
| FuzzLemmas.InitAsWrittenTable | src/main/kotlin/io/github/dariusf/befuzzle/Fuzz.kt:28-31 | when no definition is a `RefModel`, the table `init` computes builds iff every definition's `modelGen` does; its keys are the definition names, and with distinct names each holds its definition's own generator |
| FuzzLemmas.ParamGenSupported | src/main/kotlin/io/github/dariusf/befuzzle/Fuzz.kt:208-217 | a parameter's generator builds iff its type is supported at its location; otherwise it fails with "unimplemented type" |
| FuzzLemmas.ScalarParamSamples | src/main/kotlin/io/github/dariusf/befuzzle/Fuzz.kt:254-264 | a path, header or form parameter always draws: null or a basic Latin string of at most 5 characters for `string` and `file`, null or a 64-bit number for int64, and null or a 32-bit number for other integers |
| FuzzLemmas.ParamGensShape | src/main/kotlin/io/github/dariusf/befuzzle/Fuzz.kt:203-219 | the parameter generators build iff each does, and then one per parameter, in order, under its name |
| FuzzLemmas.ParamGensSupported | src/main/kotlin/io/github/dariusf/befuzzle/Fuzz.kt:203-219 | the parameter generators build iff every parameter's type is supported |
| FuzzLemmas.LocationGenBuilds | src/main/kotlin/io/github/dariusf/befuzzle/Fuzz.kt:194-226 | a location's map generator builds iff all its parameters are supported; it is the constant empty map iff the location has no parameters |
| FuzzLemmas.LocationGenKeys | src/main/kotlin/io/github/dariusf/befuzzle/Fuzz.kt:221-223 | a location's sampled map has exactly that location's parameter names as distinct keys, each value drawn by that parameter's generator |
| FuzzLemmas.FieldsMapFits | src/main/kotlin/io/github/dariusf/befuzzle/Fuzz.kt:221-223 | any object fitting a parameter field map has the parameter names as its key set, and each value fits its parameter's generator |
| FuzzLemmas.BodyParamsRules | src/main/kotlin/io/github/dariusf/befuzzle/Fuzz.kt:228-241 | more than one body parameter fails; none gives no body sampler; exactly one gives the schema's model generator or its error |
| Requests.Validate | src/main/kotlin/io/github/dariusf/befuzzle/Request.kt:41-98 | the exception `buildRequest` throws for a request, if any (no contract of its own; see `Requests.ValidationRules`) |
| Requests.ValidationRules | src/main/kotlin/io/github/dariusf/befuzzle/Request.kt:46-98 | GET passes iff it has no body and no form (the body check first); POST/PUT/PATCH/DELETE pass iff not both body and form; other methods are unimplemented |
| Requests.CheckStatus | src/main/kotlin/io/github/dariusf/befuzzle/Request.kt:112-119 | the status oracle (no contract of its own; see `Requests.OracleTable`) |
| Requests.OracleTable | src/main/kotlin/io/github/dariusf/befuzzle/Request.kt:112-119 | a 5xx status always fails; any other status passes iff it is 2xx, undeclared statuses are allowed, or it is declared |
| Requests.HttpRequest.constructor | src/main/kotlin/io/github/dariusf/befuzzle/Request.kt:50 | a new Unirest request builder for the method and URL, with no calls recorded |
| Requests.HttpRequest.Add | src/main/kotlin/io/github/dariusf/befuzzle/Request.kt:58-60 | one builder call is recorded at the end of the calls made so far |
| Requests.AddAll | src/main/kotlin/io/github/dariusf/befuzzle/Request.kt:58-60 | a `forEach` over a map appends one builder call per entry, in map order |
| Requests.Request.constructor | src/main/kotlin/io/github/dariusf/befuzzle/Request.kt:15-30 | a new request holds its data and no cached builder |
| Requests.Request.BuildRequest | src/main/kotlin/io/github/dariusf/befuzzle/Request.kt:41-93 | a cached builder is returned unchanged; otherwise an invalid request fails and caches nothing; a valid one caches a fresh builder with the method, the URL, and the content-type header followed by the body, query, route, header and field calls |
| Requests.Request.AddGetParams | src/main/kotlin/io/github/dariusf/befuzzle/Request.kt:58-60 | the GET branch adds the query, route and header calls, in that order |
| Requests.Request.AddParams | src/main/kotlin/io/github/dariusf/befuzzle/Request.kt:95-106 | a body together with form fields is refused before any call is made; otherwise the body, query, route, header and field calls are added |
| Requests.Request.Check | src/main/kotlin/io/github/dariusf/befuzzle/Request.kt:32-39 | an invalid request fails; otherwise the verdict on the transport's answer for the built builder |
| Requests.Request.PrettyPrintCurl | src/main/kotlin/io/github/dariusf/befuzzle/Request.kt:139-182 | the printed text is `Transcript`, query segment as written |
| Requests.SubstitutePath | src/main/kotlin/io/github/dariusf/befuzzle/Request.kt:142-145 | the URL after each path entry in turn has replaced its placeholder (no contract of its own; see `Requests.SubstitutePathInstantiates`) |
| Requests.Transcript | src/main/kotlin/io/github/dariusf/befuzzle/Request.kt:139-182 | the text `prettyPrintCurl` returns (no contract of its own; see `Requests.TranscriptLayout`, `PayloadChoice` and `TranscriptRepeatsQuery`) |
| Requests.InstantiateUrl | src/main/kotlin/io/github/dariusf/befuzzle/Request.kt:142-145 | the URL loop yields the URL after each path entry in turn has replaced its placeholder |
| Requests.AppendQuery | src/main/kotlin/io/github/dariusf/befuzzle/Request.kt:152-159 | the query loop yields the as-written query segment |
| Requests.AppendHeaders | src/main/kotlin/io/github/dariusf/befuzzle/Request.kt:161-167 | the header loop appends `-H k v ` for each header, in order |
| Requests.SubstitutesEveryPlaceholder | src/main/kotlin/io/github/dariusf/befuzzle/Request.kt:144 | in a URL template whose literal text holds no `{` and whose placeholder names hold no brace, replacing `{key}` fills every placeholder of that key and leaves the placeholders of other names as they are |
| Requests.SubstitutePathInstantiates | src/main/kotlin/io/github/dariusf/befuzzle/Request.kt:142-145 | substituting every path entry in turn into such a template fills each placeholder whose name the path map holds with the text of that name's first value and keeps the rest, when no entry name holds a brace and no value's text holds `{` |
| Requests.TranscriptLayout | src/main/kotlin/io/github/dariusf/befuzzle/Request.kt:147-150 | the transcript starts with `curl -v -X METHOD url `; without a query it is that, then the headers, then the payload |
| Requests.PayloadChoice | src/main/kotlin/io/github/dariusf/befuzzle/Request.kt:169-179 | the payload is `-d '<body>'` when there is a body, whatever the form holds; otherwise, for a non-empty form, `-d '`, then each pair once as `k=encoded value`, in order, joined by `&` (the reference `Joined` over `PairTexts`), then `'`; otherwise nothing |
| Requests.JoinedPairsAsJoin | src/main/kotlin/io/github/dariusf/befuzzle/Request.kt:175-177 | the form pairs, built by extending with the last pair, equal the reference join built from the front: the pair texts in order with `&` between neighbours |
| Requests.HeaderSegmentFront | src/main/kotlin/io/github/dariusf/befuzzle/Request.kt:161-167 | the header segment is the first header's `-H k v ` followed by the rest's |
| Requests.QuerySegmentOneEntry | src/main/kotlin/io/github/dariusf/befuzzle/Request.kt:152-158 | as written, one query entry prints the prefix and the pair twice |
| Requests.QuerySegmentTwoEntries | src/main/kotlin/io/github/dariusf/befuzzle/Request.kt:152-158 | as written, two query entries print both pairs run together, then a copy of each intermediate builder state |
| Requests.QueryStateExtends | src/main/kotlin/io/github/dariusf/befuzzle/Request.kt:155-157 | the query loop only ever appends to the builder |
| Requests.TranscriptRepeatsQuery | src/main/kotlin/io/github/dariusf/befuzzle/Request.kt:152-158 | with one query entry the printed transcript repeats its prefix and the pair, so it differs from the intended one |
| Requests.IntendedQuerySegment | src/main/kotlin/io/github/dariusf/befuzzle/Request.kt:152-158 | the corrected transcript lists each query pair once, in order, separated by `&`, and is unchanged without a query |
| Requests.IntendedQueryJoined | src/main/kotlin/io/github/dariusf/befuzzle/Request.kt:152-158 | the corrected query segment is `?` and the pair texts, in order, joined by `&` |
| Requests.IntendedTranscriptWithoutQuery | src/main/kotlin/io/github/dariusf/befuzzle/Request.kt:152-159 | without query entries the printed transcript already is the intended one |
| Requests.TranscriptOneQueryEntry | src/main/kotlin/io/github/dariusf/befuzzle/Request.kt:152-158 | with one query entry the printed transcript is the prefix and pair written twice, then the headers and the payload |
| Requests.IntendedTranscriptOneQueryEntry | src/main/kotlin/io/github/dariusf/befuzzle/Request.kt:152-158 | with one query entry the intended transcript is the prefix and pair once, then the headers and the payload |
| TestCases.Generator | src/main/kotlin/io/github/dariusf/befuzzle/TestCase.kt:31-53 | `generator()`: the chain of draws that makes one request (no contract of its own; see the four `TestCases.Generator…` lemmas) |
| TestCases.OperationTestCase | src/main/kotlin/io/github/dariusf/befuzzle/Fuzz.kt:358-380 | one operation's test case (no contract of its own; see `TestCases.OperationErrors` and `OperationTestCaseShape`) |
| TestCases.CreateTestCases | src/main/kotlin/io/github/dariusf/befuzzle/Fuzz.kt:347-383 | `createTestCases` on the corrected table (no contract of its own; see `TestCases.TestCasesOfShape` and `CreateTestCasesAgree`) |
| TestCases.CreateTestCasesAsWritten | src/main/kotlin/io/github/dariusf/befuzzle/Fuzz.kt:347-383 | `createTestCases` as written, on the table `init` computes (no contract of its own; see `TestCases.CreateTestCasesAgree`) |
| TestCases.GeneratorSameTarget | src/main/kotlin/io/github/dariusf/befuzzle/TestCase.kt:37-42 | every sampled request has the same method and the same URL, built from `http`, the host, the port and the endpoint |
| TestCases.GeneratorDrawOrder | src/main/kotlin/io/github/dariusf/befuzzle/TestCase.kt:31-53 | a sampled request's maps come from drawing header, form, path, query and then the body, each on the stream the previous left, and are passed on unchanged |
| TestCases.GeneratorFailsFirst | src/main/kotlin/io/github/dariusf/befuzzle/TestCase.kt:32-35 | a failing header draw, or a failing form draw after a good header draw, is the request's failure |
| TestCases.GeneratorBodyFits | src/main/kotlin/io/github/dariusf/befuzzle/TestCase.kt:44-48 | a request has a body iff the test case has a body sampler, and the body fits that sampler |
| TestCases.TestCasesOfShape | src/main/kotlin/io/github/dariusf/befuzzle/Fuzz.kt:354-383 | the test cases build iff every operation's does; then one per operation, in order, with its endpoint, method and declared responses, and the configured host and port |
| TestCases.TestCasesOk | src/main/kotlin/io/github/dariusf/befuzzle/Fuzz.kt:354-383 | the list of test cases is built iff every operation's test case is |
| TestCases.TestCasesElements | src/main/kotlin/io/github/dariusf/befuzzle/Fuzz.kt:354-383 | a built list has one entry per operation, and entry i is operation i's test case |
| TestCases.OperationErrors | src/main/kotlin/io/github/dariusf/befuzzle/Fuzz.kt:361-375 | several body parameters fail first; a query error comes after the body; a built test case has only known locations with supported types; an unknown location fails once the five samplers are built |
| TestCases.BuiltOperationSupported | src/main/kotlin/io/github/dariusf/befuzzle/Fuzz.kt:361-375 | a built test case has every parameter in one of the five locations and every query, path, header and form parameter of a supported type |
| TestCases.OtherParameterRefused | src/main/kotlin/io/github/dariusf/befuzzle/Fuzz.kt:361-375 | once the body, query, path, header and form samplers are built, a parameter of any other kind makes the operation fail as not implemented |
| TestCases.TestCaseMapKeys | src/main/kotlin/io/github/dariusf/befuzzle/Fuzz.kt:362-365 | a built test case's query, path, header and form samples are keyed by exactly that location's parameter names |
| TestCases.OperationsCount | src/main/kotlin/io/github/dariusf/befuzzle/Fuzz.kt:354-357 | there is one operation entry per operation of every path, the first path's coming first |
| TestCases.OperationTestCaseShape | src/main/kotlin/io/github/dariusf/befuzzle/Fuzz.kt:377-380 | a built test case carries the operation's endpoint, method and declared responses and the configured host and port |
| TestCases.CreateTestCasesAgree | src/main/kotlin/io/github/dariusf/befuzzle/Fuzz.kt:347-383 | the source's `createTestCases` equals the corrected one on every specification without a top-level `RefModel`, and fails on every specification with one |
| TestCases.LateReadsBuiltTable | src/main/kotlin/io/github/dariusf/befuzzle/Fuzz.kt:38-45 | once `createTestCases` has built its table, a late-bound reference sampled under that table is dangling when the document does not define its name, and otherwise samples that definition's generator |
| TestCases.AliasDocumentTestCases | src/main/kotlin/io/github/dariusf/befuzzle/Fuzz.kt:352 | on a definition, an alias of it and no paths, the source throws an uninitialised read of `definitions`, while the corrected version makes no test cases |
| Cli.WritePlan | src/main/kotlin/io/github/dariusf/befuzzle/CLI.kt:35 | one record per test case, in order, with its method and endpoint and 100 examples |
| Cli.FirstMatch | src/main/kotlin/io/github/dariusf/befuzzle/CLI.kt:41 | a record finds a test case iff one matches its method and endpoint, and then it finds the first; otherwise it fails with index 0 out of bounds |
| Cli.ReadPlan | src/main/kotlin/io/github/dariusf/befuzzle/CLI.kt:40-41 | reading succeeds iff every record finds a test case, and then pairs each record, in order, with its first match and its example count |
| Cli.PlanRoundTrip | src/main/kotlin/io/github/dariusf/befuzzle/CLI.kt:35-41 | reading back a written plan succeeds and gives the same (method, endpoint, 100) triples in order, and the very same test cases when no two share a method and endpoint |
| Cli.RunPlan | src/main/kotlin/io/github/dariusf/befuzzle/CLI.kt:42 | tests run in plan order with their example counts; the run passes iff every test passes, and otherwise stops at the first that fails |
| Cli.Decrement32 | src/main/kotlin/io/github/dariusf/befuzzle/CLI.kt:94 | `oChoice - 1` on a 32-bit `Int`: one less, except that the smallest `Int` wraps to the largest |
| Cli.Choose | src/main/kotlin/io/github/dariusf/befuzzle/CLI.kt:82-95 | `choose`: re-asks on a line that is not a number, then answers that number minus one (no contract of its own; see `Cli.ChooseFirstNumber` and `ChooseAt`) |
| Cli.ChooseFirstNumber | src/main/kotlin/io/github/dariusf/befuzzle/CLI.kt:82-95 | `choose` fails iff no line parses; otherwise it takes the first line that does, gives that number minus one, and leaves the later lines |
| Cli.ChooseAt | src/main/kotlin/io/github/dariusf/befuzzle/CLI.kt:82-95 | when line k is the first that parses, `choose` returns that number minus one (as an `Int`) and the lines after line k |
| Cli.PrintMenu | src/main/kotlin/io/github/dariusf/befuzzle/CLI.kt:83-86 | the menu loop prints the k-th choice as `k) choice`, numbered from 1 |
| Cli.MenuLabels | src/main/kotlin/io/github/dariusf/befuzzle/CLI.kt:85 | the menu's k-th line labels the k-th choice with k |
| Cli.Interactive | src/main/kotlin/io/github/dariusf/befuzzle/CLI.kt:52-80 | `interactive`: a choice, then an example count, then the chosen test case (no contract of its own; see `Cli.InteractiveChoice`) |
| Cli.InteractiveChoice | src/main/kotlin/io/github/dariusf/befuzzle/CLI.kt:52-80 | entering n in 1..size runs test case n with the next line's count (or 100); any other n fails with index n - 1 out of bounds, computed as a 32-bit `Int` |
| Cli.Execute | src/main/kotlin/io/github/dariusf/befuzzle/CLI.kt:31-45 | `execute` by mode (no contract of its own; see `Cli.ExecuteModes`) |
| Cli.ExecuteModes | src/main/kotlin/io/github/dariusf/befuzzle/CLI.kt:31-45 | write-plan always succeeds; read-plan succeeds iff every record has a match, and then yields each record's match and count; interactive yields one of the test cases |

## Left out

- Console and file I/O are not modelled. That covers the prompts, the emoji, `println(this)` in `check`, the YAML writing and reading of plans, `setup` and `shutdown` (the HTTP client, Logbook logging, the proxy), and `Main.kt` and `Config.kt`. Plans arrive as a list, console input as a list of lines, and the configuration as the three fields the core reads.
- QuickTheories internals are not modelled: distributions, the bias of `oneOf`, shrinking, and the `forAll` loop of `TestCase.execute`. A run of one test case is the parameter `run`; the model states only ranges and shapes.
- Floats and doubles are opaque integer codes (`JFloat`).
- Generators.Sample: the clock is one reading per environment (`Env.clock`, a string), so every date-time value sampled under one `Env` has the same text. The source's `constant(Utility::nowISO8601)` (Fuzz.kt:105) reads the clock again on every draw.
- `JsonNode.toString`, `URLEncoder.encode`, `URIBuilder`, `Integer.parseInt` and the HTTP transport are uninterpreted function parameters. Jackson's conversion of values to JSON nodes is the identity on the `Json` datatype.
- Requests.SubstitutePath: the source splices the key into a regular expression, and the replacement text treats `$` and `\` specially. The model replaces the literal `{key}` by the literal value, which agrees only when keys hold no regular-expression metacharacters and values hold no `$` or `\`.
- Requests.SubstitutePathInstantiates: is stated only for URLs whose literal text holds no `{`, whose placeholder and entry names hold no brace, and whose values' texts hold no `{`. Otherwise an inserted value can form or split a placeholder, and the result depends on the order of the entries.
- FuzzLemmas.MapSamplesShape: states at most 4 entries, not exactly 4. The library's handling of duplicate keys in `maps().ofSize(4)` is not modelled: the model draws 4 pairs and lets `toMap()` merge equal keys.
- FuzzLemmas.ObjectPropertySamplesShape: at most 4 entries, for the same reason.
- Traversable.SampleSequence: with no samplers at all, the source hands every draw the one `ArrayList` built when the generator was made, while the model builds a new one per draw. No element is ever added to that list, so nothing observable differs.
- Generators.Sample: a `Late` reference spends one unit of `fuel`, and running out is the error `OutOfFuel`. The source has no such bound: a self-referential definition can recurse without end, and a deep one can overflow the stack.
- Fuzz.PickOf, StringGen and ListGen return `InvalidArgument` for the library's own argument checks (an empty `pick` list, negative or crossed bounds). The library's exact exceptions are not modelled.
- TestCases.OperationTestCase: the "other parameter types" error omits the printed parameter list from its message.
- TestCases.CreateTestCases: takes the parsed specification. Parsing the file, and the order in which the specification's maps are iterated, are not modelled. The nested `flatMap` over paths and operations is the flattened list `Operations`. It builds its table with the corrected `Fuzz.Init`, not the source's `init`. `TestCases.CreateTestCasesAsWritten` is the source's version. The two agree whenever no definition is itself a `RefModel` (`TestCases.CreateTestCasesAgree`), and the source's version throws whenever one is.
- Request fields: the source hands the sampled `Map<String, JsonNode>` values to a `Request` that declares `Map<String, String>` fields (TestCase.kt:45 vs Request.kt:18-21). The model keeps JSON values and renders them with `text` wherever a string is needed.
- TestCase constructor: Fuzz.kt:378-379 passes nine arguments, while TestCase.kt:13-23 takes eleven, starting with `config` and ending with `declaredResponses`. The model fills the test case from the configuration's host and port and the operation's declared responses; `allowUndeclared` reaches `Request.Check` as an argument.
- Cli.RunPlan: CLI.kt:42 calls `t.execute(n)`, but `TestCase.execute` takes no argument (TestCase.kt:25). The model passes each record's count to `run`.
- Cli.Execute: CLI.kt:33 reads `config.mode`, which `Config.kt` does not declare. The mode is a parameter.

## Findings

| source | as written | input that shows it | evidently intended | confidence | as-written member | corrected member |
|---|---|---|---|---|---|---|
| src/main/kotlin/io/github/dariusf/befuzzle/Fuzz.kt:29-30 | `init` calls `modelGen` on every definition, and for a `RefModel` definition `modelGen` reads `definitions` (Fuzz.kt:168) before `init` has assigned it, so the read finds no table | definitions `Pet` (a model with no properties) and `Alias` (a `RefModel` to `Pet`) | a definition that only names another is bound late, like every other reference, so `Alias` samples what `Pet` samples | not executed | FuzzLemmas.AliasDocument | FuzzLemmas.InitAliasSamplesTarget |
| src/main/kotlin/io/github/dariusf/befuzzle/Request.kt:152-158 | the `joinToString` transform appends each pair to the builder it is joining into and returns that builder, so the builder's whole text is repeated in the joined part | one query entry `id=1`: the transcript holds `curl -v -X GET url ?id=1curl -v -X GET url ?id=1` | `?` followed by the `key=encoded value` pairs joined by `&`, each once | not executed | Requests.TranscriptRepeatsQuery | Requests.IntendedQuerySegment |

`Fuzz.Init` is the corrected table, and `TestCases.CreateTestCases` uses it. `Fuzz.InitAsWritten` and `TestCases.CreateTestCasesAsWritten` are the source's. `FuzzLemmas.InitAgreesWithoutAliases` and `TestCases.CreateTestCasesAgree` prove that the two differ only on specifications with a top-level `RefModel`. `TestCases.AliasDocumentTestCases` shows the difference on one document. `Requests.IntendedTranscript` is the corrected transcript. `Requests.Request.PrettyPrintCurl` keeps the source's text, since nothing in the model reads the transcript back.
