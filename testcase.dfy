/** `TestCase`: the per-operation samplers, composed into one sampler of whole
    requests; and `createTestCases`, which builds one test case per operation. */
module TestCases {
  import opened Base
  import opened Values
  import opened Swagger
  import opened Generators
  import opened Fuzz
  import opened FuzzLemmas
  import opened Requests

  /** The fields of the command-line configuration that the core reads. */
  datatype Config = Config(host: string, port: int, allowUndeclared: bool)

  /** A test case that has not been made concrete: the operation and its samplers. */
  datatype TestCase = TestCase(
    host: string,
    endpoint: string,
    port: int,
    verb: HttpMethod,
    body: Option<Gen>,
    query: MapGen,
    path: MapGen,
    header: MapGen,
    form: MapGen,
    declaredResponses: set<int>)

  /** `URIBuilder().setScheme(..).setHost(..).setPort(..).setPath(..).build().toASCIIString()`. */
  type UriBuilder = (string, string, int, string) -> string

  function Url(tc: TestCase, uri: UriBuilder): string {
    uri("http", tc.host, tc.port, tc.endpoint)
  }

  /** `generator()`: header, form, path and query maps are drawn in that order,
      then the body when there is a body sampler. */
  function Generator(tc: TestCase, env: Env, fuel: nat, uri: UriBuilder, s: Stream): Draw<RequestData> {
    match SampleMap(tc.header, env, fuel, s)
    case Failed(e) => Failed(e)
    case Drawn(hs, s1) =>
      match SampleMap(tc.form, env, fuel, s1)
      case Failed(e) => Failed(e)
      case Drawn(fs, s2) =>
        match SampleMap(tc.path, env, fuel, s2)
        case Failed(e) => Failed(e)
        case Drawn(ps, s3) =>
          match SampleMap(tc.query, env, fuel, s3)
          case Failed(e) => Failed(e)
          case Drawn(qs, s4) =>
            var url := Url(tc, uri);
            if tc.body.None? then Drawn(RequestData(url, tc.verb, None, qs, ps, hs, fs), s4)
            else
              match Sample(tc.body.value, env, fuel, s4)
              case Failed(e) => Failed(e)
              case Drawn(bd, s5) => Drawn(RequestData(url, tc.verb, Some(bd), qs, ps, hs, fs), s5)
  }

  /** Every sampled request of a test case has the same URL and method, whatever the randomness. */
  lemma GeneratorSameTarget(tc: TestCase, env: Env, fuel: nat, uri: UriBuilder, s1: Stream, s2: Stream)
    requires Generator(tc, env, fuel, uri, s1).Drawn? && Generator(tc, env, fuel, uri, s2).Drawn?
    ensures Generator(tc, env, fuel, uri, s1).value.url == Generator(tc, env, fuel, uri, s2).value.url
    ensures Generator(tc, env, fuel, uri, s1).value.url == uri("http", tc.host, tc.port, tc.endpoint)
    ensures Generator(tc, env, fuel, uri, s1).value.verb == Generator(tc, env, fuel, uri, s2).value.verb == tc.verb
  {
  }

  /** The draw order: header from the stream given, form from what header left,
      then path, then query, then the body; each sampled map is passed on
      unchanged, the body is present exactly when there is a body sampler and is
      then the value it drew. */
  lemma GeneratorDrawOrder(tc: TestCase, env: Env, fuel: nat, uri: UriBuilder, s: Stream)
    requires Generator(tc, env, fuel, uri, s).Drawn?
    ensures var r := Generator(tc, env, fuel, uri, s);
            var h := SampleMap(tc.header, env, fuel, s);
            h.Drawn? && r.value.header == h.value
            && var f := SampleMap(tc.form, env, fuel, h.rest);
               f.Drawn? && r.value.form == f.value
               && var p := SampleMap(tc.path, env, fuel, f.rest);
                  p.Drawn? && r.value.path == p.value
                  && var q := SampleMap(tc.query, env, fuel, p.rest);
                     q.Drawn? && r.value.query == q.value
                     && (tc.body.None? ==> r.value.body.None? && r.rest == q.rest)
                     && (tc.body.Some? ==>
                           var b := Sample(tc.body.value, env, fuel, q.rest);
                           b.Drawn? && r.value.body == Some(b.value) && r.rest == b.rest)
  {
  }

  /** A draw that fails fails the whole request, with its own error; a later draw never runs. */
  lemma GeneratorFailsFirst(tc: TestCase, env: Env, fuel: nat, uri: UriBuilder, s: Stream)
    ensures SampleMap(tc.header, env, fuel, s).Failed? ==>
              Generator(tc, env, fuel, uri, s) == Failed(SampleMap(tc.header, env, fuel, s).error)
    ensures SampleMap(tc.header, env, fuel, s).Drawn?
            && SampleMap(tc.form, env, fuel, SampleMap(tc.header, env, fuel, s).rest).Failed? ==>
              Generator(tc, env, fuel, uri, s)
              == Failed(SampleMap(tc.form, env, fuel, SampleMap(tc.header, env, fuel, s).rest).error)
  {
  }

  /** A sampled body is a value its sampler can produce. */
  lemma GeneratorBodyFits(tc: TestCase, env: Env, fuel: nat, uri: UriBuilder, s: Stream)
    requires Generator(tc, env, fuel, uri, s).Drawn?
    ensures tc.body.None? <==> Generator(tc, env, fuel, uri, s).value.body.None?
    ensures tc.body.Some? ==> Fits(tc.body.value, env, fuel, Generator(tc, env, fuel, uri, s).value.body.value)
  {
    GeneratorDrawOrder(tc, env, fuel, uri, s);
    if tc.body.Some? {
      var h := SampleMap(tc.header, env, fuel, s);
      var f := SampleMap(tc.form, env, fuel, h.rest);
      var p := SampleMap(tc.path, env, fuel, f.rest);
      var q := SampleMap(tc.query, env, fuel, p.rest);
      SampleFits(tc.body.value, env, fuel, q.rest);
    }
  }

  // ---------------------------------------------------------------------------
  // `createTestCases`.

  /** One operation's test case. The samplers are built in the order body, query,
      path, header, form, so the first of them to throw decides the error; only
      then are parameters outside the five locations refused. */
  function OperationTestCase(config: Config, endpoint: string, verb: HttpMethod, op: Operation, table: map<string, Gen>): Result<TestCase> {
    var params := op.parameters;
    match BodyParamsGenerator(params, table)
    case Err(e) => Err(e)
    case Ok(bodyGen) =>
      match QueryParamsGenerator(params)
      case Err(e) => Err(e)
      case Ok(queryGen) =>
        match PathParamsGenerator(params)
        case Err(e) => Err(e)
        case Ok(pathGen) =>
          match HeaderParamsGenerator(params)
          case Err(e) => Err(e)
          case Ok(headerGen) =>
            match FormParamsGenerator(params)
            case Err(e) => Err(e)
            case Ok(formGen) =>
              if exists i :: 0 <= i < |params| && LocationOf(params[i]).None? then
                Err(NotImplemented("need to handle other parameter types"))
              else
                Ok(TestCase(config.host, endpoint, config.port, verb, bodyGen,
                            queryGen, pathGen, headerGen, formGen, op.declaredResponses))
  }

  /** The operations of every path, path by path and within a path in declaration order. */
  function Operations(paths: seq<(string, seq<(HttpMethod, Operation)>)>): seq<(string, HttpMethod, Operation)> {
    if |paths| == 0 then []
    else OperationsOf(paths[0].0, paths[0].1) + Operations(paths[1..])
  }

  function OperationsOf(endpoint: string, ops: seq<(HttpMethod, Operation)>): (r: seq<(string, HttpMethod, Operation)>)
    ensures |r| == |ops|
    ensures forall i :: 0 <= i < |ops| ==> r[i] == (endpoint, ops[i].0, ops[i].1)
  {
    if |ops| == 0 then [] else [(endpoint, ops[0].0, ops[0].1)] + OperationsOf(endpoint, ops[1..])
  }

  /** The test cases of a list of operations, in order; the first exception wins. */
  function TestCasesOf(config: Config, ops: seq<(string, HttpMethod, Operation)>, table: map<string, Gen>): Result<seq<TestCase>> {
    if |ops| == 0 then Ok([])
    else
      match OperationTestCase(config, ops[0].0, ops[0].1, ops[0].2, table)
      case Err(e) => Err(e)
      case Ok(tc) =>
        match TestCasesOf(config, ops[1..], table)
        case Err(e) => Err(e)
        case Ok(rest) => Ok([tc] + rest)
  }

  /** `createTestCases` on a parsed specification: the definition table first, then a test case per operation. */
  function CreateTestCases(config: Config, spec: Spec): Result<seq<TestCase>> {
    match Init(spec.definitions)
    case Err(e) => Err(e)
    case Ok(table) => TestCasesOf(config, Operations(spec.paths), table)
  }

  /** `createTestCases` as the source runs it, on the table `init` computes. */
  function CreateTestCasesAsWritten(config: Config, spec: Spec): Result<seq<TestCase>> {
    match InitAsWritten(spec.definitions)
    case Err(e) => Err(e)
    case Ok(table) => TestCasesOf(config, Operations(spec.paths), table)
  }

  /** The source's `createTestCases` gives what the corrected one gives when no
      definition is a `RefModel`, and throws whenever one is. */
  lemma CreateTestCasesAgree(config: Config, spec: Spec)
    ensures NoTopLevelRef(spec.definitions) ==> CreateTestCasesAsWritten(config, spec) == CreateTestCases(config, spec)
    ensures !NoTopLevelRef(spec.definitions) ==> CreateTestCasesAsWritten(config, spec).Err?
  {
    if NoTopLevelRef(spec.definitions) {
      InitAgreesWithoutAliases(spec.definitions);
    } else {
      var i :| 0 <= i < |spec.definitions| && spec.definitions[i].1.RefModel?;
      InitAsWrittenRejectsTopLevelRef(spec.definitions, i);
    }
  }

  /** A document with a definition and an alias of it, and no paths: the source
      throws before making any test case, the corrected table makes none. */
  lemma AliasDocumentTestCases(config: Config)
    ensures CreateTestCasesAsWritten(config, Spec(AliasDefs, [])) == Err(Uninitialised("definitions"))
    ensures CreateTestCases(config, Spec(AliasDefs, [])) == Ok([])
  {
    AliasDocument();
  }

  /** Sampling under the table `createTestCases` built: a late-bound reference
      to a name the document does not define is dangling, and one to the `i`-th
      definition (names being distinct) samples that definition's generator
      with one unit of fuel less. */
  lemma LateReadsBuiltTable(config: Config, spec: Spec, clock: string, name: string, i: int, fuel: nat, s: Stream)
    requires CreateTestCases(config, spec).Ok?
    ensures Init(spec.definitions).Ok?
    ensures var env := Env(Init(spec.definitions).value, clock);
            name !in KeysOf(spec.definitions) ==> Sample(Late(name), env, fuel, s) == Failed(Dangling(name))
    ensures var env := Env(Init(spec.definitions).value, clock);
            var defs := spec.definitions;
            DistinctKeys(defs) && 0 <= i < |defs| && fuel > 0 ==>
              DefinitionGen(defs[i].1).Ok?
              && Sample(Late(defs[i].0), env, fuel, s) == Sample(DefinitionGen(defs[i].1).value, env, fuel - 1, s)
  {
    InitTable(spec.definitions);
  }

  /** One test case per operation, in order, each for that operation's endpoint,
      method and declared responses, aimed at the configured host and port; and
      the list is built iff every operation's test case is. */
  lemma {:induction false} TestCasesOfShape(config: Config, ops: seq<(string, HttpMethod, Operation)>, table: map<string, Gen>)
    ensures TestCasesOf(config, ops, table).Ok? <==>
              forall i :: 0 <= i < |ops| ==> OperationTestCase(config, ops[i].0, ops[i].1, ops[i].2, table).Ok?
    ensures TestCasesOf(config, ops, table).Ok? ==>
              var tcs := TestCasesOf(config, ops, table).value;
              |tcs| == |ops|
              && forall i :: 0 <= i < |ops| ==>
                   tcs[i] == OperationTestCase(config, ops[i].0, ops[i].1, ops[i].2, table).value
                   && tcs[i].endpoint == ops[i].0 && tcs[i].verb == ops[i].1
                   && tcs[i].declaredResponses == ops[i].2.declaredResponses
                   && tcs[i].host == config.host && tcs[i].port == config.port
  {
    TestCasesOk(config, ops, table);
    if TestCasesOf(config, ops, table).Ok? {
      TestCasesElements(config, ops, table);
    }
    OperationTestCaseShape(config, ops, table);
  }

  /** Every operation's test case is built. */
  predicate AllBuild(config: Config, ops: seq<(string, HttpMethod, Operation)>, table: map<string, Gen>) {
    forall i :: 0 <= i < |ops| ==> OperationTestCase(config, ops[i].0, ops[i].1, ops[i].2, table).Ok?
  }

  lemma AllBuildFront(config: Config, ops: seq<(string, HttpMethod, Operation)>, table: map<string, Gen>)
    requires |ops| > 0
    ensures AllBuild(config, ops, table) <==>
              OperationTestCase(config, ops[0].0, ops[0].1, ops[0].2, table).Ok? && AllBuild(config, ops[1..], table)
  {
    if OperationTestCase(config, ops[0].0, ops[0].1, ops[0].2, table).Ok? && AllBuild(config, ops[1..], table) {
      forall i | 0 < i < |ops| ensures OperationTestCase(config, ops[i].0, ops[i].1, ops[i].2, table).Ok? {
        assert ops[1..][i - 1] == ops[i];
      }
    }
  }

  /** The list of test cases is built iff every operation's test case is. */
  lemma {:induction false} TestCasesOk(config: Config, ops: seq<(string, HttpMethod, Operation)>, table: map<string, Gen>)
    ensures TestCasesOf(config, ops, table).Ok? <==> AllBuild(config, ops, table)
  {
    if |ops| > 0 {
      TestCasesOk(config, ops[1..], table);
      AllBuildFront(config, ops, table);
    }
  }

  /** A built list holds each operation's test case at that operation's index. */
  lemma {:induction false} TestCasesElements(config: Config, ops: seq<(string, HttpMethod, Operation)>, table: map<string, Gen>)
    requires TestCasesOf(config, ops, table).Ok?
    ensures var tcs := TestCasesOf(config, ops, table).value;
            |tcs| == |ops|
            && forall i :: 0 <= i < |ops| ==> OperationTestCase(config, ops[i].0, ops[i].1, ops[i].2, table) == Ok(tcs[i])
  {
    if |ops| > 0 {
      TestCasesElements(config, ops[1..], table);
      var tcs := TestCasesOf(config, ops, table).value;
      var rest := TestCasesOf(config, ops[1..], table).value;
      assert OperationTestCase(config, ops[0].0, ops[0].1, ops[0].2, table) == Ok(tcs[0]);
      assert tcs[1..] == rest;
      forall i | 0 < i < |ops|
        ensures OperationTestCase(config, ops[i].0, ops[i].1, ops[i].2, table) == Ok(tcs[i])
      {
        assert tcs[i] == rest[i - 1];
        assert ops[1..][i - 1] == ops[i];
      }
    }
  }

  lemma OperationTestCaseShape(config: Config, ops: seq<(string, HttpMethod, Operation)>, table: map<string, Gen>)
    ensures forall i :: 0 <= i < |ops| && OperationTestCase(config, ops[i].0, ops[i].1, ops[i].2, table).Ok? ==>
              var tc := OperationTestCase(config, ops[i].0, ops[i].1, ops[i].2, table).value;
              tc.endpoint == ops[i].0 && tc.verb == ops[i].1 && tc.declaredResponses == ops[i].2.declaredResponses
              && tc.host == config.host && tc.port == config.port
  {
  }

  /** The flattened operations are every path's operations, path by path. */
  lemma {:induction false} OperationsCount(paths: seq<(string, seq<(HttpMethod, Operation)>)>)
    ensures |Operations(paths)| == OperationCount(paths)
    ensures |paths| > 0 ==> Operations(paths)[..|paths[0].1|] == OperationsOf(paths[0].0, paths[0].1)
  {
    if |paths| > 0 {
      OperationsCount(paths[1..]);
    }
  }

  function OperationCount(paths: seq<(string, seq<(HttpMethod, Operation)>)>): nat {
    if |paths| == 0 then 0 else |paths[0].1| + OperationCount(paths[1..])
  }

  /** The error rules of one operation: a second body parameter, then an
      unsupported query, path, header or form parameter, in that order, and a
      parameter of another kind only once all five samplers are built. */
  lemma OperationErrors(config: Config, endpoint: string, verb: HttpMethod, op: Operation, table: map<string, Gen>)
    ensures var params := op.parameters;
            |ParamsIn(params, InBody)| > 1 ==>
              OperationTestCase(config, endpoint, verb, op, table) == Err(Runtime("more than one body parameter"))
    ensures var params := op.parameters;
            BodyParamsGenerator(params, table).Ok? && QueryParamsGenerator(params).Err? ==>
              OperationTestCase(config, endpoint, verb, op, table) == Err(QueryParamsGenerator(params).error)
    ensures var params := op.parameters;
            OperationTestCase(config, endpoint, verb, op, table).Ok? ==>
              (forall p :: p in params ==> LocationOf(p).Some?)
              && (forall p :: p in ParamsIn(params, InQuery) ==> Supported(p))
              && (forall p :: p in ParamsIn(params, InPath) ==> Supported(p))
              && (forall p :: p in ParamsIn(params, InHeader) ==> Supported(p))
              && (forall p :: p in ParamsIn(params, InForm) ==> Supported(p))
    ensures var params := op.parameters;
            BodyParamsGenerator(params, table).Ok? && QueryParamsGenerator(params).Ok?
            && PathParamsGenerator(params).Ok? && HeaderParamsGenerator(params).Ok?
            && FormParamsGenerator(params).Ok? && (exists p :: p in params && p.OtherParameter?) ==>
              OperationTestCase(config, endpoint, verb, op, table) == Err(NotImplemented("need to handle other parameter types"))
  {
    var params := op.parameters;
    BodyParamsRules(params, table);
    if OperationTestCase(config, endpoint, verb, op, table).Ok? {
      BuiltOperationSupported(config, endpoint, verb, op, table);
    }
    OtherParameterRefused(config, endpoint, verb, op, table);
  }

  /** A built test case has every parameter in one of the five locations, and
      every query, path, header and form parameter of a supported type. */
  lemma BuiltOperationSupported(config: Config, endpoint: string, verb: HttpMethod, op: Operation, table: map<string, Gen>)
    requires OperationTestCase(config, endpoint, verb, op, table).Ok?
    ensures forall p :: p in op.parameters ==> LocationOf(p).Some?
    ensures forall p :: p in ParamsIn(op.parameters, InQuery) ==> Supported(p)
    ensures forall p :: p in ParamsIn(op.parameters, InPath) ==> Supported(p)
    ensures forall p :: p in ParamsIn(op.parameters, InHeader) ==> Supported(p)
    ensures forall p :: p in ParamsIn(op.parameters, InForm) ==> Supported(p)
  {
    var params := op.parameters;
    var s: Stream := [];
    var env := Env(table, "");
    LocationGenBuilds(params, InQuery, env, 0, s);
    LocationGenBuilds(params, InPath, env, 0, s);
    LocationGenBuilds(params, InHeader, env, 0, s);
    LocationGenBuilds(params, InForm, env, 0, s);
    forall p | p in params ensures LocationOf(p).Some? {
      var i :| 0 <= i < |params| && params[i] == p;
    }
  }

  /** Once all five samplers are built, a parameter outside the five locations is refused. */
  lemma OtherParameterRefused(config: Config, endpoint: string, verb: HttpMethod, op: Operation, table: map<string, Gen>)
    ensures var params := op.parameters;
            BodyParamsGenerator(params, table).Ok? && QueryParamsGenerator(params).Ok?
            && PathParamsGenerator(params).Ok? && HeaderParamsGenerator(params).Ok?
            && FormParamsGenerator(params).Ok? && (exists p :: p in params && p.OtherParameter?) ==>
              OperationTestCase(config, endpoint, verb, op, table) == Err(NotImplemented("need to handle other parameter types"))
  {
    var params := op.parameters;
    if exists p :: p in params && p.OtherParameter? {
      var p :| p in params && p.OtherParameter?;
      var i :| 0 <= i < |params| && params[i] == p;
      assert LocationOf(params[i]).None?;
    }
  }

  /** Each of a built test case's four map samplers draws a map keyed by exactly
      that location's parameter names. */
  lemma TestCaseMapKeys(config: Config, endpoint: string, verb: HttpMethod, op: Operation, table: map<string, Gen>,
                        env: Env, fuel: nat, s: Stream)
    requires OperationTestCase(config, endpoint, verb, op, table).Ok?
    ensures var tc := OperationTestCase(config, endpoint, verb, op, table).value;
            var d := SampleMap(tc.query, env, fuel, s);
            d.Drawn? ==> KeysOf(d.value) == NamesOf(ParamsIn(op.parameters, InQuery)) && DistinctKeys(d.value)
    ensures var tc := OperationTestCase(config, endpoint, verb, op, table).value;
            var d := SampleMap(tc.path, env, fuel, s);
            d.Drawn? ==> KeysOf(d.value) == NamesOf(ParamsIn(op.parameters, InPath)) && DistinctKeys(d.value)
    ensures var tc := OperationTestCase(config, endpoint, verb, op, table).value;
            var d := SampleMap(tc.header, env, fuel, s);
            d.Drawn? ==> KeysOf(d.value) == NamesOf(ParamsIn(op.parameters, InHeader)) && DistinctKeys(d.value)
    ensures var tc := OperationTestCase(config, endpoint, verb, op, table).value;
            var d := SampleMap(tc.form, env, fuel, s);
            d.Drawn? ==> KeysOf(d.value) == NamesOf(ParamsIn(op.parameters, InForm)) && DistinctKeys(d.value)
  {
    var params := op.parameters;
    LocationGenKeys(params, InQuery, env, fuel, s);
    LocationGenKeys(params, InPath, env, fuel, s);
    LocationGenKeys(params, InHeader, env, fuel, s);
    LocationGenKeys(params, InForm, env, fuel, s);
  }
}
