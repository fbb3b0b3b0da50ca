/** `Request`: one fully sampled HTTP request, its validation, the Unirest
    request it builds (once), the pass/fail oracle and its curl transcript. */
module Requests {
  import opened Base
  import opened Values
  import opened Swagger

  /** The sampled parts of a request. `body` is `None` for the constructor without a body. */
  datatype RequestData = RequestData(
    url: string,
    verb: HttpMethod,
    body: Option<Json>,
    query: Entries,
    path: Entries,
    header: Entries,
    form: Entries)

  const GetWithBody := "error in specification; GET requests cannot have a body"
  const GetWithForm := "error in specification; GET requests cannot have form parameters"
  const BodyAndForm := "cannot have both form parameters and body"

  predicate TakesBody(m: HttpMethod) {
    m == POST || m == PUT || m == PATCH || m == DELETE
  }

  /** The exception `buildRequest` throws for this request, if any. */
  function Validate(d: RequestData): Option<Error> {
    if d.verb == GET then
      if d.body.Some? then Some(Runtime(GetWithBody))
      else if |d.form| > 0 then Some(Runtime(GetWithForm))
      else None
    else if TakesBody(d.verb) then
      if d.body.Some? && |d.form| > 0 then Some(IllegalState(BodyAndForm)) else None
    else Some(NotImplemented(MethodName(d.verb)))
  }

  /** The decision rules: which requests are refused, by which exception, and the body check first. */
  lemma ValidationRules(d: RequestData)
    ensures d.verb == GET ==> (Validate(d).None? <==> d.body.None? && |d.form| == 0)
    ensures d.verb == GET && d.body.Some? ==> Validate(d) == Some(Runtime(GetWithBody))
    ensures TakesBody(d.verb) ==>
              (Validate(d).None? <==> !(d.body.Some? && |d.form| > 0))
              && (Validate(d).Some? ==> Validate(d).value == IllegalState(BodyAndForm))
    ensures d.verb == HEAD || d.verb == OPTIONS ==> Validate(d) == Some(NotImplemented(MethodName(d.verb)))
    ensures Validate(d).None? ==> !(d.body.Some? && |d.form| > 0)
  {
  }

  // ---------------------------------------------------------------------------
  // The Unirest request being built.

  datatype CallKind = HeaderCall | QueryCall | RouteCall | FieldCall | BodyCall

  /** One call on the Unirest builder; values are the request's JSON nodes as text. */
  datatype Call = Call(kind: CallKind, name: string, value: string)

  /** A Unirest `HttpRequest`, recording the calls made on it in order. */
  class HttpRequest {
    const verb: HttpMethod
    const url: string
    var calls: seq<Call>

    constructor (verb: HttpMethod, url: string)
      ensures this.verb == verb && this.url == url && calls == []
    {
      this.verb := verb;
      this.url := url;
      calls := [];
    }

    method Add(c: Call)
      modifies this
      ensures calls == old(calls) + [c]
    {
      calls := calls + [c];
    }
  }

  /** The calls a `forEach` over `es` makes, in the map's order. */
  function Calls(kind: CallKind, es: Entries, text: Json -> string): (r: seq<Call>)
    ensures |r| == |es|
  {
    if |es| == 0 then []
    else Calls(kind, es[..|es| - 1], text) + [Call(kind, es[|es| - 1].0, text(es[|es| - 1].1))]
  }

  lemma CallsAt(kind: CallKind, es: Entries, text: Json -> string, i: int)
    requires 0 <= i < |es|
    ensures Calls(kind, es, text)[i] == Call(kind, es[i].0, text(es[i].1))
  {
    if i < |es| - 1 {
      CallsAt(kind, es[..|es| - 1], text, i);
    }
  }

  const ContentType := Call(HeaderCall, "Content-Type", "application/json")

  /** Everything a built request has been told, in order: the JSON content type,
      the body if any, then every query, path, header and form entry. */
  function RequestCalls(d: RequestData, text: Json -> string): seq<Call> {
    [ContentType] + ParamCalls(d, text)
  }

  /** The calls `addParams` makes. */
  function ParamCalls(d: RequestData, text: Json -> string): seq<Call> {
    BodyCalls(d, text) + GetCalls(d, text) + Calls(FieldCall, d.form, text)
  }

  function GetCalls(d: RequestData, text: Json -> string): seq<Call> {
    Calls(QueryCall, d.query, text) + Calls(RouteCall, d.path, text) + Calls(HeaderCall, d.header, text)
  }

  function BodyCalls(d: RequestData, text: Json -> string): seq<Call> {
    if d.body.Some? then [Call(BodyCall, "", text(d.body.value))] else []
  }

  /** `es.forEach { k, v -> req.x(k, v) }`. */
  method AddAll(req: HttpRequest, kind: CallKind, es: Entries, text: Json -> string)
    modifies req
    ensures req.calls == old(req.calls) + Calls(kind, es, text)
  {
    for i := 0 to |es|
      invariant req.calls == old(req.calls) + Calls(kind, es[..i], text)
    {
      assert es[..i + 1][..i] == es[..i];
      req.Add(Call(kind, es[i].0, text(es[i].1)));
    }
    assert es[..|es|] == es;
  }

  // ---------------------------------------------------------------------------
  // The status-code oracle.

  predicate Is200(status: int) { 200 <= status <= 299 }
  predicate Is500(status: int) { 500 <= status <= 599 }

  /** `checkRequest` once the response status is known. */
  predicate CheckStatus(status: int, allowUndeclared: bool, declaredResponses: set<int>) {
    if Is500(status) then false else Is200(status) || allowUndeclared || status in declaredResponses
  }

  /** The oracle's truth table: a server error always fails, whatever is declared
      or allowed; any other status passes iff it is a success, undeclared statuses
      are allowed, or it is declared. */
  lemma OracleTable(status: int, allowUndeclared: bool, declaredResponses: set<int>)
    ensures 500 <= status <= 599 ==> !CheckStatus(status, allowUndeclared, declaredResponses)
    ensures !(500 <= status <= 599) ==>
              (CheckStatus(status, allowUndeclared, declaredResponses)
               <==> 200 <= status <= 299 || allowUndeclared || status in declaredResponses)
  {
  }

  /** What the transport answers: a status, or an exception. */
  datatype Response = Status(code: int) | TransportFailure(message: string)

  /** A transport exception is rethrown, never read as a verdict. */
  function Verdict(resp: Response, allowUndeclared: bool, declaredResponses: set<int>): Result<bool> {
    match resp
    case Status(code) => Ok(CheckStatus(code, allowUndeclared, declaredResponses))
    case TransportFailure(m) => Err(Transport(m))
  }

  // ---------------------------------------------------------------------------
  // The curl transcript.

  /** Literal left-to-right replacement of every non-overlapping occurrence of `pat`. */
  function ReplaceAll(s: string, pat: string, rep: string): string
    requires |pat| > 0
    decreases |s|
  {
    if |s| < |pat| then s
    else if s[..|pat|] == pat then rep + ReplaceAll(s[|pat|..], pat, rep)
    else [s[0]] + ReplaceAll(s[1..], pat, rep)
  }

  function Placeholder(key: string): (r: string)
    ensures |r| > 0 && r[0] == '{'
  {
    "{" + key + "}"
  }

  /** The URL after each path entry, in order, has replaced its placeholder. */
  function SubstitutePath(url: string, path: Entries, text: Json -> string): string {
    if |path| == 0 then url
    else
      var last := path[|path| - 1];
      ReplaceAll(SubstitutePath(url, path[..|path| - 1], text), Placeholder(last.0), text(last.1))
  }

  function Pair(e: (string, Json), text: Json -> string, encode: string -> string): string {
    e.0 + "=" + encode(text(e.1))
  }

  /** The builder and the separator-joined buffer after `joinToString` has visited
      the first `|query|` entries: each visit appends the pair to the builder and
      then the builder's whole text to the buffer. */
  function QueryState(sb: string, query: Entries, text: Json -> string, encode: string -> string): (string, string) {
    if |query| == 0 then (sb, "")
    else
      var (sb0, joined0) := QueryState(sb, query[..|query| - 1], text, encode);
      var sb1 := sb0 + Pair(query[|query| - 1], text, encode);
      (sb1, joined0 + (if |query| > 1 then "&" else "") + sb1)
  }

  function HeaderSegment(header: Entries, text: Json -> string): string {
    if |header| == 0 then ""
    else
      var last := header[|header| - 1];
      HeaderSegment(header[..|header| - 1], text) + HeaderText(last, text)
  }

  function HeaderText(e: (string, Json), text: Json -> string): string {
    "-H " + e.0 + " " + text(e.1) + " "
  }

  /** The `key=encoded value` pairs joined by `&`, as the form payload is built. */
  function JoinedPairs(form: Entries, text: Json -> string, encode: string -> string): string {
    if |form| == 0 then ""
    else if |form| == 1 then Pair(form[0], text, encode)
    else JoinedPairs(form[..|form| - 1], text, encode) + "&" + Pair(form[|form| - 1], text, encode)
  }

  function Start(d: RequestData, text: Json -> string): string {
    "curl -v -X " + MethodName(d.verb) + " " + SubstitutePath(d.url, d.path, text) + " "
  }

  function Payload(d: RequestData, text: Json -> string, encode: string -> string): string {
    if d.body.Some? then "-d '" + text(d.body.value) + "'"
    else if |d.form| > 0 then "-d '" + JoinedPairs(d.form, text, encode) + "'"
    else ""
  }

  function WithQuery(start: string, d: RequestData, text: Json -> string, encode: string -> string): string {
    if |d.query| == 0 then start
    else
      var (sb, joined) := QueryState(start + "?", d.query, text, encode);
      sb + joined
  }

  /** The text `toString()` prints. */
  function Transcript(d: RequestData, text: Json -> string, encode: string -> string): string {
    WithQuery(Start(d, text), d, text, encode) + HeaderSegment(d.header, text) + Payload(d, text, encode)
  }

  // ---------------------------------------------------------------------------
  // The request object.

  class Request {
    const data: RequestData
    /** The cached Unirest request; `null` until the first successful build. */
    var request: HttpRequest?

    constructor (data: RequestData)
      ensures this.data == data && request == null
    {
      this.data := data;
      request := null;
    }

    /** `buildRequest`: validates, builds once, and afterwards hands back the cached request unchanged. */
    method BuildRequest(text: Json -> string) returns (r: Result<HttpRequest>)
      modifies this
      ensures old(request) != null ==> r == Ok(old(request)) && request == old(request) && request.calls == old(request.calls)
      ensures old(request) == null && Validate(data).Some? ==> r == Err(Validate(data).value) && request == null
      ensures old(request) == null && Validate(data).None? ==>
                r.Ok? && fresh(r.value) && request == r.value
                && r.value.verb == data.verb && r.value.url == data.url
                && r.value.calls == RequestCalls(data, text)
    {
      if request != null {
        return Ok(request);
      }
      var req: HttpRequest;
      if data.verb == GET {
        req := new HttpRequest(data.verb, data.url);
        req.Add(ContentType);
        if data.body.Some? {
          return Err(Runtime(GetWithBody));
        }
        if |data.form| > 0 {
          return Err(Runtime(GetWithForm));
        }
        AddGetParams(req, text);
        assert ParamCalls(data, text) == [] + GetCalls(data, text) + [];
        assert [] + GetCalls(data, text) + [] == GetCalls(data, text);
      } else if TakesBody(data.verb) {
        req := new HttpRequest(data.verb, data.url);
        req.Add(ContentType);
        var err := AddParams(req, text);
        if err.Some? {
          return Err(err.value);
        }
      } else {
        return Err(NotImplemented(MethodName(data.verb)));
      }
      request := req;
      return Ok(req);
    }

    /** The GET branch of `buildRequest`: query, path and header entries, no body and no form. */
    method AddGetParams(req: HttpRequest, text: Json -> string)
      modifies req
      ensures req.calls == old(req.calls) + GetCalls(data, text)
    {
      ghost var c0 := req.calls;
      ghost var q := Calls(QueryCall, data.query, text);
      ghost var p := Calls(RouteCall, data.path, text);
      ghost var h := Calls(HeaderCall, data.header, text);
      AddAll(req, QueryCall, data.query, text);
      AddAll(req, RouteCall, data.path, text);
      assert req.calls == c0 + (q + p);
      AddAll(req, HeaderCall, data.header, text);
      assert req.calls == c0 + (q + p + h);
    }

    /** `addParams`: refuses a body together with form fields, else adds body, query, path, header and form. */
    method AddParams(req: HttpRequest, text: Json -> string) returns (err: Option<Error>)
      modifies req
      ensures data.body.Some? && |data.form| > 0 ==> err == Some(IllegalState(BodyAndForm)) && req.calls == old(req.calls)
      ensures !(data.body.Some? && |data.form| > 0) ==> err.None? && req.calls == old(req.calls) + ParamCalls(data, text)
    {
      if data.body.Some? && |data.form| > 0 {
        return Some(IllegalState(BodyAndForm));
      }
      ghost var c0 := req.calls;
      if data.body.Some? {
        req.Add(Call(BodyCall, "", text(data.body.value)));
      }
      ghost var b := BodyCalls(data, text);
      assert req.calls == c0 + b;
      AddGetParams(req, text);
      assert req.calls == c0 + (b + GetCalls(data, text));
      AddAll(req, FieldCall, data.form, text);
      assert req.calls == c0 + (b + GetCalls(data, text) + Calls(FieldCall, data.form, text));
      return None;
    }

    /** `check`: builds (or reuses) the request, sends it through `send`, and classifies the answer. */
    method Check(allowUndeclared: bool, declaredResponses: set<int>, text: Json -> string,
                 send: (HttpMethod, string, seq<Call>) -> Response) returns (r: Result<bool>)
      modifies this
      ensures old(request) == null && Validate(data).Some? ==> r == Err(Validate(data).value) && request == null
      ensures old(request) != null ==> request == old(request)
      ensures old(request) != null || Validate(data).None? ==>
                request != null
                && r == Verdict(send(request.verb, request.url, request.calls), allowUndeclared, declaredResponses)
    {
      var built := BuildRequest(text);
      match built
      case Err(e) =>
        r := Err(e);
      case Ok(req) =>
        r := Verdict(send(req.verb, req.url, req.calls), allowUndeclared, declaredResponses);
    }

    /** `prettyPrintCurl`. */
    method PrettyPrintCurl(text: Json -> string, encode: string -> string) returns (out: string)
      ensures out == Transcript(data, text, encode)
    {
      var instantiatedUrl := InstantiateUrl(data.url, data.path, text);
      var sb := "curl -v -X " + MethodName(data.verb) + " " + instantiatedUrl + " ";
      sb := AppendQuery(sb, data, text, encode);
      sb := AppendHeaders(sb, data.header, text);
      if data.body.Some? {
        sb := sb + "-d '" + text(data.body.value) + "'";
      } else if |data.form| > 0 {
        sb := sb + "-d '" + JoinedPairs(data.form, text, encode) + "'";
      }
      out := sb;
    }
  }

  /** `path.forEach { k, v -> url = url.replace("{k}", v) }`. */
  method InstantiateUrl(url: string, path: Entries, text: Json -> string) returns (u: string)
    ensures u == SubstitutePath(url, path, text)
  {
    u := url;
    for i := 0 to |path|
      invariant u == SubstitutePath(url, path[..i], text)
    {
      assert path[..i + 1][..i] == path[..i];
      var (key, value) := path[i];
      u := ReplaceAll(u, Placeholder(key), text(value));
    }
    assert path[..|path|] == path;
  }

  /** The query segment, whose `joinToString` transform appends to the builder it is joining into. */
  method AppendQuery(start: string, d: RequestData, text: Json -> string, encode: string -> string) returns (sb: string)
    ensures sb == WithQuery(start, d, text, encode)
  {
    sb := start;
    if |d.query| > 0 {
      sb := sb + "?";
      var joined := "";
      for i := 0 to |d.query|
        invariant (sb, joined) == QueryState(start + "?", d.query[..i], text, encode)
      {
        assert d.query[..i + 1][..i] == d.query[..i];
        sb := sb + Pair(d.query[i], text, encode);
        joined := joined + (if i > 0 then "&" else "") + sb;
      }
      assert d.query[..|d.query|] == d.query;
      sb := sb + joined;
    }
  }

  method AppendHeaders(start: string, header: Entries, text: Json -> string) returns (sb: string)
    ensures sb == start + HeaderSegment(header, text)
  {
    sb := start;
    for i := 0 to |header|
      invariant sb == start + HeaderSegment(header[..i], text)
    {
      assert header[..i + 1][..i] == header[..i];
      sb := sb + HeaderText(header[i], text);
    }
    assert header[..|header|] == header;
  }

  // ---------------------------------------------------------------------------
  // Properties of the transcript.

  predicate NoBrace(s: string) {
    forall i :: 0 <= i < |s| ==> s[i] != '{'
  }

  lemma {:induction false} ReplaceAllLiteral(a: string, b: string, pat: string, rep: string)
    requires |pat| > 0 && pat[0] == '{' && NoBrace(a)
    ensures ReplaceAll(a + b, pat, rep) == a + ReplaceAll(b, pat, rep)
    decreases |a|
  {
    if |a| > 0 {
      ReplaceAllSkip(a + b, pat, rep);
      assert (a + b)[1..] == a[1..] + b;
      ReplaceAllLiteral(a[1..], b, pat, rep);
      assert [a[0]] + (a[1..] + ReplaceAll(b, pat, rep)) == a + ReplaceAll(b, pat, rep);
    } else {
      assert a + b == b;
    }
  }

  /** A first character that cannot start the pattern is copied through. */
  lemma ReplaceAllSkip(s: string, pat: string, rep: string)
    requires |pat| > 0 && |s| > 0 && s[0] != pat[0]
    ensures ReplaceAll(s, pat, rep) == [s[0]] + ReplaceAll(s[1..], pat, rep)
  {
    if |s| >= |pat| {
      assert s[..|pat|][0] == s[0];
    }
    ReplaceAllNoMatch(s, pat, rep);
  }

  lemma ReplaceAllMatch(b: string, pat: string, rep: string)
    requires |pat| > 0
    ensures ReplaceAll(pat + b, pat, rep) == rep + ReplaceAll(b, pat, rep)
  {
    assert (pat + b)[..|pat|] == pat;
    assert (pat + b)[|pat|..] == b;
  }

  /** No `{` and no `}`: a name whose placeholder cannot overlap another placeholder. */
  predicate BraceFree(s: string) {
    forall i :: 0 <= i < |s| ==> s[i] != '{' && s[i] != '}'
  }

  /** A URL template: literal text between `{key}` placeholders. */
  datatype Segment = Lit(chars: string) | Hole(key: string)

  /** Literal text holds no `{`, and no placeholder name holds a brace. */
  predicate WellFormed(t: seq<Segment>) {
    forall i :: 0 <= i < |t| ==>
      (t[i].Lit? ==> NoBrace(t[i].chars)) && (t[i].Hole? ==> BraceFree(t[i].key))
  }

  function SegmentText(g: Segment): string {
    match g
    case Lit(c) => c
    case Hole(k) => Placeholder(k)
  }

  /** The template written out as a URL. */
  function TemplateText(t: seq<Segment>): string {
    if |t| == 0 then "" else SegmentText(t[0]) + TemplateText(t[1..])
  }

  /** The template with each placeholder of `key` filled with `value`. */
  function FillKey(t: seq<Segment>, key: string, value: string): (r: seq<Segment>)
    ensures |r| == |t|
  {
    seq(|t|, i requires 0 <= i <= |t| - 1 =>
      if t[i] == Hole(key) then Lit(value) else t[i])
  }

  /** Reference meaning of a path map: each placeholder whose name the map
      holds is filled with the text of its value; the others stay as written. */
  function Instantiate(t: seq<Segment>, path: Entries, text: Json -> string): (r: seq<Segment>)
    ensures |r| == |t|
  {
    seq(|t|, i requires 0 <= i <= |t| - 1 =>
      if t[i].Hole? && Get(path, t[i].key).Some? then Lit(text(Get(path, t[i].key).value)) else t[i])
  }

  /** The placeholder of another name is copied through whole. */
  lemma OtherPlaceholder(other: string, key: string, b: string, value: string)
    requires BraceFree(other) && BraceFree(key) && other != key
    ensures ReplaceAll(Placeholder(other) + b, Placeholder(key), value)
            == Placeholder(other) + ReplaceAll(b, Placeholder(key), value)
  {
    var s := Placeholder(other) + b;
    var pat := Placeholder(key);
    PlaceholderMismatch(other, key, b);
    ReplaceAllNoMatch(s, pat, value);
    var tail := other + "}";
    assert s[1..] == tail + b;
    ReplaceAllLiteral(tail, b, pat, value);
  }

  /** The placeholder of another name, whatever follows it, does not start
      with this name's placeholder. */
  lemma PlaceholderMismatch(other: string, key: string, b: string)
    requires BraceFree(other) && BraceFree(key) && other != key
    ensures var s := Placeholder(other) + b;
            |s| < |Placeholder(key)| || s[..|Placeholder(key)|] != Placeholder(key)
  {
    var s := Placeholder(other) + b;
    var pat := Placeholder(key);
    if |s| >= |pat| {
      var m := if |key| < |other| then |key| else |other|;
      if |key| != |other| {
        assert s[m + 1] != pat[m + 1];
      } else {
        var j :| 0 <= j < |key| && key[j] != other[j];
        assert s[j + 1] != pat[j + 1];
      }
    }
  }

  /** Where the pattern does not start the text, the first character is copied through. */
  lemma ReplaceAllNoMatch(s: string, pat: string, rep: string)
    requires |pat| > 0 && |s| > 0
    requires |s| < |pat| || s[..|pat|] != pat
    ensures ReplaceAll(s, pat, rep) == [s[0]] + ReplaceAll(s[1..], pat, rep)
  {
    if |s| < |pat| {
      assert ReplaceAll(s[1..], pat, rep) == s[1..];
      assert s == [s[0]] + s[1..];
    }
  }

  /** Replacing one name's placeholder everywhere in a well-formed URL template
      fills exactly the placeholders of that name. */
  lemma {:induction false} SubstitutesEveryPlaceholder(t: seq<Segment>, key: string, value: string)
    requires WellFormed(t) && BraceFree(key)
    ensures ReplaceAll(TemplateText(t), Placeholder(key), value) == TemplateText(FillKey(t, key, value))
    decreases |t|
  {
    var pat := Placeholder(key);
    if |t| == 0 {
      assert FillKey(t, key, value) == [];
    } else {
      var rest := TemplateText(t[1..]);
      assert FillKey(t, key, value)[1..] == FillKey(t[1..], key, value);
      assert WellFormed(t[1..]) by {
        forall i | 0 <= i < |t| - 1 ensures t[1..][i] == t[i + 1] { }
      }
      SubstitutesEveryPlaceholder(t[1..], key, value);
      match t[0]
      case Lit(c) =>
        ReplaceAllLiteral(c, rest, pat, value);
      case Hole(k) =>
        if k == key {
          ReplaceAllMatch(rest, pat, value);
        } else {
          OtherPlaceholder(k, key, rest, value);
        }
    }
  }

  /** Instantiating with one more entry fills that entry's name where the
      earlier entries did not. */
  lemma InstantiateStep(t: seq<Segment>, path: Entries, text: Json -> string)
    requires |path| > 0
    ensures var last := path[|path| - 1];
            Instantiate(t, path, text)
            == FillKey(Instantiate(t, path[..|path| - 1], text), last.0, text(last.1))
  {
    var init := path[..|path| - 1];
    var last := path[|path| - 1];
    assert path == init + [last];
    forall k ensures Get(path, k) == if Get(init, k).Some? then Get(init, k)
                                     else if k == last.0 then Some(last.1) else None {
      GetAppend(init, last, k);
    }
  }

  lemma {:induction false} GetAppend(es: Entries, e: (string, Json), k: string)
    ensures Get(es + [e], k) == if Get(es, k).Some? then Get(es, k)
                                else if k == e.0 then Some(e.1) else None
    decreases |es|
  {
    if |es| == 0 {
      assert es + [e] == [e];
    } else {
      assert (es + [e])[1..] == es[1..] + [e];
      GetAppend(es[1..], e, k);
    }
  }

  /** Substituting the path entries in turn into a well-formed URL template
      gives the template instantiated by the path map, provided no name holds
      a brace and no value's text holds `{`. */
  lemma {:induction false} SubstitutePathInstantiates(t: seq<Segment>, path: Entries, text: Json -> string)
    requires WellFormed(t)
    requires forall i :: 0 <= i < |path| ==> BraceFree(path[i].0) && NoBrace(text(path[i].1))
    ensures SubstitutePath(TemplateText(t), path, text) == TemplateText(Instantiate(t, path, text))
    decreases |path|
  {
    if |path| == 0 {
      forall i | 0 <= i < |t| ensures Instantiate(t, path, text)[i] == t[i] {
        assert t[i].Hole? ==> Get(path, t[i].key) == None;
      }
      assert Instantiate(t, path, text) == t;
    } else {
      var init := path[..|path| - 1];
      var last := path[|path| - 1];
      SubstitutePathInstantiates(t, init, text);
      var u := Instantiate(t, init, text);
      assert WellFormed(u) by {
        forall i | 0 <= i < |u| && u[i].Lit? && t[i].Hole? ensures NoBrace(u[i].chars) {
          GetIndex(init, t[i].key);
        }
      }
      SubstitutesEveryPlaceholder(u, last.0, text(last.1));
      InstantiateStep(t, path, text);
    }
  }

  /** A name the list holds has its value at some position. */
  lemma {:induction false} GetIndex(es: Entries, k: string)
    requires Get(es, k).Some?
    ensures exists i :: 0 <= i < |es| && es[i].1 == Get(es, k).value
    decreases |es|
  {
    if es[0].0 != k {
      GetIndex(es[1..], k);
      var i :| 0 <= i < |es| - 1 && es[1..][i].1 == Get(es, k).value;
      assert es[i + 1].1 == Get(es, k).value;
    } else {
      assert es[0].1 == Get(es, k).value;
    }
  }

  /** The transcript opens with the curl command, the method and the instantiated
      URL; with no query parameters, the headers follow it directly. */
  lemma TranscriptLayout(d: RequestData, text: Json -> string, encode: string -> string)
    ensures var t := Transcript(d, text, encode);
            |Start(d, text)| <= |t| && t[..|Start(d, text)|] == Start(d, text)
    ensures |d.query| == 0 ==>
              Transcript(d, text, encode) == Start(d, text) + HeaderSegment(d.header, text) + Payload(d, text, encode)
  {
    var start := Start(d, text);
    var wq := WithQuery(start, d, text, encode);
    if |d.query| > 0 {
      QueryStateExtends(start + "?", d.query, text, encode);
      var (sb, joined) := QueryState(start + "?", d.query, text, encode);
      assert sb[..|start|] == (start + "?")[..|start|] == start;
      assert wq == sb + joined;
    }
    var rest := HeaderSegment(d.header, text) + Payload(d, text, encode);
    assert Transcript(d, text, encode) == wq + rest;
    assert (wq + rest)[..|start|] == wq[..|start|];
  }

  /** A payload is the body when there is one, whatever the form holds;
      otherwise each form pair once, as `k=encoded value`, in order, separated by `&`. */
  lemma PayloadChoice(d: RequestData, text: Json -> string, encode: string -> string)
    ensures d.body.Some? ==> Payload(d, text, encode) == "-d '" + text(d.body.value) + "'"
    ensures d.body.None? && |d.form| > 0 ==> Payload(d, text, encode) == "-d '" + Joined(PairTexts(d.form, text, encode), "&") + "'"
    ensures d.body.None? && |d.form| == 0 ==> Payload(d, text, encode) == ""
  {
    JoinedPairsAsJoin(d.form, text, encode);
  }

  /** The texts of the pairs, one per entry, in order. */
  function PairTexts(es: Entries, text: Json -> string, encode: string -> string): (r: seq<string>)
    ensures |r| == |es|
    ensures forall i :: 0 <= i < |es| ==> r[i] == Pair(es[i], text, encode)
  {
    if |es| == 0 then [] else [Pair(es[0], text, encode)] + PairTexts(es[1..], text, encode)
  }

  /** `joinToString(sep)`: the parts in order, with `sep` between neighbours. */
  function Joined(parts: seq<string>, sep: string): string {
    if |parts| == 0 then ""
    else if |parts| == 1 then parts[0]
    else parts[0] + sep + Joined(parts[1..], sep)
  }

  /** The form payload's pairs are the pair texts joined by `&`. */
  lemma {:induction false} JoinedPairsAsJoin(es: Entries, text: Json -> string, encode: string -> string)
    ensures JoinedPairs(es, text, encode) == Joined(PairTexts(es, text, encode), "&")
    decreases |es|
  {
    if |es| > 1 {
      JoinedPairsFront(es, text, encode);
      JoinedPairsAsJoin(es[1..], text, encode);
      var ts := PairTexts(es, text, encode);
      assert ts[1..] == PairTexts(es[1..], text, encode);
    }
  }

  /** The builder only ever grows. */
  lemma {:induction false} QueryStateExtends(sb: string, query: Entries, text: Json -> string, encode: string -> string)
    ensures var (sb1, _) := QueryState(sb, query, text, encode); |sb| <= |sb1| && sb1[..|sb|] == sb
  {
    if |query| > 0 {
      QueryStateExtends(sb, query[..|query| - 1], text, encode);
      var (sb0, _) := QueryState(sb, query[..|query| - 1], text, encode);
      var sb1 := sb0 + Pair(query[|query| - 1], text, encode);
      assert sb1[..|sb|] == sb0[..|sb|];
    }
  }

  /** Each header contributes `-H name value `, in the map's order. */
  lemma {:induction false} HeaderSegmentFront(header: Entries, text: Json -> string)
    requires |header| > 0
    ensures HeaderSegment(header, text) == HeaderText(header[0], text) + HeaderSegment(header[1..], text)
  {
    var n := |header|;
    if n == 1 {
      assert header[..0] == [] && header[1..] == [];
    } else {
      var init := header[..n - 1];
      HeaderSegmentFront(init, text);
      assert init[0] == header[0];
      assert header[1..][..n - 2] == init[1..];
      assert header[1..][n - 2] == header[n - 1];
      assert HeaderSegment(header[1..], text) == HeaderSegment(init[1..], text) + HeaderText(header[n - 1], text);
    }
  }

  /** The query segment as written: with one entry the prefix and the pair come
      out twice, since the visit appends to the builder being joined into. */
  lemma QuerySegmentOneEntry(start: string, e: (string, Json), text: Json -> string, encode: string -> string)
    ensures var (sb, joined) := QueryState(start + "?", [e], text, encode);
            sb + joined == start + "?" + Pair(e, text, encode) + start + "?" + Pair(e, text, encode)
  {
    assert [e][..0] == [];
  }

  /** With two entries: the pairs run together with no separator, followed by a
      copy of each intermediate builder state joined by `&`. */
  lemma QuerySegmentTwoEntries(start: string, e1: (string, Json), e2: (string, Json), text: Json -> string, encode: string -> string)
    ensures var p := start + "?";
            var (sb, joined) := QueryState(p, [e1, e2], text, encode);
            sb + joined
            == (p + Pair(e1, text, encode) + Pair(e2, text, encode))
               + (p + Pair(e1, text, encode))
               + "&" + (p + Pair(e1, text, encode) + Pair(e2, text, encode))
  {
    var p := start + "?";
    var p1 := Pair(e1, text, encode);
    var p2 := Pair(e2, text, encode);
    assert [e1, e2][..1] == [e1];
    assert [e1][..0] == [];
    assert QueryState(p, [e1], text, encode) == (p + p1, "" + "" + (p + p1));
    assert "" + "" + (p + p1) == p + p1;
    assert QueryState(p, [e1, e2], text, encode) == (p + p1 + p2, (p + p1) + "&" + (p + p1 + p2));
  }

  // ---------------------------------------------------------------------------
  // The transcript as evidently intended: `?` and the pairs joined by `&`, each once.

  function IntendedTranscript(d: RequestData, text: Json -> string, encode: string -> string): string {
    Start(d, text) + QuerySegment(d.query, text, encode) + HeaderSegment(d.header, text) + Payload(d, text, encode)
  }

  /** The query segment as intended: nothing without a query, else `?` and the joined pairs. */
  function QuerySegment(query: Entries, text: Json -> string, encode: string -> string): string {
    if |query| == 0 then "" else "?" + JoinedPairs(query, text, encode)
  }

  /** The joined pairs read from the front: the first pair, then `&` and the rest. */
  lemma {:induction false} JoinedPairsFront(es: Entries, text: Json -> string, encode: string -> string)
    requires |es| > 1
    ensures JoinedPairs(es, text, encode) == Pair(es[0], text, encode) + "&" + JoinedPairs(es[1..], text, encode)
  {
    var n := |es|;
    var init := es[..n - 1];
    if n == 2 {
      assert init == [es[0]];
      assert es[1..] == [es[1]];
    } else {
      JoinedPairsFront(init, text, encode);
      assert init[1..] == es[1..][..n - 2];
      assert es[1..][n - 2] == es[n - 1];
      assert JoinedPairs(es[1..], text, encode)
          == JoinedPairs(init[1..], text, encode) + "&" + Pair(es[n - 1], text, encode);
    }
  }

  /** The intended query segment lists each pair once, in order, separated by `&`. */
  lemma IntendedQuerySegment(query: Entries, text: Json -> string, encode: string -> string)
    ensures |query| == 1 ==> QuerySegment(query, text, encode) == "?" + Pair(query[0], text, encode)
    ensures |query| > 1 ==>
              QuerySegment(query, text, encode)
              == "?" + Pair(query[0], text, encode) + "&" + JoinedPairs(query[1..], text, encode)
  {
    if |query| > 1 {
      JoinedPairsFront(query, text, encode);
    }
  }

  /** The intended query segment is `?` and the pair texts joined by `&`. */
  lemma IntendedQueryJoined(query: Entries, text: Json -> string, encode: string -> string)
    requires |query| > 0
    ensures QuerySegment(query, text, encode) == "?" + Joined(PairTexts(query, text, encode), "&")
  {
    JoinedPairsAsJoin(query, text, encode);
  }

  /** Without a query the intended transcript is the transcript as written. */
  lemma IntendedTranscriptWithoutQuery(d: RequestData, text: Json -> string, encode: string -> string)
    requires |d.query| == 0
    ensures IntendedTranscript(d, text, encode) == Transcript(d, text, encode)
  {
    assert QuerySegment(d.query, text, encode) == "";
    assert WithQuery(Start(d, text), d, text, encode) == Start(d, text);
  }

  /** As written, one query entry already makes the transcript differ from the
      intended one: the prefix and the pair are printed twice. */
  lemma TranscriptRepeatsQuery(d: RequestData, text: Json -> string, encode: string -> string)
    requires |d.query| == 1
    ensures var p := Start(d, text) + "?" + Pair(d.query[0], text, encode);
            Transcript(d, text, encode) == p + p + HeaderSegment(d.header, text) + Payload(d, text, encode)
            && IntendedTranscript(d, text, encode) == p + HeaderSegment(d.header, text) + Payload(d, text, encode)
    ensures Transcript(d, text, encode) != IntendedTranscript(d, text, encode)
  {
    var p := Start(d, text) + "?" + Pair(d.query[0], text, encode);
    var rest := HeaderSegment(d.header, text) + Payload(d, text, encode);
    TranscriptOneQueryEntry(d, text, encode);
    IntendedTranscriptOneQueryEntry(d, text, encode);
    assert |p + p + rest| == |p + rest| + |p| && |p| > 0;
  }

  lemma TranscriptOneQueryEntry(d: RequestData, text: Json -> string, encode: string -> string)
    requires |d.query| == 1
    ensures var p := Start(d, text) + "?" + Pair(d.query[0], text, encode);
            Transcript(d, text, encode) == p + p + HeaderSegment(d.header, text) + Payload(d, text, encode)
  {
    var start := Start(d, text);
    assert d.query == [d.query[0]];
    QuerySegmentOneEntry(start, d.query[0], text, encode);
  }

  lemma IntendedTranscriptOneQueryEntry(d: RequestData, text: Json -> string, encode: string -> string)
    requires |d.query| == 1
    ensures var p := Start(d, text) + "?" + Pair(d.query[0], text, encode);
            IntendedTranscript(d, text, encode) == p + HeaderSegment(d.header, text) + Payload(d, text, encode)
  {
    IntendedQuerySegment(d.query, text, encode);
  }
}
