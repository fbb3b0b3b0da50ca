/** The QuickTheories generators the fuzzer builds, as data, and what sampling
    one of them draws from a random stream. A `Gen` value is the generator the
    program constructs; `Sample` is its `generate` method. */
module Generators {
  import opened Base
  import opened Values
  import Traversable

  /** The candidates of `pick`: never empty once constructed. */
  type Choices = s: seq<Json> | |s| > 0 witness [JNull]

  /** A size or length range `[lo, hi]` that passed the library's argument checks. */
  type Bounds = b: (nat, nat) | b.0 <= b.1 witness (0, 0)

  datatype Gen =
    | Constant(v: Json)                          // constant(v)
    | OrNull(inner: Gen)                         // oneOf(constant(NullNode), inner)
    | Pick(choices: Choices)                     // pick(list)
    | Longs                                      // longs().all()
    | Integers                                   // integers().all()
    | Floats                                     // floats().any(), an opaque value
    | Doubles                                    // doubles().any(), an opaque value
    | Strings(length: Bounds)                    // strings().basicLatinAlphabet().ofLengthBetween
    | Booleans                                   // booleans()
    | Now                                        // constant(Utility::nowISO8601)
    | Lists(item: Gen, size: Bounds)             // lists().of(item).ofSizeBetween
    | Maps(keyLength: Bounds, values: Gen, count: nat) // maps().of(keys, values).ofSize(count)
    | Late(name: string)                         // DynamicGen: looks the definition up on every sample
    | Sequenced(fields: seq<(string, Gen)>)      // sequence(named gens).map { toMap }

  /** What sampling reads besides the stream: the definition table as it is when
      `generate` runs, and the clock's ISO-8601 text. */
  datatype Env = Env(definitions: map<string, Gen>, clock: string)

  const FirstBasicLatin := 0x20
  const LastBasicLatin := 0x7E
  const TwoTo31 := 0x8000_0000
  const TwoTo63 := 0x8000_0000_0000_0000

  predicate IsBasicLatin(c: char) {
    FirstBasicLatin <= c as int <= LastBasicLatin
  }

  predicate IsInt32(n: int) {
    -TwoTo31 <= n < TwoTo31
  }

  predicate IsInt64(n: int) {
    -TwoTo63 <= n < TwoTo63
  }

  /** A draw reduced into `[lo, hi]`. */
  function Within(b: Bounds, x: int): (n: nat)
    ensures b.0 <= n <= b.1
  {
    b.0 + x % (b.1 - b.0 + 1)
  }

  /** A draw as a two's-complement value of `2 * half` wide. */
  function Wrap(x: int, half: nat): int
    requires half > 0
  {
    (x + half) % (2 * half) - half
  }

  function BasicLatinChar(x: int): char {
    (FirstBasicLatin + x % (LastBasicLatin - FirstBasicLatin + 1)) as char
  }

  /** `n` characters of the basic Latin alphabet, one draw each. */
  function DrawChars(n: nat, s: Stream): Draw<string> {
    if n == 0 then Drawn("", s)
    else match DrawChars(n - 1, Tail(s))
      case Failed(e) => Failed(e)
      case Drawn(cs, t) => Drawn([BasicLatinChar(Head(s))] + cs, t)
  }

  /** A string: its length first, then its characters. */
  function DrawString(b: Bounds, s: Stream): Draw<string> {
    DrawChars(Within(b, Head(s)), Tail(s))
  }

  function Named(name: string, d: Draw<Json>): Draw<(string, Json)> {
    match d
    case Failed(e) => Failed(e)
    case Drawn(v, t) => Drawn((name, v), t)
  }

  /** One `generate` call. Sampling a `Late` reference spends one unit of `fuel`;
      nothing else does. */
  function Sample(g: Gen, env: Env, fuel: nat, s: Stream): Draw<Json>
    decreases fuel, g, 2
  {
    match g
    case Constant(v) => Drawn(v, s)
    case OrNull(inner) =>
      if Head(s) % 2 == 0 then Drawn(JNull, Tail(s)) else Sample(inner, env, fuel, Tail(s))
    case Pick(cs) => Drawn(cs[Head(s) % |cs|], Tail(s))
    case Longs => Drawn(JNum(Wrap(Head(s), TwoTo63)), Tail(s))
    case Integers => Drawn(JNum(Wrap(Head(s), TwoTo31)), Tail(s))
    case Floats => Drawn(JFloat(Head(s)), Tail(s))
    case Doubles => Drawn(JFloat(Head(s)), Tail(s))
    case Strings(b) =>
      (match DrawString(b, s)
       case Failed(e) => Failed(e)
       case Drawn(str, t) => Drawn(JString(str), t))
    case Booleans => Drawn(JBool(Head(s) % 2 == 1), Tail(s))
    case Now => Drawn(JString(env.clock), s)
    case Lists(item, b) =>
      (match SampleItems(g, Within(b, Head(s)), env, fuel, Tail(s))
       case Failed(e) => Failed(e)
       case Drawn(vs, t) => Drawn(JArray(vs), t))
    case Maps(_, _, n) =>
      (match SampleEntries(g, n, env, fuel, s)
       case Failed(e) => Failed(e)
       case Drawn(ps, t) => Drawn(JObject(ToMap(ps)), t))
    case Late(name) =>
      if name !in env.definitions then Failed(Dangling(name))
      else if fuel == 0 then Failed(OutOfFuel)
      else Sample(env.definitions[name], env, fuel - 1, s)
    case Sequenced(_) =>
      match SampleFields(g, env, fuel, s)
      case Failed(e) => Failed(e)
      case Drawn(es, t) => Drawn(JObject(es), t)
  }

  /** `sequence(named gens).map { l -> l.map { name to value }.toMap() }`. */
  function SampleFields(g: Gen, env: Env, fuel: nat, s: Stream): Draw<Entries>
    requires g.Sequenced?
    decreases fuel, g, 1
  {
    match Traversable.Sequence(FieldSamplers(g, env, fuel), s)
    case Failed(e) => Failed(e)
    case Drawn(ps, t) => Drawn(ToMap(ps), t)
  }

  /** The `n` elements of a list, in order. */
  function SampleItems(g: Gen, n: nat, env: Env, fuel: nat, s: Stream): Draw<seq<Json>>
    requires g.Lists?
    decreases fuel, g, 0, n
  {
    if n == 0 then Drawn([], s)
    else match Sample(g.item, env, fuel, s)
      case Failed(e) => Failed(e)
      case Drawn(v, t) =>
        match SampleItems(g, n - 1, env, fuel, t)
        case Failed(e) => Failed(e)
        case Drawn(vs, u) => Drawn([v] + vs, u)
  }

  /** The `n` key-value pairs of a map, each key drawn before its value. */
  function SampleEntries(g: Gen, n: nat, env: Env, fuel: nat, s: Stream): Draw<Entries>
    requires g.Maps?
    decreases fuel, g, 0, n
  {
    if n == 0 then Drawn([], s)
    else match DrawString(g.keyLength, s)
      case Failed(e) => Failed(e)
      case Drawn(k, t) =>
        match Sample(g.values, env, fuel, t)
        case Failed(e) => Failed(e)
        case Drawn(v, u) =>
          match SampleEntries(g, n - 1, env, fuel, u)
          case Failed(e) => Failed(e)
          case Drawn(ps, w) => Drawn([(k, v)] + ps, w)
  }

  /** The named samplers `sequence` receives for an object's fields. */
  function FieldSamplers(g: Gen, env: Env, fuel: nat): (ss: seq<Traversable.Sampler<(string, Json)>>)
    requires g.Sequenced?
    ensures |ss| == |g.fields|
    decreases fuel, g, 0
  {
    seq(|g.fields|, i requires 0 <= i < |g.fields| =>
      (t: Stream) => Named(g.fields[i].0, Sample(g.fields[i].1, env, fuel, t)))
  }

  // ---------------------------------------------------------------------------
  // What a generator can produce, stated without reference to the stream.

  predicate AllBasicLatin(str: string) {
    forall i :: 0 <= i < |str| ==> IsBasicLatin(str[i])
  }

  predicate StringFits(b: Bounds, str: string) {
    b.0 <= |str| <= b.1 && AllBasicLatin(str)
  }

  /** `v` is a value that generator `g` may yield when at most `fuel` late
      references are followed. */
  ghost predicate Fits(g: Gen, env: Env, fuel: nat, v: Json)
    decreases fuel, g
  {
    match g
    case Constant(c) => v == c
    case OrNull(inner) => v == JNull || Fits(inner, env, fuel, v)
    case Pick(cs) => v in cs
    case Longs => v.JNum? && IsInt64(v.n)
    case Integers => v.JNum? && IsInt32(v.n)
    case Floats => v.JFloat?
    case Doubles => v.JFloat?
    case Strings(b) => v.JString? && StringFits(b, v.str)
    case Booleans => v.JBool?
    case Now => v == JString(env.clock)
    case Lists(item, b) =>
      v.JArray? && b.0 <= |v.items| <= b.1
      && forall i :: 0 <= i < |v.items| ==> Fits(item, env, fuel, v.items[i])
    case Maps(kb, values, n) =>
      v.JObject? && |v.fields| <= n && DistinctKeys(v.fields)
      && forall i :: 0 <= i < |v.fields| ==>
           StringFits(kb, v.fields[i].0) && Fits(values, env, fuel, v.fields[i].1)
    case Late(name) =>
      name in env.definitions && fuel > 0 && Fits(env.definitions[name], env, fuel - 1, v)
    case Sequenced(fields) =>
      v.JObject? && KeysOf(v.fields) == KeysOf(fields) && DistinctKeys(v.fields)
      && forall i :: 0 <= i < |v.fields| ==>
           exists j :: 0 <= j < |fields| && fields[j].0 == v.fields[i].0 && Fits(fields[j].1, env, fuel, v.fields[i].1)
  }

  lemma {:induction false} DrawCharsFits(n: nat, s: Stream)
    ensures DrawChars(n, s).Drawn?
    ensures |DrawChars(n, s).value| == n && AllBasicLatin(DrawChars(n, s).value)
  {
    if n > 0 {
      DrawCharsFits(n - 1, Tail(s));
      var d := DrawChars(n - 1, Tail(s));
      var c := BasicLatinChar(Head(s));
      assert DrawChars(n, s).value == [c] + d.value;
      assert IsBasicLatin(c);
    }
  }

  /** Drawing a string never fails and stays within the length range and the alphabet. */
  lemma DrawStringFits(b: Bounds, s: Stream)
    ensures DrawString(b, s).Drawn?
    ensures StringFits(b, DrawString(b, s).value)
  {
    DrawCharsFits(Within(b, Head(s)), Tail(s));
  }

  /** Soundness of the sampler against `Fits`: whatever a generator yields, it may yield. */
  lemma {:induction false} SampleFits(g: Gen, env: Env, fuel: nat, s: Stream)
    ensures Sample(g, env, fuel, s).Drawn? ==> Fits(g, env, fuel, Sample(g, env, fuel, s).value)
    decreases fuel, g, 2
  {
    match g
    case Constant(_) =>
    case OrNull(inner) =>
      if Head(s) % 2 != 0 { SampleFits(inner, env, fuel, Tail(s)); }
    case Pick(cs) =>
    case Longs =>
    case Integers =>
    case Floats =>
    case Doubles =>
    case Strings(b) => DrawStringFits(b, s);
    case Booleans =>
    case Now =>
    case Lists(item, b) =>
      SampleItemsFit(g, Within(b, Head(s)), env, fuel, Tail(s));
    case Maps(kb, values, n) =>
      var d := SampleEntries(g, n, env, fuel, s);
      if d.Drawn? {
        SampleEntriesFit(g, n, env, fuel, s);
        ToMapKeys(d.value);
        var m := ToMap(d.value);
        forall i | 0 <= i < |m|
          ensures StringFits(kb, m[i].0) && Fits(values, env, fuel, m[i].1)
        {
          assert m[i] in d.value;
        }
      }
    case Late(name) =>
      if name in env.definitions && fuel > 0 {
        SampleFits(env.definitions[name], env, fuel - 1, s);
      }
    case Sequenced(fields) =>
      SequencedFits(g, env, fuel, s);
  }

  lemma {:induction false} SampleItemsFit(g: Gen, n: nat, env: Env, fuel: nat, s: Stream)
    requires g.Lists?
    ensures SampleItems(g, n, env, fuel, s).Drawn? ==>
              |SampleItems(g, n, env, fuel, s).value| == n
              && forall i :: 0 <= i < n ==> Fits(g.item, env, fuel, SampleItems(g, n, env, fuel, s).value[i])
    decreases fuel, g, 0, n
  {
    if n > 0 {
      var d := Sample(g.item, env, fuel, s);
      if d.Drawn? {
        SampleFits(g.item, env, fuel, s);
        SampleItemsFit(g, n - 1, env, fuel, d.rest);
      }
    }
  }

  lemma {:induction false} SampleEntriesFit(g: Gen, n: nat, env: Env, fuel: nat, s: Stream)
    requires g.Maps?
    ensures SampleEntries(g, n, env, fuel, s).Drawn? ==>
              |SampleEntries(g, n, env, fuel, s).value| == n
              && forall e :: e in SampleEntries(g, n, env, fuel, s).value ==>
                   StringFits(g.keyLength, e.0) && Fits(g.values, env, fuel, e.1)
    decreases fuel, g, 0, n
  {
    if n > 0 {
      DrawStringFits(g.keyLength, s);
      var k := DrawString(g.keyLength, s);
      var d := Sample(g.values, env, fuel, k.rest);
      if d.Drawn? {
        SampleFits(g.values, env, fuel, k.rest);
        SampleEntriesFit(g, n - 1, env, fuel, d.rest);
      }
    }
  }

  lemma FieldSamplerAt(g: Gen, env: Env, fuel: nat, i: int, t: Stream)
    requires g.Sequenced? && 0 <= i < |g.fields|
    ensures FieldSamplers(g, env, fuel)[i](t) == Named(g.fields[i].0, Sample(g.fields[i].1, env, fuel, t))
  {
  }

  lemma {:induction false} SequencedFits(g: Gen, env: Env, fuel: nat, s: Stream)
    requires g.Sequenced?
    ensures SampleFields(g, env, fuel, s).Drawn? ==> Fits(g, env, fuel, JObject(SampleFields(g, env, fuel, s).value))
    decreases fuel, g, 1
  {
    var d := Traversable.Sequence(FieldSamplers(g, env, fuel), s);
    if d.Drawn? {
      FieldDrawsFit(g, env, fuel, s);
      PairsFitObject(g.fields, d.value, env, fuel);
    }
  }

  /** Each pair `sequence` draws for an object carries its own field's name and a value of that field's generator. */
  lemma {:induction false} FieldDrawsFit(g: Gen, env: Env, fuel: nat, s: Stream)
    requires g.Sequenced?
    requires Traversable.Sequence(FieldSamplers(g, env, fuel), s).Drawn?
    ensures var ps := Traversable.Sequence(FieldSamplers(g, env, fuel), s).value;
            |ps| == |g.fields|
            && forall i :: 0 <= i < |ps| ==> ps[i].0 == g.fields[i].0 && Fits(g.fields[i].1, env, fuel, ps[i].1)
    decreases fuel, g, 0
  {
    var fields := g.fields;
    var ss := FieldSamplers(g, env, fuel);
    var ps := Traversable.Sequence(ss, s).value;
    forall i | 0 <= i < |ps|
      ensures ps[i].0 == fields[i].0 && Fits(fields[i].1, env, fuel, ps[i].1)
    {
      Traversable.SequenceAt(ss, s, i);
      var t :| ss[i](t).Drawn? && ss[i](t).value == ps[i];
      FieldSamplerAt(g, env, fuel, i, t);
      SampleFits(fields[i].1, env, fuel, t);
    }
  }

  /** `toMap()` of pairs that fit their fields position by position fits the object of those fields. */
  lemma PairsFitObject(fields: seq<(string, Gen)>, ps: Entries, env: Env, fuel: nat)
    requires |ps| == |fields|
    requires forall i :: 0 <= i < |ps| ==> ps[i].0 == fields[i].0 && Fits(fields[i].1, env, fuel, ps[i].1)
    ensures Fits(Sequenced(fields), env, fuel, JObject(ToMap(ps)))
  {
    SameKeys(ps, fields);
    ToMapKeys(ps);
    var m := ToMap(ps);
    forall i | 0 <= i < |m|
      ensures exists j :: 0 <= j < |fields| && fields[j].0 == m[i].0 && Fits(fields[j].1, env, fuel, m[i].1)
    {
      assert m[i] in ps;
      var j :| 0 <= j < |ps| && ps[j] == m[i];
      assert fields[j].0 == m[i].0 && Fits(fields[j].1, env, fuel, m[i].1);
    }
  }

  // ---------------------------------------------------------------------------
  // The samplers of a request's parameter maps.

  /** `constant(HashMap())` when a location has no parameters, else the sequenced named samplers. */
  datatype MapGen = EmptyMap | FieldsMap(fields: seq<(string, Gen)>)

  function SampleMap(mg: MapGen, env: Env, fuel: nat, s: Stream): Draw<Entries> {
    match mg
    case EmptyMap => Drawn([], s)
    case FieldsMap(fields) => SampleFields(Sequenced(fields), env, fuel, s)
  }

  /** The names a parameter-map sampler produces: none for the constant empty map,
      else exactly its fields' names, each once, with values their generators may yield. */
  lemma SampleMapFits(mg: MapGen, env: Env, fuel: nat, s: Stream)
    ensures mg.EmptyMap? ==> SampleMap(mg, env, fuel, s) == Drawn([], s)
    ensures mg.FieldsMap? && SampleMap(mg, env, fuel, s).Drawn? ==>
              Fits(Sequenced(mg.fields), env, fuel, JObject(SampleMap(mg, env, fuel, s).value))
  {
    if mg.FieldsMap? {
      SequencedFits(Sequenced(mg.fields), env, fuel, s);
    }
  }
}
