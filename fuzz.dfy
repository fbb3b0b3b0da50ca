/** `Fuzz`: turns the Swagger model into generators. Every function here runs
    when the generators are built; an `Err` is an exception thrown then. What
    the built generators do when sampled is `Generators.Sample`. */
module Fuzz {
  import opened Base
  import opened Values
  import opened Swagger
  import opened Generators

  const RefHandledEarlier := "this should have been handled before this point"

  // ---------------------------------------------------------------------------
  // Library constructors and their argument checks.

  /** `pick(list)`, which rejects an empty list. */
  function PickOf(vs: seq<Json>): (r: Result<Gen>)
    ensures r.Ok? <==> |vs| > 0
  {
    if |vs| == 0 then Err(InvalidArgument("pick from an empty list")) else Ok(Pick(vs))
  }

  /** `stringGen(min, max)`: basic Latin strings whose length lies in `[min, max]`. */
  function StringGen(min: int, max: int): (r: Result<Gen>)
    ensures r.Ok? <==> 0 <= min <= max
  {
    if 0 <= min <= max then Ok(Strings((min, max))) else Err(InvalidArgument("string length bounds"))
  }

  /** `lists().of(item).ofSizeBetween(min, max)`. */
  function ListGen(item: Gen, min: int, max: int): (r: Result<Gen>)
    ensures r.Ok? <==> 0 <= min <= max
  {
    if 0 <= min <= max then Ok(Lists(item, (min, max))) else Err(InvalidArgument("list size bounds"))
  }

  /** `Jackson::fromObject` over the members of an enum. */
  function Numbers(ns: seq<int>): (r: seq<Json>)
    ensures |r| == |ns|
  {
    seq(|ns|, i requires 0 <= i < |ns| => JNum(ns[i]))
  }

  function FloatCodes(cs: seq<int>): (r: seq<Json>)
    ensures |r| == |cs|
  {
    seq(|cs|, i requires 0 <= i < |cs| => JFloat(cs[i]))
  }

  function Texts(ss: seq<string>): (r: seq<Json>)
    ensures |r| == |ss|
  {
    seq(|ss|, i requires 0 <= i < |ss| => JString(ss[i]))
  }

  // ---------------------------------------------------------------------------
  // Properties.

  /** `propertyGen(prop)`: every non-ref property is nullable. */
  function PropertyGen(p: Property): Result<Gen>
    decreases p, 1
  {
    match PropertyGenAux(p)
    case Err(e) => Err(e)
    case Ok(g) => Ok(OrNull(g))
  }

  /** `propertyGenAux(prop)`: the closed case split over property kinds. */
  function PropertyGenAux(p: Property): Result<Gen>
    decreases p, 0
  {
    match p
    case LongProperty(e) => if e.Some? then PickOf(Numbers(e.value)) else Ok(Longs)
    case IntegerProperty(e) => if e.Some? then PickOf(Numbers(e.value)) else Ok(Integers)
    case FloatProperty(e) => if e.Some? then PickOf(FloatCodes(e.value)) else Ok(Floats)
    case DoubleProperty(e) => if e.Some? then PickOf(FloatCodes(e.value)) else Ok(Doubles)
    case StringProperty(e, minLength, maxLength) =>
      if e.Some? then PickOf(Texts(e.value)) else StringGen(minLength.GetOr(0), maxLength.GetOr(5))
    case BooleanProperty => Ok(Booleans)
    case DateTimeProperty => Ok(Now)
    case ArrayProperty(items, minItems, maxItems) =>
      if items.RefProperty? then Ok(Late(items.simpleRef))
      else (match PropertyGen(items)
            case Err(e) => Err(e)
            case Ok(ig) => ListGen(ig, minItems.GetOr(0), maxItems.GetOr(5)))
    case MapProperty(value) =>
      (match PropertyGen(value)
       case Err(e) => Err(e)
       case Ok(vg) => Ok(Maps((0, 5), vg, 4)))
    case ObjectProperty => Ok(Maps((0, 5), Strings((0, 5)), 4))
    case RefProperty(_) => Err(IllegalState(RefHandledEarlier))
    case OtherProperty(c) => Err(NotImplemented("unimplemented property type " + c))
  }

  /** The generator of one named field of an object model: a ref becomes a late
      reference (`dynamicGen`), anything else goes through `propertyGen`. */
  function FieldGen(p: Property): Result<Gen> {
    if p.RefProperty? then Ok(Late(p.simpleRef)) else PropertyGen(p)
  }

  /** The field generators of an object model, built in declaration order; the first exception wins. */
  function FieldGens(props: seq<(string, Property)>): Result<seq<(string, Gen)>> {
    if |props| == 0 then Ok([])
    else match FieldGen(props[0].1)
      case Err(e) => Err(e)
      case Ok(g) =>
        match FieldGens(props[1..])
        case Err(e) => Err(e)
        case Ok(rest) => Ok([(props[0].0, g)] + rest)
  }

  // ---------------------------------------------------------------------------
  // Models.

  /** `modelGen(model)`. `definitions` is the table as it is when the call runs:
      `None` while `init` is still computing it. */
  function ModelGen(m: Model, definitions: Option<map<string, Gen>>): Result<Gen> {
    match m
    case ModelImpl(None) => Ok(Constant(JObject([])))
    case ModelImpl(Some(props)) =>
      (match FieldGens(props)
       case Err(e) => Err(e)
       case Ok(fields) => Ok(Sequenced(fields)))
    case RefModel(name) =>
      if definitions.None? then Err(Uninitialised("definitions"))
      else if name in definitions.value then Ok(definitions.value[name])
      else Err(IllegalState(name + " not defined; problem parsing?"))
    case ArrayModel(items) =>
      if items.RefProperty? then Ok(Late(items.simpleRef)) else PropertyGen(ArrayProperty(items, None, None))
    case OtherModel(c) => Err(NotImplemented("need to handle other model types: " + c))
  }

  // ---------------------------------------------------------------------------
  // The definition table built in `init`.

  /** Maps every definition through `gen`, in order; the first exception wins. */
  function DefinitionGens(defs: seq<(string, Model)>, gen: Model -> Result<Gen>): Result<seq<(string, Gen)>> {
    if |defs| == 0 then Ok([])
    else match gen(defs[0].1)
      case Err(e) => Err(e)
      case Ok(g) =>
        match DefinitionGens(defs[1..], gen)
        case Err(e) => Err(e)
        case Ok(rest) => Ok([(defs[0].0, g)] + rest)
  }

  /** `toMap()` into a table: a later pair with the same name wins. */
  function TableOf(es: seq<(string, Gen)>): map<string, Gen> {
    if |es| == 0 then map[]
    else
      var rest := TableOf(es[1..]);
      if es[0].0 in rest then rest else rest[es[0].0 := es[0].1]
  }

  /** `modelGen` called from `init`, before `definitions` is assigned. */
  function ModelGenDuringInit(m: Model): Result<Gen> {
    ModelGen(m, None)
  }

  /** The table as `init` computes it. */
  function InitAsWritten(defs: seq<(string, Model)>): Result<map<string, Gen>> {
    match DefinitionGens(defs, ModelGenDuringInit)
    case Err(e) => Err(e)
    case Ok(es) => Ok(TableOf(es))
  }

  /** One definition's entry in the corrected table: a top-level `RefModel` is
      bound late, like a ref property, instead of read from the unfinished table. */
  function DefinitionGen(m: Model): Result<Gen> {
    if m.RefModel? then Ok(Late(m.simpleRef)) else ModelGen(m, None)
  }

  /** The corrected `init`. */
  function Init(defs: seq<(string, Model)>): Result<map<string, Gen>> {
    match DefinitionGens(defs, DefinitionGen)
    case Err(e) => Err(e)
    case Ok(es) => Ok(TableOf(es))
  }

  // ---------------------------------------------------------------------------
  // Parameters.

  datatype Location = InQuery | InPath | InHeader | InForm | InBody

  function LocationOf(p: Parameter): Option<Location> {
    match p
    case QueryParameter(_, _, _) => Some(InQuery)
    case PathParameter(_, _, _) => Some(InPath)
    case HeaderParameter(_, _, _) => Some(InHeader)
    case FormParameter(_, _, _) => Some(InForm)
    case BodyParameter(_, _) => Some(InBody)
    case OtherParameter(_, _) => None
  }

  /** `params.filter { p -> p is X }`: the parameters of one location, in order. */
  function ParamsIn(params: seq<Parameter>, loc: Location): (r: seq<Parameter>)
    ensures forall p :: p in r <==> p in params && LocationOf(p) == Some(loc)
    ensures |r| <= |params|
  {
    if |params| == 0 then []
    else if LocationOf(params[0]) == Some(loc) then [params[0]] + ParamsIn(params[1..], loc)
    else ParamsIn(params[1..], loc)
  }

  predicate IsMapLocated(p: Parameter) {
    p.QueryParameter? || p.PathParameter? || p.HeaderParameter? || p.FormParameter?
  }

  /** A path, header or form parameter by declared type; `file` only in a form. */
  function ScalarParamGen(typ: string, format: string, inForm: bool): Result<Gen> {
    if typ == "string" then PropertyGen(PlainString)
    else if typ == "integer" then
      (if format == "int64" then PropertyGen(LongProperty(None)) else PropertyGen(IntegerProperty(None)))
    else if typ == "file" && inForm then PropertyGen(PlainString)
    else Err(NotImplemented("unimplemented type " + typ))
  }

  /** The generator of one query, path, header or form parameter. */
  function ParamGen(p: Parameter): Result<Gen>
    requires IsMapLocated(p)
  {
    match p
    case QueryParameter(_, typ, items) =>
      if items.Some? then PropertyGen(items.value)
      else if typ == "string" then PropertyGen(PlainString)
      else Err(NotImplemented("unimplemented type " + typ))
    case PathParameter(_, typ, format) => ScalarParamGen(typ, format, false)
    case HeaderParameter(_, typ, format) => ScalarParamGen(typ, format, false)
    case FormParameter(_, typ, format) => ScalarParamGen(typ, format, true)
  }

  function ParamGens(ps: seq<Parameter>): Result<seq<(string, Gen)>>
    requires forall p :: p in ps ==> IsMapLocated(p)
  {
    if |ps| == 0 then Ok([])
    else match ParamGen(ps[0])
      case Err(e) => Err(e)
      case Ok(g) =>
        match ParamGens(ps[1..])
        case Err(e) => Err(e)
        case Ok(rest) => Ok([(ps[0].name, g)] + rest)
  }

  /** The shared shape of the four parameter-map generators. */
  function LocationGen(params: seq<Parameter>, loc: Location): Result<MapGen>
    requires loc != InBody
  {
    var ps := ParamsIn(params, loc);
    if |ps| == 0 then Ok(EmptyMap)
    else match ParamGens(ps)
      case Err(e) => Err(e)
      case Ok(fields) => Ok(FieldsMap(fields))
  }

  function QueryParamsGenerator(params: seq<Parameter>): Result<MapGen> { LocationGen(params, InQuery) }
  function PathParamsGenerator(params: seq<Parameter>): Result<MapGen> { LocationGen(params, InPath) }
  function HeaderParamsGenerator(params: seq<Parameter>): Result<MapGen> { LocationGen(params, InHeader) }
  function FormParamsGenerator(params: seq<Parameter>): Result<MapGen> { LocationGen(params, InForm) }

  /** `bodyParamsGenerator`: `None` plays `null`. */
  function BodyParamsGenerator(params: seq<Parameter>, definitions: map<string, Gen>): Result<Option<Gen>> {
    var bodies := ParamsIn(params, InBody);
    if |bodies| > 1 then Err(Runtime("more than one body parameter"))
    else if |bodies| == 1 then
      assert bodies[0] in bodies;
      (match ModelGen(bodies[0].schema, Some(definitions))
       case Err(e) => Err(e)
       case Ok(g) => Ok(Some(g)))
    else Ok(None)
  }
}
