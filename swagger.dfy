/** The parsed Swagger 2 model the fuzzer consumes: properties, models,
    parameters and operations, as the swagger-parser library delivers them. */
module Swagger {
  import opened Base

  /** A property schema. Enum members of float and double properties are opaque codes. */
  datatype Property =
    | LongProperty(longEnum: Option<seq<int>>)
    | IntegerProperty(intEnum: Option<seq<int>>)
    | FloatProperty(floatEnum: Option<seq<int>>)
    | DoubleProperty(doubleEnum: Option<seq<int>>)
    | StringProperty(stringEnum: Option<seq<string>>, minLength: Option<int>, maxLength: Option<int>)
    | BooleanProperty
    | DateTimeProperty
    | ArrayProperty(items: Property, minItems: Option<int>, maxItems: Option<int>)
    | MapProperty(additionalProperties: Property)
    | ObjectProperty
    | RefProperty(simpleRef: string)
    | OtherProperty(className: string)      // any other property class (UUID, date, ...)

  /** A plain string property, as `StringProperty()` builds it. */
  const PlainString := StringProperty(None, None, None)

  /** A model (a definition or a body schema). `properties` is None when the model has no property map. */
  datatype Model =
    | ModelImpl(properties: Option<seq<(string, Property)>>)
    | RefModel(simpleRef: string)
    | ArrayModel(items: Property)
    | OtherModel(className: string)

  /** An operation parameter; `typ` and `format` are the declared strings ("" when absent). */
  datatype Parameter =
    | QueryParameter(name: string, typ: string, items: Option<Property>)
    | PathParameter(name: string, typ: string, format: string)
    | HeaderParameter(name: string, typ: string, format: string)
    | FormParameter(name: string, typ: string, format: string)
    | BodyParameter(name: string, schema: Model)
    | OtherParameter(name: string, className: string)   // cookie or unresolved $ref parameters

  datatype HttpMethod = GET | POST | PUT | PATCH | DELETE | HEAD | OPTIONS

  /** The enum constant's name, as `toString()` prints it. */
  function MethodName(m: HttpMethod): string {
    match m
    case GET => "GET"
    case POST => "POST"
    case PUT => "PUT"
    case PATCH => "PATCH"
    case DELETE => "DELETE"
    case HEAD => "HEAD"
    case OPTIONS => "OPTIONS"
  }

  /** One operation of a path: its parameters in declaration order and its declared status codes. */
  datatype Operation = Operation(parameters: seq<Parameter>, declaredResponses: set<int>)

  /** The whole document: named definitions and, per path, its operations by method. */
  datatype Spec = Spec(definitions: seq<(string, Model)>, paths: seq<(string, seq<(HttpMethod, Operation)>)>)
}
