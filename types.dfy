/**
  The records of the provider (`types.py`) and the dynamic values they carry.

  Python's dynamically typed flag values, attribute bags and JSON bodies are
  one tagged union, `Value`. A Python `dict` is the sequence of its entries in
  insertion order, which is the order Python iterates it in.
 */
module Types {
  import opened Wrappers

  datatype Value =
    | Null
    | Bool(b: bool)
    | Int(i: int)
    | Float(r: real)
    | Str(s: string)
    | List(elems: seq<Value>)
    | Dict(entries: seq<Entry>)

  /** One key/value pair of a Python dict. */
  datatype Entry = Entry(key: string, val: Value)

  /** `HyphenProviderOptions`. */
  datatype HyphenProviderOptions = HyphenProviderOptions(
    application: string,
    environment: string,
    horizonUrls: Option<seq<string>>,
    enableToggleUsage: bool,
    cacheTtlSeconds: Option<int>)

  /** `HyphenUser`. */
  datatype HyphenUser = HyphenUser(
    id: string,
    email: Option<string>,
    name: Option<string>,
    customAttributes: Option<seq<Entry>>)

  /**
    The fields of an evaluation context. `isHyphen` tells a
    `HyphenEvaluationContext` (which has the `user`, `ip_address` and
    `custom_attributes` fields) from the framework's plain `EvaluationContext`.
    `application` and `environment` are set on either kind by the provider.
   */
  datatype ContextValue = ContextValue(
    isHyphen: bool,
    targetingKey: Option<string>,
    attributes: seq<Entry>,
    ipAddress: Option<string>,
    customAttributes: Option<seq<Entry>>,
    user: Option<HyphenUser>,
    application: Option<string>,
    environment: Option<string>)

  /** The declared type of a flag: 'boolean' | 'string' | 'number' | 'object'. */
  datatype FlagType = BooleanType | StringType | NumberType | ObjectType

  /** `Evaluation`: one flag of an evaluation response. */
  datatype Evaluation = Evaluation(
    key: string,
    value: Value,
    flagType: FlagType,
    reason: Option<string>,
    errorMessage: Option<string>,
    variant: Option<string>)

  /** `EvaluationResponse`: the flags of one evaluation call, by flag key. */
  datatype EvaluationResponse = EvaluationResponse(toggles: map<string, Evaluation>)

  /** `TelemetryPayload`. */
  datatype TelemetryPayload = TelemetryPayload(context: ContextValue, data: map<string, Evaluation>)

  /** Python truthiness of an optional string: neither None nor empty. */
  predicate Truthy(s: Option<string>) {
    s.Some? && s.value != ""
  }
}
