/**
  `HyphenProvider`: checks its options, prepares the evaluation context
  (targeting key, application, environment), asks the client for the flags
  and turns the flag that was asked for into a resolution, or into the error
  the OpenFeature framework defines.

  The object identity Python's `id(context)` gives is a number attached to a
  context; a context the provider creates itself takes the one passed in as
  `freshIdentity`. Parsing a float or a JSON text is a parameter.
 */
module Provider {
  import opened Wrappers
  import opened Types
  import PyText
  import Client
  import Cache

  /** The `ValueError`s the constructor raises. */
  datatype ConfigError = ApplicationRequired | EnvironmentRequired

  /** The options check of the constructor: application first, then environment. */
  function ValidateOptions(options: HyphenProviderOptions): (r: Option<ConfigError>)
    ensures r == None <==> options.application != "" && options.environment != ""
    ensures r == Some(ApplicationRequired) <==> options.application == ""
    ensures r == Some(EnvironmentRequired) <==> options.application != "" && options.environment == ""
  {
    if options.application == "" then Some(ApplicationRequired)
    else if options.environment == "" then Some(EnvironmentRequired)
    else None
  }

  /** Only emptiness is checked: an environment such as "Production" is accepted. */
  lemma EnvironmentFormatNotChecked(horizonUrls: Option<seq<string>>, enableToggleUsage: bool, cacheTtlSeconds: Option<int>)
    ensures ValidateOptions(HyphenProviderOptions("test-app", "Production", horizonUrls, enableToggleUsage, cacheTtlSeconds)) == None
  {
  }

  /** The hook the provider registers when usage telemetry is enabled. */
  datatype Hook = TelemetryHook

  /** The errors a resolution raises. */
  datatype ResolutionError =
    | FlagNotFound                      // `FlagNotFoundError('Flag not found')`
    | General(message: string)          // `GeneralError(error_message)`
    | TypeMismatch                      // `TypeMismatchError()`
    | ClientFailed(cause: Client.Error) // raised by the client
    | NotConvertible                    // `int(...)` or `float(...)` raised

  datatype ErrorCode = ParseError

  /** `FlagResolutionDetails`. */
  datatype Resolution = Resolution(value: Value, variant: Option<string>, reason: string, errorCode: Option<ErrorCode>)

  const TargetingMatch := "TARGETING_MATCH"
  const ErrorReason := "ERROR"

  /** The targeting key made up for a context that has none: `{application}-{environment}-{id}`. */
  function GeneratedTargetingKey(options: HyphenProviderOptions, identity: nat): (key: string)
    ensures var prefix := options.application + "-" + options.environment + "-";
      prefix <= key && PyText.AllDigits(key[|prefix|..]) && PyText.DigitsValue(key[|prefix|..]) == identity
  {
    var prefix := options.application + "-" + options.environment + "-";
    var digits := PyText.DecimalText(identity);
    assert (prefix + digits)[|prefix|..] == digits;
    PyText.DigitsValueOfDecimalText(identity);
    prefix + digits
  }

  /**
    `_get_targeting_key`: the context's own targeting key when it is not
    empty; then, for a Hyphen context, the user's id when it is not empty;
    then a generated key.
   */
  function TargetingKey(context: ContextValue, identity: nat, options: HyphenProviderOptions): (key: string)
    ensures key != ""
    ensures Truthy(context.targetingKey) ==> key == context.targetingKey.value
    ensures !Truthy(context.targetingKey) && context.isHyphen && context.user.Some? && context.user.value.id != ""
      ==> key == context.user.value.id
    ensures !Truthy(context.targetingKey) && !(context.isHyphen && context.user.Some? && context.user.value.id != "")
      ==> key == GeneratedTargetingKey(options, identity)
  {
    if context.isHyphen && Truthy(context.targetingKey) then context.targetingKey.value
    else if context.isHyphen && context.user.Some? && context.user.value.id != "" then context.user.value.id
    else if Truthy(context.targetingKey) then context.targetingKey.value
    else GeneratedTargetingKey(options, identity)
  }

  /**
    A generated key starts with the application and, after a dash, the
    environment; the identity that ends it is a decimal number.
   */
  lemma GeneratedKeyNamesOptions(options: HyphenProviderOptions, identity: nat)
    ensures var key := GeneratedTargetingKey(options, identity);
      var a, e := |options.application|, |options.environment|;
      |key| > a + e + 2 && key[..a] == options.application && key[a] == '-'
      && key[a + 1..a + 1 + e] == options.environment && key[a + 1 + e] == '-'
      && PyText.AllDigits(key[a + e + 2..])
  {
    var key := GeneratedTargetingKey(options, identity);
    var a, e := |options.application|, |options.environment|;
    var digits := PyText.DecimalText(identity);
    assert key == options.application + ("-" + (options.environment + ("-" + digits)));
    assert key[a + e + 2..] == digits;
  }

  /** The context `_prepare_context` leaves: targeting key, application and environment set. */
  function Prepared(context: ContextValue, identity: nat, options: HyphenProviderOptions): (prepared: ContextValue)
    ensures prepared.targetingKey == Some(TargetingKey(context, identity, options))
    ensures prepared.application == Some(options.application)
    ensures prepared.environment == Some(options.environment)
  {
    context.(targetingKey := Some(TargetingKey(context, identity, options)),
             application := Some(options.application),
             environment := Some(options.environment))
  }

  /** Preparing changes nothing but the targeting key, the application and the environment. */
  lemma PreparedKeepsOtherFields(context: ContextValue, identity: nat, options: HyphenProviderOptions)
    ensures var p := Prepared(context, identity, options);
      p.isHyphen == context.isHyphen && p.attributes == context.attributes && p.ipAddress == context.ipAddress
      && p.customAttributes == context.customAttributes && p.user == context.user
  {
  }

  /** Preparing a prepared context again changes nothing: its targeting key is kept. */
  lemma PrepareIdempotent(context: ContextValue, identity: nat, options: HyphenProviderOptions)
    ensures Prepared(Prepared(context, identity, options), identity, options) == Prepared(context, identity, options)
  {
    var once := Prepared(context, identity, options);
    assert Truthy(once.targetingKey);
  }

  /** The fields of a context the provider makes when it is given none: `EvaluationContext()`. */
  const EmptyContext := ContextValue(false, None, [], None, None, None, None, None)

  /**
    `_get_evaluation`'s checks on the response: a missing flag, then an error
    message, then a type that is not the requested one; otherwise the flag's
    value, its `str()` as the variant, and its reason or TARGETING_MATCH.
   */
  function Decide(toggles: map<string, Evaluation>, flagKey: string, requested: FlagType): (r: Result<Resolution, ResolutionError>)
    ensures flagKey !in toggles ==> r == Failure(FlagNotFound)
    ensures flagKey in toggles && Truthy(toggles[flagKey].errorMessage)
      ==> r == Failure(General(toggles[flagKey].errorMessage.value))
    ensures r.Success? <==>
      flagKey in toggles && !Truthy(toggles[flagKey].errorMessage) && toggles[flagKey].flagType == requested
    ensures flagKey in toggles && !Truthy(toggles[flagKey].errorMessage) && toggles[flagKey].flagType != requested
      ==> r == Failure(TypeMismatch)
    ensures r.Success? ==>
      var e := toggles[flagKey];
      r.value.value == e.value && r.value.variant == Some(PyText.PyStr(e.value)) && r.value.errorCode == None
      && r.value.reason == (if Truthy(e.reason) then e.reason.value else TargetingMatch)
  {
    if flagKey !in toggles then Failure(FlagNotFound)
    else
      var evaluation := toggles[flagKey];
      if Truthy(evaluation.errorMessage) then Failure(General(evaluation.errorMessage.value))
      else if evaluation.flagType != requested then Failure(TypeMismatch)
      else
        var reason := if Truthy(evaluation.reason) then evaluation.reason.value else TargetingMatch;
        Success(Resolution(evaluation.value, Some(PyText.PyStr(evaluation.value)), reason, None))
  }

  /** A resolution depends on the requested flag's entry alone. */
  lemma DecideOnlyReadsItsFlag(toggles: map<string, Evaluation>, flagKey: string, requested: FlagType, other: string, e: Evaluation)
    requires other != flagKey
    ensures Decide(toggles[other := e], flagKey, requested) == Decide(toggles, flagKey, requested)
  {
  }

  /** An error message is reported even when the type does not match either. */
  lemma ErrorMessageBeforeTypeMismatch(toggles: map<string, Evaluation>, flagKey: string, requested: FlagType)
    requires flagKey in toggles && Truthy(toggles[flagKey].errorMessage)
    requires toggles[flagKey].flagType != requested
    ensures Decide(toggles, flagKey, requested).Failure?
    ensures Decide(toggles, flagKey, requested).error.General?
  {
  }

  /** The variant of an integer flag reads back, with `int()`, as its value. */
  lemma IntegerVariantReadsBack(toggles: map<string, Evaluation>, flagKey: string)
    requires Decide(toggles, flagKey, NumberType).Success?
    requires toggles[flagKey].value.Int?
    ensures PyText.IntLiteral(Decide(toggles, flagKey, NumberType).value.variant.value) == Some(toggles[flagKey].value.i)
  {
    PyText.IntLiteralOfIntText(toggles[flagKey].value.i);
  }

  /** Python's `int(x)`: integers as they are, booleans as 0 or 1, floats truncated toward zero, decimal strings. */
  function ToInt(v: Value): (r: Option<int>)
    ensures v.Int? ==> r == Some(v.i)
    ensures v.Bool? ==> r == Some(if v.b then 1 else 0)
    ensures v.Float? ==> r.Some? && (if v.r >= 0.0 then 0.0 <= v.r - r.value as real < 1.0 else 0.0 <= r.value as real - v.r < 1.0)
    ensures v.Str? ==> r == PyText.IntLiteral(v.s)
    ensures v.Null? || v.List? || v.Dict? ==> r == None
  {
    match v
    case Int(i) => Some(i)
    case Bool(b) => Some(if b then 1 else 0)
    case Float(x) => Some(if x >= 0.0 then x.Floor else -((-x).Floor))
    case Str(s) => PyText.IntLiteral(s)
    case _ => None
  }

  /** Python's `float(x)`; how a string is read as a float is the parameter `parseFloat`. */
  function ToFloat(v: Value, parseFloat: string -> Option<real>): (r: Option<real>)
    ensures v.Float? ==> r == Some(v.r)
    ensures v.Int? ==> r == Some(v.i as real)
    ensures v.Bool? ==> r == Some(if v.b then 1.0 else 0.0)
    ensures v.Str? ==> r == parseFloat(v.s)
    ensures v.Null? || v.List? || v.Dict? ==> r == None
  {
    match v
    case Float(x) => Some(x)
    case Int(i) => Some(i as real)
    case Bool(b) => Some(if b then 1.0 else 0.0)
    case Str(s) => parseFloat(s)
    case _ => None
  }

  /**
    The fallback of `resolve_object_details`: a string value that does not
    parse as JSON gives the default value, reason ERROR and code PARSE_ERROR.
   */
  function ObjectValue(details: Resolution, defaultValue: Value, parseJson: string -> Option<Value>): (r: Resolution)
    ensures !details.value.Str? ==> r == details
    ensures details.value.Str? && parseJson(details.value.s).Some? ==> r == details.(value := parseJson(details.value.s).value)
    ensures details.value.Str? && parseJson(details.value.s).None? ==>
      r == Resolution(defaultValue, Some(PyText.PyStr(defaultValue)), ErrorReason, Some(ParseError))
  {
    if !details.value.Str? then details
    else match parseJson(details.value.s)
      case Some(parsed) => details.(value := parsed)
      case None => Resolution(defaultValue, Some(PyText.PyStr(defaultValue)), ErrorReason, Some(ParseError))
  }

  /** An evaluation context object; `_prepare_context` updates three of its fields in place. */
  class EvaluationContext {
    const identity: nat
    const isHyphen: bool
    var targetingKey: Option<string>
    var attributes: seq<Entry>
    var ipAddress: Option<string>
    var customAttributes: Option<seq<Entry>>
    var user: Option<HyphenUser>
    var application: Option<string>
    var environment: Option<string>

    constructor(identity: nat, fields: ContextValue)
      ensures this.identity == identity && Snapshot() == fields
    {
      this.identity := identity;
      isHyphen := fields.isHyphen;
      targetingKey := fields.targetingKey;
      attributes := fields.attributes;
      ipAddress := fields.ipAddress;
      customAttributes := fields.customAttributes;
      user := fields.user;
      application := fields.application;
      environment := fields.environment;
    }

    /** The fields as a value, as `context.__dict__` gives them. */
    function Snapshot(): ContextValue
      reads this
    {
      ContextValue(isHyphen, targetingKey, attributes, ipAddress, customAttributes, user, application, environment)
    }
  }


  /** What `_get_evaluation` answers once the client has answered or raised. */
  function Answer(evaluated: Result<EvaluationResponse, Client.Error>, flagKey: string, requested: FlagType): (r: Result<Resolution, ResolutionError>)
    ensures evaluated.Failure? ==> r == Failure(ClientFailed(evaluated.error))
    ensures r.Success? ==>
      && evaluated.Success? && flagKey in evaluated.value.toggles
      && evaluated.value.toggles[flagKey].flagType == requested
      && r.value.value == evaluated.value.toggles[flagKey].value
  {
    match evaluated
    case Failure(e) => Failure(ClientFailed(e))
    case Success(response) => Decide(response.toggles, flagKey, requested)
  }

  /** `resolve_integer_details` after `_get_evaluation`: the value goes through `int()`. */
  function IntegerDetails(details: Result<Resolution, ResolutionError>): (r: Result<Resolution, ResolutionError>)
    ensures details.Failure? ==> r == details
    ensures r.Success? <==> details.Success? && ToInt(details.value.value).Some?
    ensures details.Success? && ToInt(details.value.value).None? ==> r == Failure(NotConvertible)
    ensures r.Success? ==> r.value.value.Int? && ToInt(details.value.value) == Some(r.value.value.i)
    ensures r.Success? ==> r.value == details.value.(value := r.value.value)
  {
    match details
    case Failure(_) => details
    case Success(d) =>
      match ToInt(d.value)
      case None => Failure(NotConvertible)
      case Some(i) => Success(d.(value := Int(i)))
  }

  /** `resolve_float_details` after `_get_evaluation`: the value goes through `float()`. */
  function FloatDetails(details: Result<Resolution, ResolutionError>, parseFloat: string -> Option<real>): (r: Result<Resolution, ResolutionError>)
    ensures details.Failure? ==> r == details
    ensures r.Success? <==> details.Success? && ToFloat(details.value.value, parseFloat).Some?
    ensures details.Success? && ToFloat(details.value.value, parseFloat).None? ==> r == Failure(NotConvertible)
    ensures r.Success? ==> r.value.value.Float? && ToFloat(details.value.value, parseFloat) == Some(r.value.value.r)
    ensures r.Success? ==> r.value == details.value.(value := r.value.value)
  {
    match details
    case Failure(_) => details
    case Success(d) =>
      match ToFloat(d.value, parseFloat)
      case None => Failure(NotConvertible)
      case Some(x) => Success(d.(value := Float(x)))
  }

  /** `resolve_object_details` after `_get_evaluation`: a parse failure is a resolution, not an error. */
  function ObjectDetails(details: Result<Resolution, ResolutionError>, defaultValue: Value, parseJson: string -> Option<Value>): (r: Result<Resolution, ResolutionError>)
    ensures details.Failure? ==> r == details
    ensures r.Success? <==> details.Success?
    ensures details.Success? ==> r.value == ObjectValue(details.value, defaultValue, parseJson)
  {
    match details
    case Failure(_) => details
    case Success(d) => Success(ObjectValue(d, defaultValue, parseJson))
  }

  /** An integer flag keeps its resolution unchanged through `int()`. */
  lemma IntegerFlagUnchanged(toggles: map<string, Evaluation>, flagKey: string)
    requires flagKey in toggles && toggles[flagKey].value.Int?
    ensures IntegerDetails(Decide(toggles, flagKey, NumberType)) == Decide(toggles, flagKey, NumberType)
  {
  }

  /** A negative float flag read as an integer is truncated toward zero: -2.5 gives -2. */
  lemma FloatFlagTruncatedTowardZero(toggles: map<string, Evaluation>, flagKey: string)
    requires Decide(toggles, flagKey, NumberType).Success?
    requires toggles[flagKey].value == Float(-2.5)
    ensures IntegerDetails(Decide(toggles, flagKey, NumberType)).Success?
    ensures IntegerDetails(Decide(toggles, flagKey, NumberType)).value.value == Int(-2)
  {
  }

  /** The fields `_get_evaluation` starts from: the given context's, or those of a new empty context. */
  function InputFields(context: EvaluationContext?): ContextValue
    reads context
  {
    if context == null then EmptyContext else context.Snapshot()
  }

  /** `id()` of the context `_get_evaluation` works on. */
  function InputIdentity(context: EvaluationContext?, freshIdentity: nat): nat {
    if context == null then freshIdentity else context.identity
  }

  class HyphenProvider {
    const options: HyphenProviderOptions
    const client: Client.HyphenClient

    constructor(publicKey: string, options: HyphenProviderOptions, cacheKey: ContextValue -> string)
      requires ValidateOptions(options) == None
      ensures this.options == options
      ensures fresh(client) && fresh(client.cache) && client.cache.entries == map[]
      ensures client.horizonUrls == Client.HorizonUrls(publicKey, options)
      ensures client.cache.ttlSeconds == Client.CacheTtl(options.cacheTtlSeconds) && client.cache.keyOf == cacheKey
    {
      this.options := options;
      client := new Client.HyphenClient(publicKey, options, cacheKey);
    }

    /** The constructor with its checks: the options error it raises, or a new provider. */
    static method Create(publicKey: string, options: HyphenProviderOptions, cacheKey: ContextValue -> string)
      returns (r: Result<HyphenProvider, ConfigError>)
      ensures ValidateOptions(options).Some? ==> r == Failure(ValidateOptions(options).value)
      ensures ValidateOptions(options).None? ==> r.Success? && fresh(r.value) && r.value.options == options
    {
      var invalid := ValidateOptions(options);
      if invalid.Some? {
        return Failure(invalid.value);
      }
      var provider := new HyphenProvider(publicKey, options, cacheKey);
      return Success(provider);
    }

    /** `get_provider_hooks`: the telemetry hook when usage telemetry is enabled, else none. */
    method GetProviderHooks() returns (hooks: seq<Hook>)
      ensures options.enableToggleUsage ==> hooks == [TelemetryHook]
      ensures !options.enableToggleUsage ==> hooks == []
    {
      hooks := [];
      if options.enableToggleUsage {
        hooks := hooks + [TelemetryHook];
      }
    }

    /**
      What `_get_evaluation` answers for a context with these fields and this
      identity, and the cache it leaves behind.
     */
    function EvaluationSpec(flagKey: string, fields: ContextValue, identity: nat, requested: FlagType, now: int, network: seq<Client.Reply>)
      : (Result<Resolution, ResolutionError>, Client.Entries)
      reads client.cache
      requires |client.horizonUrls| <= |network|
    {
      var prepared := Prepared(fields, identity, options);
      var evaluated := Client.EvaluateSpec(client.cache.entries, client.cache.keyOf(prepared), client.cache.ttlSeconds, now,
                                           Client.Builds(client.horizonUrls, Client.EvaluatePath), network);
      (Answer(evaluated.result, flagKey, requested), evaluated.entries)
    }

    /**
      `_prepare_context`: a missing context becomes a new empty one; the
      context's targeting key, application and environment are then set.
     */
    method PrepareContext(context: EvaluationContext?, freshIdentity: nat) returns (prepared: EvaluationContext)
      modifies context
      ensures context != null ==> prepared == context
      ensures context == null ==> fresh(prepared)
      ensures prepared.identity == InputIdentity(context, freshIdentity)
      ensures prepared.Snapshot() == Prepared(old(InputFields(context)), prepared.identity, options)
    {
      if context == null {
        prepared := new EvaluationContext(freshIdentity, EmptyContext);
      } else {
        prepared := context;
      }
      var targetingKey := TargetingKey(prepared.Snapshot(), prepared.identity, options);
      prepared.targetingKey := Some(targetingKey);
      prepared.application := Some(options.application);
      prepared.environment := Some(options.environment);
    }

    /**
      `_get_evaluation`: prepares the context, evaluates it with the client
      and decides on the requested flag.
     */
    method GetEvaluation(flagKey: string, context: EvaluationContext?, requested: FlagType, freshIdentity: nat, now: int, network: seq<Client.Reply>)
      returns (r: Result<Resolution, ResolutionError>)
      requires |client.horizonUrls| <= |network|
      modifies context, client.cache
      ensures context != null ==> context.Snapshot() == Prepared(old(context.Snapshot()), context.identity, options)
      ensures (r, client.cache.entries)
        == old(EvaluationSpec(flagKey, InputFields(context), InputIdentity(context, freshIdentity), requested, now, network))
    {
      var prepared := PrepareContext(context, freshIdentity);
      var response, _ := client.Evaluate(prepared.Snapshot(), now, network);
      r := Answer(response, flagKey, requested);
    }

    method ResolveBooleanDetails(flagKey: string, defaultValue: bool, context: EvaluationContext?, freshIdentity: nat, now: int, network: seq<Client.Reply>)
      returns (r: Result<Resolution, ResolutionError>)
      requires |client.horizonUrls| <= |network|
      modifies context, client.cache
      ensures context != null ==> context.Snapshot() == Prepared(old(context.Snapshot()), context.identity, options)
      ensures (r, client.cache.entries)
        == old(EvaluationSpec(flagKey, InputFields(context), InputIdentity(context, freshIdentity), BooleanType, now, network))
    {
      r := GetEvaluation(flagKey, context, BooleanType, freshIdentity, now, network);
    }

    method ResolveStringDetails(flagKey: string, defaultValue: string, context: EvaluationContext?, freshIdentity: nat, now: int, network: seq<Client.Reply>)
      returns (r: Result<Resolution, ResolutionError>)
      requires |client.horizonUrls| <= |network|
      modifies context, client.cache
      ensures context != null ==> context.Snapshot() == Prepared(old(context.Snapshot()), context.identity, options)
      ensures (r, client.cache.entries)
        == old(EvaluationSpec(flagKey, InputFields(context), InputIdentity(context, freshIdentity), StringType, now, network))
    {
      r := GetEvaluation(flagKey, context, StringType, freshIdentity, now, network);
    }

    method ResolveIntegerDetails(flagKey: string, defaultValue: int, context: EvaluationContext?, freshIdentity: nat, now: int, network: seq<Client.Reply>)
      returns (r: Result<Resolution, ResolutionError>)
      requires |client.horizonUrls| <= |network|
      modifies context, client.cache
      ensures context != null ==> context.Snapshot() == Prepared(old(context.Snapshot()), context.identity, options)
      ensures var spec := old(EvaluationSpec(flagKey, InputFields(context), InputIdentity(context, freshIdentity), NumberType, now, network));
        r == IntegerDetails(spec.0) && client.cache.entries == spec.1
    {
      var details := GetEvaluation(flagKey, context, NumberType, freshIdentity, now, network);
      r := IntegerDetails(details);
    }

    method ResolveFloatDetails(flagKey: string, defaultValue: real, context: EvaluationContext?, freshIdentity: nat, now: int, network: seq<Client.Reply>,
                               parseFloat: string -> Option<real>)
      returns (r: Result<Resolution, ResolutionError>)
      requires |client.horizonUrls| <= |network|
      modifies context, client.cache
      ensures context != null ==> context.Snapshot() == Prepared(old(context.Snapshot()), context.identity, options)
      ensures var spec := old(EvaluationSpec(flagKey, InputFields(context), InputIdentity(context, freshIdentity), NumberType, now, network));
        r == FloatDetails(spec.0, parseFloat) && client.cache.entries == spec.1
    {
      var details := GetEvaluation(flagKey, context, NumberType, freshIdentity, now, network);
      r := FloatDetails(details, parseFloat);
    }

    method ResolveObjectDetails(flagKey: string, defaultValue: Value, context: EvaluationContext?, freshIdentity: nat, now: int, network: seq<Client.Reply>,
                                parseJson: string -> Option<Value>)
      returns (r: Result<Resolution, ResolutionError>)
      requires |client.horizonUrls| <= |network|
      modifies context, client.cache
      ensures context != null ==> context.Snapshot() == Prepared(old(context.Snapshot()), context.identity, options)
      ensures var spec := old(EvaluationSpec(flagKey, InputFields(context), InputIdentity(context, freshIdentity), ObjectType, now, network));
        r == ObjectDetails(spec.0, defaultValue, parseJson) && client.cache.entries == spec.1
    {
      var details := GetEvaluation(flagKey, context, ObjectType, freshIdentity, now, network);
      r := ObjectDetails(details, defaultValue, parseJson);
    }
  }
}
