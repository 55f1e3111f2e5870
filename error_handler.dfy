/**
 * Classifying a failure into one of the coach's error kinds, and the fixed message the user
 * sees for each kind.
 */
module ErrorHandler {
  import opened Wrappers
  import opened Strings

  /** `WhoopCoachErrorType`. */
  datatype ErrorType =
    | ApiKeyMissing
    | ApiConnectionFailed
    | ApiRateLimit
    | ApiAuthenticationError
    | ApiServerError
    | ApiBadRequest
    | PromptLoadError
    | UserDataLoadError
    | ContextGenerationError
    | ResponseParsingError
    | UnknownError

  /**
   * What can be thrown. An API error from the client library carries an HTTP status (absent for
   * connection failures) and a message; any other `Error` carries a message; anything else may
   * or may not have a string `message` property and renders as some string.
   */
  datatype Failure =
    | ApiError(status: Option<int>, message: string)
    | PlainError(message: string)
    | Other(messageProperty: Option<string>, rendered: string)
  {
    /** `error.message` when it is a string. */
    function Message(): (r: Option<string>)
      ensures this.Other? ==> r == this.messageProperty
      ensures !this.Other? ==> r == Some(this.message)
    {
      if this.Other? then messageProperty else Some(message)
    }

    /** `error instanceof Error ? error.message : String(error)`. */
    function Details(): (r: string)
      ensures this.Other? ==> r == this.rendered
      ensures !this.Other? ==> r == this.message
    {
      if this.Other? then rendered else message
    }
  }

  /** `UserFriendlyError`; `details` is always filled in by `handleGenericError`. */
  datatype UserFriendlyError = UserFriendlyError(errorType: ErrorType, message: string, details: string)

  const KeyMissingPattern: string := "OpenAI API key is not configured"
  const PromptLoadPattern: string := "Failed to load base system prompt"
  const UserDataPattern: string := "Failed to load or parse user data"
  const MissingFieldsPattern: string := "User data is missing persona or daily_metrics"
  const ContextPattern: string := "context message"
  const FetchPattern: string := "fetch"
  const NetworkPattern: string := "network"
  const CompletionPattern: string := "failed to get chat completion"

  /** The kind an API status decides on its own, if any. */
  function StatusKind(status: int): (r: Option<ErrorType>)
    ensures r.Some? <==> status in {400, 401, 403, 429} || 500 <= status < 600
  {
    if status == 401 || status == 403 then Some(ApiAuthenticationError)
    else if status == 429 then Some(ApiRateLimit)
    else if status == 400 then Some(ApiBadRequest)
    else if 500 <= status < 600 then Some(ApiServerError)
    else None
  }

  /** The connection check, the only one made on the lower-cased message. */
  predicate IsConnectionMessage(m: string) {
    var lower := ToLower(m);
    Contains(lower, FetchPattern) || Contains(lower, NetworkPattern) || Contains(lower, CompletionPattern)
  }

  /** The message checks of `categorizeError`, in the order the source makes them. */
  function CategorizeMessage(m: string): ErrorType {
    if Contains(m, KeyMissingPattern) then ApiKeyMissing
    else if Contains(m, PromptLoadPattern) then PromptLoadError
    else if Contains(m, UserDataPattern) then UserDataLoadError
    else if Contains(m, MissingFieldsPattern) then UserDataLoadError
    else if Contains(m, ContextPattern) then ContextGenerationError
    else if IsConnectionMessage(m) then ApiConnectionFailed
    else UnknownError
  }

  /** `categorizeError`: the status first for API errors, then the message, else unknown. */
  function CategorizeError(error: Failure): (r: ErrorType)
    ensures r != ResponseParsingError
  {
    if error.ApiError? && error.status.Some? && StatusKind(error.status.value).Some? then
      StatusKind(error.status.value).value
    else if error.Message().Some? then
      CategorizeMessage(error.Message().value)
    else
      UnknownError
  }

  // ---------------------------------------------------------------- a reference table

  /** One message check: a substring, whether it is looked for in the lower-cased message, and its kind. */
  datatype Rule = Rule(pattern: string, lowerCase: bool, kind: ErrorType)

  predicate Matches(rule: Rule, m: string) {
    Contains(if rule.lowerCase then ToLower(m) else m, rule.pattern)
  }

  /** The message checks as a table, most important first. */
  const MessageRules: seq<Rule> := [
    Rule(KeyMissingPattern, false, ApiKeyMissing),
    Rule(PromptLoadPattern, false, PromptLoadError),
    Rule(UserDataPattern, false, UserDataLoadError),
    Rule(MissingFieldsPattern, false, UserDataLoadError),
    Rule(ContextPattern, false, ContextGenerationError),
    Rule(FetchPattern, true, ApiConnectionFailed),
    Rule(NetworkPattern, true, ApiConnectionFailed),
    Rule(CompletionPattern, true, ApiConnectionFailed)
  ]

  /** The kind of the first rule at or after position `i` that matches, or unknown when none does. */
  function FirstMatch(rules: seq<Rule>, m: string, i: nat): (r: ErrorType)
    ensures r == UnknownError || exists j :: i <= j < |rules| && rules[j].kind == r
    decreases |rules| - i
  {
    if i >= |rules| then UnknownError
    else if Matches(rules[i], m) then rules[i].kind
    else FirstMatch(rules, m, i + 1)
  }

  /** `FirstMatch` picks the earliest matching rule. */
  lemma {:induction false} FirstMatchSpec(rules: seq<Rule>, m: string, i: nat, k: nat)
    requires i <= k < |rules| && Matches(rules[k], m)
    requires forall j :: i <= j < k ==> !Matches(rules[j], m)
    ensures FirstMatch(rules, m, i) == rules[k].kind
    decreases k - i
  {
    if i < k {
      assert !Matches(rules[i], m);
      FirstMatchSpec(rules, m, i + 1, k);
    }
  }

  /** When no rule matches, the result is unknown. */
  lemma {:induction false} FirstMatchNone(rules: seq<Rule>, m: string, i: nat)
    requires forall j :: i <= j < |rules| ==> !Matches(rules[j], m)
    ensures FirstMatch(rules, m, i) == UnknownError
    decreases |rules| - i
  {
    if i < |rules| {
      assert !Matches(rules[i], m);
      FirstMatchNone(rules, m, i + 1);
    }
  }

  /** The if-chain of the source is the first-match reading of the rule table. */
  lemma CategorizeMessageIsFirstMatch(m: string)
    ensures CategorizeMessage(m) == FirstMatch(MessageRules, m, 0)
  {
    var rs := MessageRules;
    var lower := ToLower(m);
    assert FirstMatch(rs, m, 8) == UnknownError;
    assert FirstMatch(rs, m, 7) == if Contains(lower, CompletionPattern) then ApiConnectionFailed else UnknownError by {
      assert rs[7] == Rule(CompletionPattern, true, ApiConnectionFailed);
    }
    assert FirstMatch(rs, m, 6) == if Contains(lower, NetworkPattern) then ApiConnectionFailed else FirstMatch(rs, m, 7) by {
      assert rs[6] == Rule(NetworkPattern, true, ApiConnectionFailed);
    }
    assert FirstMatch(rs, m, 5) == if Contains(lower, FetchPattern) then ApiConnectionFailed else FirstMatch(rs, m, 6) by {
      assert rs[5] == Rule(FetchPattern, true, ApiConnectionFailed);
    }
    assert FirstMatch(rs, m, 4) == if Contains(m, ContextPattern) then ContextGenerationError else FirstMatch(rs, m, 5) by {
      assert rs[4] == Rule(ContextPattern, false, ContextGenerationError);
    }
    assert FirstMatch(rs, m, 3) == if Contains(m, MissingFieldsPattern) then UserDataLoadError else FirstMatch(rs, m, 4) by {
      assert rs[3] == Rule(MissingFieldsPattern, false, UserDataLoadError);
    }
    assert FirstMatch(rs, m, 2) == if Contains(m, UserDataPattern) then UserDataLoadError else FirstMatch(rs, m, 3) by {
      assert rs[2] == Rule(UserDataPattern, false, UserDataLoadError);
    }
    assert FirstMatch(rs, m, 1) == if Contains(m, PromptLoadPattern) then PromptLoadError else FirstMatch(rs, m, 2) by {
      assert rs[1] == Rule(PromptLoadPattern, false, PromptLoadError);
    }
    assert FirstMatch(rs, m, 0) == if Contains(m, KeyMissingPattern) then ApiKeyMissing else FirstMatch(rs, m, 1) by {
      assert rs[0] == Rule(KeyMissingPattern, false, ApiKeyMissing);
    }
  }

  // ---------------------------------------------------------------- properties

  /** An API error whose status is decisive is classified by the status alone, whatever its message. */
  lemma StatusDecides(status: int, m: string)
    ensures status == 401 || status == 403 ==> CategorizeError(ApiError(Some(status), m)) == ApiAuthenticationError
    ensures status == 429 ==> CategorizeError(ApiError(Some(status), m)) == ApiRateLimit
    ensures status == 400 ==> CategorizeError(ApiError(Some(status), m)) == ApiBadRequest
    ensures 500 <= status < 600 ==> CategorizeError(ApiError(Some(status), m)) == ApiServerError
  {
  }

  /** Any other status, or none, falls through to the message, exactly as a plain error with that message. */
  lemma OtherStatusFallsThrough(status: Option<int>, m: string)
    requires status.None? || StatusKind(status.value).None?
    ensures CategorizeError(ApiError(status, m)) == CategorizeError(PlainError(m)) == CategorizeMessage(m)
  {
  }

  /** Without a string message, and without a decisive status, the error is unknown. */
  lemma NoMessageIsUnknown(rendered: string)
    ensures CategorizeError(Other(None, rendered)) == UnknownError
  {
  }

  /** A missing-key message wins over every other pattern it may also contain. */
  lemma KeyMissingWins(m: string)
    requires Contains(m, KeyMissingPattern)
    ensures CategorizeMessage(m) == ApiKeyMissing
  {
  }

  /**
   * The message checks are ordered: a message that mentions the context message and also looks
   * like a connection failure is a context-generation error.
   */
  lemma ContextBeforeConnection(m: string)
    requires !Contains(m, KeyMissingPattern) && !Contains(m, PromptLoadPattern)
    requires !Contains(m, UserDataPattern) && !Contains(m, MissingFieldsPattern)
    requires Contains(m, ContextPattern) && IsConnectionMessage(m)
    ensures CategorizeMessage(m) == ContextGenerationError
  {
    CategorizeMessageIsFirstMatch(m);
    assert Matches(MessageRules[4], m);
    FirstMatchSpec(MessageRules, m, 0, 4);
  }

  /**
   * Only the connection check ignores case: two messages that agree after lower-casing and match
   * none of the case-sensitive patterns are classified alike.
   */
  lemma ConnectionIgnoresCase(m1: string, m2: string)
    requires ToLower(m1) == ToLower(m2)
    requires forall k :: 0 <= k < 5 ==> !Matches(MessageRules[k], m1) && !Matches(MessageRules[k], m2)
    ensures CategorizeMessage(m1) == CategorizeMessage(m2)
    ensures CategorizeMessage(m1) == ApiConnectionFailed || CategorizeMessage(m1) == UnknownError
  {
    assert !Matches(MessageRules[0], m1) && !Matches(MessageRules[0], m2);
    assert !Matches(MessageRules[1], m1) && !Matches(MessageRules[1], m2);
    assert !Matches(MessageRules[2], m1) && !Matches(MessageRules[2], m2);
    assert !Matches(MessageRules[3], m1) && !Matches(MessageRules[3], m2);
    assert !Matches(MessageRules[4], m1) && !Matches(MessageRules[4], m2);
  }

  /** The case-sensitive checks do see case: the lower-cased missing-key text is not a missing-key error. */
  lemma KeyMissingIsCaseSensitive()
    ensures !Contains("openai api key is not configured", KeyMissingPattern)
  {
    NotContainsMissingChar("openai api key is not configured", KeyMissingPattern, 'O');
  }

  // ---------------------------------------------------------------- user messages

  /** The message shown when no kind has its own. */
  const DefaultMessage: string := "I'm having a little trouble connecting right now. Please try again in a moment."
  const ConfigurationMessage: string := "There's an issue with the application configuration. Please contact support."
  const AuthenticationMessage: string := "Could not authenticate with the AI service. Please check configuration or contact support."
  const RateLimitMessage: string := "I'm experiencing high demand. Please try again in a few minutes."
  const ServerMessage: string := "The AI service is temporarily unavailable. Please try again later."
  const BadRequestMessage: string := "There was an issue with the request to the AI service. If this persists, contact support."
  /** The message shown for the three kinds about loading the coach's information. */
  const DataAccessMessage: string := "I'm having trouble accessing necessary information. Please try again or contact support."
  const ParsingMessage: string := "I received a response, but I'm having trouble understanding it. Could you try rephrasing?"
  const UnexpectedMessage: string := "An unexpected issue occurred. Please try again. If it continues, contact support."

  /** The `switch` of `handleGenericError`; the connection kind has no case and keeps the default. */
  function UserMessage(t: ErrorType): string {
    match t
    case ApiKeyMissing => ConfigurationMessage
    case ApiAuthenticationError => AuthenticationMessage
    case ApiRateLimit => RateLimitMessage
    case ApiServerError => ServerMessage
    case ApiBadRequest => BadRequestMessage
    case PromptLoadError | UserDataLoadError | ContextGenerationError => DataAccessMessage
    case ResponseParsingError => ParsingMessage
    case UnknownError => UnexpectedMessage
    case ApiConnectionFailed => DefaultMessage
  }

  /** The kinds that share the data-access message. */
  predicate IsDataKind(t: ErrorType) {
    t == PromptLoadError || t == UserDataLoadError || t == ContextGenerationError
  }

  /** The lengths and two last characters that tell the messages apart. */
  lemma MessageShapes()
    ensures |DefaultMessage| == 79 && |ConfigurationMessage| == 76 && |AuthenticationMessage| == 90
    ensures |RateLimitMessage| == 64 && |ServerMessage| == 66 && |BadRequestMessage| == 89
    ensures |DataAccessMessage| == 88 && |ParsingMessage| == 89 && |UnexpectedMessage| == 81
    ensures BadRequestMessage[88] == '.' && ParsingMessage[88] == '?'
  {
  }

  /** Two kinds show the same message exactly when they are the same kind or both about loading data. */
  lemma UserMessageDistinguishes(a: ErrorType, b: ErrorType)
    ensures UserMessage(a) == UserMessage(b) <==> a == b || (IsDataKind(a) && IsDataKind(b))
  {
    MessageShapes();
  }

  /** The connection kind, which has no case of its own, is the only kind shown the default text. */
  lemma OnlyConnectionGetsDefault(a: ErrorType)
    ensures UserMessage(a) == DefaultMessage <==> a == ApiConnectionFailed
  {
    MessageShapes();
  }

  /** `handleGenericError`: the kind, the user-facing message for it, and the details. */
  function HandleGenericError(error: Failure): (r: UserFriendlyError)
    ensures r.errorType == CategorizeError(error)
    ensures r.message == UserMessage(r.errorType)
    ensures r.details == error.Details()
    ensures r.errorType != ResponseParsingError
  {
    var errorType := CategorizeError(error);
    UserFriendlyError(errorType, UserMessage(errorType), error.Details())
  }
}
