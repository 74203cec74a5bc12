/**
 * The error handling utility: classifying a thrown value into an
 * application error with a code, a user message and a recoverable flag;
 * the display options chosen for it; required-field validation; and retry
 * with exponential backoff, where the operation's outcomes are an input and
 * the waits are returned as a list.
 */
module ErrorHandler {
  import opened Wrappers
  import opened Strings
  import opened Seqs

  /** The entries of `ErrorCodes`. */
  datatype ErrorCode =
    | NetworkError | ApiTimeout | Unauthorized | ValidationError | MissingData
    | GenerationFailed | AiError | FileSystemError | DiskFull | GithubError | UnknownError

  function CodeName(c: ErrorCode): string {
    match c
    case NetworkError => "NETWORK_ERROR"
    case ApiTimeout => "API_TIMEOUT"
    case Unauthorized => "UNAUTHORIZED"
    case ValidationError => "VALIDATION_ERROR"
    case MissingData => "MISSING_DATA"
    case GenerationFailed => "GENERATION_FAILED"
    case AiError => "AI_ERROR"
    case FileSystemError => "FILE_SYSTEM_ERROR"
    case DiskFull => "DISK_FULL"
    case GithubError => "GITHUB_ERROR"
    case UnknownError => "UNKNOWN_ERROR"
  }

  function UserMessage(c: ErrorCode): string {
    match c
    case NetworkError => "Network connection failed. Please check your internet connection and try again."
    case ApiTimeout => "Request timed out. The server is taking too long to respond. Please try again."
    case Unauthorized => "You are not authorized to perform this action. Please refresh the page and try again."
    case ValidationError => "Some fields are missing or invalid. Please check your input and try again."
    case MissingData => "Required data is missing. Please complete all required steps."
    case GenerationFailed => "Failed to generate project. Please try again or contact support if the problem persists."
    case AiError => "AI service error. The AI is temporarily unavailable. Please try again in a moment."
    case FileSystemError => "Failed to create or access files. Please check permissions and try again."
    case DiskFull => "Not enough disk space. Please free up some space and try again."
    case GithubError => "Failed to push to GitHub. Please check your credentials and try again."
    case UnknownError => "An unexpected error occurred. Please try again or contact support."
  }

  /** Distinct entries have distinct code strings. */
  lemma CodeNameInjective(a: ErrorCode, b: ErrorCode)
    ensures CodeName(a) == CodeName(b) ==> a == b
  {
  }

  /** An `ApplicationError`; `details` is left out. */
  datatype AppError = AppError(code: string, message: string, userMessage: string, recoverable: bool)

  /** A thrown value: an `ApplicationError`, another `Error` (noting whether it is a `TypeError`), or any other value with its `String(...)` text. */
  datatype Thrown =
    | AppThrown(error: AppError)
    | ErrorThrown(isTypeError: bool, message: string)
    | OtherThrown(text: string)

  /** The classification of an `Error`: the first rule that matches wins, and the keyword tests are case-sensitive. */
  function Classify(isTypeError: bool, message: string): (c: ErrorCode)
    ensures c in {NetworkError, ApiTimeout, Unauthorized, DiskFull, UnknownError}
    ensures c == NetworkError ==> isTypeError
  {
    if isTypeError && Contains(message, "fetch") then NetworkError
    else if Contains(message, "timeout") then ApiTimeout
    else if Contains(message, "unauthorized") || Contains(message, "401") then Unauthorized
    else if Contains(message, "ENOSPC") then DiskFull
    else UnknownError
  }

  /** Only an authorization failure and a full disk are not worth retrying. */
  predicate Recoverable(c: ErrorCode) {
    c != Unauthorized && c != DiskFull
  }

  function Make(c: ErrorCode, message: string): (e: AppError)
    ensures e.code == CodeName(c) && e.message == message && e.userMessage == UserMessage(c)
    ensures e.recoverable == Recoverable(c)
  {
    AppError(CodeName(c), message, UserMessage(c), Recoverable(c))
  }

  /** `handleError`; the context string only goes to the log. */
  function HandleError(t: Thrown): (r: AppError)
    ensures t.AppThrown? ==> r == t.error
    ensures t.ErrorThrown? ==> r == Make(Classify(t.isTypeError, t.message), t.message)
    ensures t.OtherThrown? ==> r == Make(UnknownError, t.text)
  {
    match t
    case AppThrown(e) => e
    case ErrorThrown(isTypeError, message) => Make(Classify(isTypeError, message), message)
    case OtherThrown(text) => Make(UnknownError, text)
  }

  /** "fetch" only signals a network failure on a `TypeError`. */
  lemma FetchNeedsTypeError()
    ensures Classify(true, "fetch") == NetworkError
    ensures Classify(false, "fetch") == UnknownError
  {
    ContainsAt("fetch", "fetch", 0);
    ContainsShorter("fetch", "timeout");
    ContainsShorter("fetch", "unauthorized");
    ContainsShorter("fetch", "ENOSPC");
    ContainsFirstChar("fetch", "401");
  }

  /** The timeout rule comes before the authorization rule. */
  lemma TimeoutBeforeUnauthorized()
    ensures Classify(false, "401 timeout") == ApiTimeout
    ensures Make(ApiTimeout, "401 timeout").recoverable
  {
    ContainsAt("401 timeout", "timeout", 4);
  }

  /** A message with "401" is an authorization failure and is not recoverable. */
  lemma Status401NotRecoverable()
    ensures Classify(false, "401") == Unauthorized
    ensures !HandleError(ErrorThrown(false, "401")).recoverable
  {
    ContainsAt("401", "401", 0);
    ContainsShorter("401", "timeout");
  }

  // ---------------------------------------------------------------------
  // displayError

  /** The options handed to the notification: how long it stays and whether it carries a Retry action. */
  datatype DisplayOptions = DisplayOptions(duration: int, retryAction: bool)

  function DisplayErrorOptions(e: AppError, hasRetryCallback: bool): (o: DisplayOptions)
    ensures o.retryAction ==> hasRetryCallback && e.recoverable
    ensures hasRetryCallback && e.recoverable ==> o.retryAction
  {
    DisplayOptions(if e.recoverable then 0 else 10000, e.recoverable && hasRetryCallback)
  }

  /**
   * A Retry action only appears on a notification that stays until it is
   * dismissed; an error that cannot be retried closes after ten seconds.
   */
  lemma RetryOnlyOnPersistent(e: AppError, hasRetryCallback: bool)
    ensures var o := DisplayErrorOptions(e, hasRetryCallback);
      (o.retryAction ==> o.duration == 0) && (!e.recoverable ==> o.duration == 10000 && !o.retryAction)
  {
  }

  // ---------------------------------------------------------------------
  // validateRequired

  /** A field value as JavaScript sees it; an absent key reads as `undefined`. */
  datatype Value = Str(s: string) | Num(n: int) | Bool(b: bool) | Null | Obj

  predicate IsTruthy(v: Option<Value>) {
    match v
    case None => false
    case Some(Str(s)) => s != ""
    case Some(Num(n)) => n != 0
    case Some(Bool(b)) => b
    case Some(Null) => false
    case Some(Obj) => true
  }

  /** Falsy, or a string of nothing but whitespace. */
  predicate IsMissing(v: Option<Value>) {
    !IsTruthy(v) || (v.value.Str? && Trim(v.value.s) == "")
  }

  function Lookup(data: map<string, Value>, field: string): Option<Value> {
    if field in data then Some(data[field]) else None
  }

  function MissingFields(data: map<string, Value>, fields: seq<string>): seq<string> {
    Filter(fields, f => IsMissing(Lookup(data, f)))
  }

  method ValidateRequired(data: map<string, Value>, fields: seq<string>) returns (valid: bool, missing: seq<string>)
    ensures missing == MissingFields(data, fields)
    ensures valid <==> missing == []
  {
    missing := [];
    for i := 0 to |fields|
      invariant missing == MissingFields(data, fields[..i])
    {
      var field := fields[i];
      FilterAppend(fields[..i], [field], f => IsMissing(Lookup(data, f)));
      assert fields[..i + 1] == fields[..i] + [field];
      if IsMissing(Lookup(data, field)) {
        missing := missing + [field];
      }
    }
    assert fields[..|fields|] == fields;
    valid := |missing| == 0;
  }

  /**
   * The missing list names exactly the required fields that are missing, in
   * the order they were asked for; validation passes exactly when none is.
   */
  lemma MissingFieldsExact(data: map<string, Value>, fields: seq<string>)
    ensures forall f :: f in MissingFields(data, fields) <==> f in fields && IsMissing(Lookup(data, f))
    ensures IsSubsequence(MissingFields(data, fields), fields)
    ensures MissingFields(data, fields) == [] <==> forall i :: 0 <= i < |fields| ==> !IsMissing(Lookup(data, fields[i]))
  {
    FilterIsSubsequence(fields, f => IsMissing(Lookup(data, f)));
    if MissingFields(data, fields) == [] {
      forall i | 0 <= i < |fields|
        ensures !IsMissing(Lookup(data, fields[i]))
      {

      }
    }
  }

  /** A blank string counts as missing, as does an absent key. */
  lemma BlankIsMissing(data: map<string, Value>, field: string)
    requires field !in data || (data[field].Str? && forall i :: 0 <= i < |data[field].s| ==> IsSpace(data[field].s[i]))
    ensures IsMissing(Lookup(data, field))
  {
    if field in data && data[field].s != "" {
      var s := data[field].s;
      var a := TrimStart(s);
      TrimStartSuffix(s);

    }
  }

  // ---------------------------------------------------------------------
  // retryWithBackoff

  /** What one call of the operation does. */
  datatype Outcome<T> = Succeeded(value: T) | Failed(thrown: Thrown)

  datatype RetryResult<T> = Returned(value: T) | Rethrown(error: Thrown)

  /** `Math.pow(2, n)` for a whole exponent. */
  function Pow2(n: nat): (p: nat)
    ensures p >= 1
  {
    if n == 0 then 1 else 2 * Pow2(n - 1)
  }

  /** The error kept after a failure: an `Error` as it is, anything else wrapped as `new Error(String(value))`. */
  function AsError(t: Thrown): (e: Thrown)
    ensures !e.OtherThrown?
    ensures !t.OtherThrown? ==> e == t
  {
    if t.OtherThrown? then ErrorThrown(false, t.text) else t
  }

  const NoAttemptError: Thrown := ErrorThrown(false, "Operation failed after retries")

  /**
   * Calls `op(0)`, `op(1)`, ... (the outcome of each call is an input) until
   * one succeeds or `maxRetries` calls have failed, waiting
   * `baseDelay * 2^attempt` between attempts; `delays` lists those waits.
   */
  method RetryWithBackoff<T>(op: nat -> Outcome<T>, maxRetries: int, baseDelay: int)
    returns (result: RetryResult<T>, calls: nat, delays: seq<int>)
    ensures calls <= (if maxRetries < 0 then 0 else maxRetries)
    ensures forall j :: 0 <= j < calls && j + 1 < calls ==> op(j).Failed?
    ensures result.Returned? ==> calls >= 1 && op(calls - 1) == Succeeded(result.value)
    ensures result.Rethrown? ==> calls == (if maxRetries < 0 then 0 else maxRetries) && forall j :: 0 <= j < calls ==> op(j).Failed?
    ensures result.Rethrown? && calls > 0 ==> result.error == AsError(op(calls - 1).thrown)
    ensures calls == 0 ==> result == Rethrown(NoAttemptError)
    ensures |delays| == (if calls == 0 then 0 else calls - 1)
    ensures forall i :: 0 <= i < |delays| ==> delays[i] == baseDelay * Pow2(i)
  {
    var lastError: Option<Thrown> := None;
    var attempt := 0;
    delays := [];
    while attempt < maxRetries
      invariant 0 <= attempt <= (if maxRetries < 0 then 0 else maxRetries)
      invariant forall j :: 0 <= j < attempt ==> op(j).Failed?
      invariant attempt == 0 <==> lastError.None?
      invariant attempt > 0 ==> lastError == Some(AsError(op(attempt - 1).thrown))
      invariant |delays| == (if attempt == 0 then 0 else if attempt < maxRetries then attempt else attempt - 1)
      invariant forall i :: 0 <= i < |delays| ==> delays[i] == baseDelay * Pow2(i)
    {
      var outcome := op(attempt);
      if outcome.Succeeded? {
        return Returned(outcome.value), attempt + 1, delays;
      }
      lastError := Some(AsError(outcome.thrown));
      if attempt < maxRetries - 1 {
        delays := delays + [baseDelay * Pow2(attempt)];
      }
      attempt := attempt + 1;
    }
    calls := attempt;
    result := Rethrown(lastError.GetOr(NoAttemptError));
  }
}
