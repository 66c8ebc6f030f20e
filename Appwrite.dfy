/** Error normalisation and the error/null contract of the authentication
    service wrapper. Each remote call is an outcome passed in as a value. */
module Appwrite {
  import opened Wrappers

  /** The shape the normaliser reads off a thrown value: an optional numeric
      `code`, an optional `type` tag and a `message` (absent reads as ""). */
  datatype AppwriteError = AppwriteError(code: Option<int>, tag: Option<string>, message: string)

  const InvalidCredentials := "Invalid credentials. Please check your email and password."
  const AccountExists := "An account with this email already exists."
  const TooManyRequests := "Too many requests. Please try again later."
  const InvalidEmailOrPassword := "Invalid email or password."
  const PasswordIncorrect := "Password is incorrect."
  const Unexpected := "An unexpected error occurred."

  /** The fixed messages the normaliser can produce on its own. */
  const FixedMessages: set<string> :=
    {InvalidCredentials, AccountExists, TooManyRequests, InvalidEmailOrPassword, PasswordIncorrect, Unexpected}

  /** `new Error(message)`: no code, no type tag. */
  function PlainError(message: string): (e: AppwriteError)
    ensures e.code.None? && e.tag.None? && e.message == message
  {
    AppwriteError(None, None, message)
  }

  /** `handleAppwriteError`: numeric codes first, then type tags, then the
      error's own message, then the generic fallback. */
  function HandleAppwriteError(e: AppwriteError): (msg: string)
    ensures msg != ""
    ensures msg in FixedMessages || msg == e.message
  {
    if e.code == Some(401) then InvalidCredentials
    else if e.code == Some(409) then AccountExists
    else if e.code == Some(429) then TooManyRequests
    else if e.tag == Some("user_invalid_credentials") then InvalidEmailOrPassword
    else if e.tag == Some("user_email_already_exists") then AccountExists
    else if e.tag == Some("user_password_mismatch") then PasswordIncorrect
    else if e.message != "" then e.message
    else Unexpected
  }

  /** The three status codes the normaliser recognises. */
  lemma StatusCodes(tag: Option<string>, message: string)
    ensures HandleAppwriteError(AppwriteError(Some(401), tag, message)) == InvalidCredentials
    ensures HandleAppwriteError(AppwriteError(Some(409), tag, message)) == AccountExists
    ensures HandleAppwriteError(AppwriteError(Some(429), tag, message)) == TooManyRequests
  {
  }

  /** The three type tags, when no recognised code is present. */
  lemma TypeTags(code: Option<int>, message: string)
    requires code !in {Some(401), Some(409), Some(429)}
    ensures HandleAppwriteError(AppwriteError(code, Some("user_invalid_credentials"), message)) == InvalidEmailOrPassword
    ensures HandleAppwriteError(AppwriteError(code, Some("user_email_already_exists"), message)) == AccountExists
    ensures HandleAppwriteError(AppwriteError(code, Some("user_password_mismatch"), message)) == PasswordIncorrect
  {
  }

  /** A recognised code wins over any type tag. */
  lemma CodeBeforeTag(e: AppwriteError)
    requires e.code == Some(401)
    requires e.tag == Some("user_email_already_exists")
    ensures HandleAppwriteError(e) == InvalidCredentials && HandleAppwriteError(e) != AccountExists
  {
  }

  /** Conflict by code and conflict by tag read the same. */
  lemma ConflictSameMessage(message: string)
    ensures HandleAppwriteError(AppwriteError(Some(409), None, message))
         == HandleAppwriteError(AppwriteError(None, Some("user_email_already_exists"), message))
  {
  }

  /** An unrecognised error keeps its message, or falls back when it has none. */
  lemma Unrecognised(e: AppwriteError)
    requires e.code !in {Some(401), Some(409), Some(429)}
    requires e.tag !in {Some("user_invalid_credentials"), Some("user_email_already_exists"), Some("user_password_mismatch")}
    ensures HandleAppwriteError(e) == if e.message == "" then Unexpected else e.message
  {
  }

  /** Normalising a re-wrapped normalised error changes nothing. */
  lemma NormaliseIdempotent(e: AppwriteError)
    ensures HandleAppwriteError(PlainError(HandleAppwriteError(e))) == HandleAppwriteError(e)
  {
  }

  /** A call wrapped by the service that re-throws `new Error(handleAppwriteError(e))`:
      createAccount, login, logout, sendVerification, verifyEmail,
      sendPasswordRecovery and resetPassword all have this shape. */
  function Rethrow<T>(outcome: Result<T, AppwriteError>): (r: Result<T, AppwriteError>)
    ensures outcome.Ok? <==> r.Ok?
    ensures outcome.Ok? ==> r.value == outcome.value
    ensures outcome.Err? ==>
      r.error.code.None? && r.error.tag.None? && r.error.message == HandleAppwriteError(outcome.error)
  {
    match outcome
    case Ok(v) => Ok(v)
    case Err(e) => Err(PlainError(HandleAppwriteError(e)))
  }

  /** A caller that normalises what the service threw sees the message of the
      original error. */
  lemma RethrowNormalisesOnce<T>(outcome: Result<T, AppwriteError>)
    requires outcome.Err?
    ensures HandleAppwriteError(Rethrow(outcome).error) == HandleAppwriteError(outcome.error)
  {
    NormaliseIdempotent(outcome.error);
  }

  /** `getCurrentUser`: never throws; any failure reads as null. */
  function GetCurrentUser<T>(outcome: Result<T, AppwriteError>): (r: Option<T>)
    ensures r.Some? <==> outcome.Ok?
    ensures r.Some? ==> r.value == outcome.value
  {
    match outcome
    case Ok(v) => Some(v)
    case Err(_) => None
  }
}
