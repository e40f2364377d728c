/**
 * The central error handler: it fills in a missing status code and status,
 * answers with every detail in development, and in production first maps
 * the database, token and upload errors it recognises to operational
 * errors, then hides everything that is not operational behind a generic
 * 500.
 */
module ErrorController {
  import opened Wrappers
  import opened Json
  import opened Strings
  import opened AppErrors
  import opened Casts
  import opened Http

  /** `process.env.NODE_ENV`. */
  datatype NodeEnv = Development | Production | OtherEnv

  /** `err.statusCode = err.statusCode || 500; err.status = err.status || "error"`. */
  function WithDefaults(e: Err): (d: Err)
    ensures d.statusCode == (if e.statusCode.Some? && e.statusCode.value != 0 then e.statusCode else Some(500))
    ensures d.status == (if e.status.Some? && e.status.value != "" then e.status else Some("error"))
    ensures d.(statusCode := e.statusCode, status := e.status) == e
  {
    e.(statusCode := if e.statusCode.Some? && e.statusCode.value != 0 then e.statusCode else Some(500),
       status := if e.status.Some? && e.status.value != "" then e.status else Some("error"))
  }

  /** `handleCastErrorDB`. */
  function CastErrorMessage(e: Err): (m: string)
    ensures |m| == |e.path| + |e.value| + 11
    ensures m[..8] == "Invalid " && m[8..8 + |e.path|] == e.path && m[|m| - 1] == '.'
  {
    "Invalid " + e.path + ": " + e.value + "."
  }

  /** `handleDuplicateFieldsDB`: the keys of `keyValue` joined by ", ", or the generic text without `keyValue`. */
  function DuplicateMessage(keyValue: Option<seq<string>>): (m: string)
    ensures keyValue.Some? && |keyValue.value| == 1 ==>
      m == "Duplicate field value: " + Trim(keyValue.value[0]) + ". Please use another value."
    ensures keyValue.None? ==> m == "Duplicate field error. Please check your request."
  {
    if keyValue.Some? then "Duplicate field value: " + Trim(Join(keyValue.value, ", ")) + ". Please use another value."
    else "Duplicate field error. Please check your request."
  }

  /** `handleValidationErrorDB`: every validator message, joined by ". ". */
  function ValidationMessage(messages: seq<string>): (m: string)
    ensures |m| >= 20 && m[..20] == "Invalid input data. "
    ensures messages == [] ==> m == "Invalid input data. "
    ensures |messages| == 1 ==> m == "Invalid input data. " + messages[0]
    ensures |messages| >= 2 ==> m == "Invalid input data. " + messages[0] + ". " + Join(messages[1..], ". ")
  {
    "Invalid input data. " + Join(messages, ". ")
  }

  const InvalidToken: Err := NewAppError("Invalid token. Please log in again.", Some(401))
  const ExpiredToken: Err := NewAppError("Token expired. Please log in again.", Some(401))
  const TooLargeFile: Err := NewAppError("File is too large to upload!", Some(400))

  /**
   * The chain of `if`s of the production branch applied to the copy of the
   * error; each test looks at the error the previous ones left, except the
   * upload test, which looks at the original.
   */
  function Classified(e: Err): (r: Err)
    ensures e.code == StrCode("LIMIT_FILE_SIZE") ==> r == TooLargeFile
    ensures r == e || r.isOperational
  {
    var a := if e.name == "CastError" then NewAppError(CastErrorMessage(e), Some(400)) else e;
    var b := if a.code == NumCode(11000) then NewAppError(DuplicateMessage(a.keyValue), Some(400)) else a;
    var c := if b.name == "ValidationError" then NewAppError(ValidationMessage(b.errorMessages), Some(400)) else b;
    var d := if c.name == "JsonWebTokenError" then InvalidToken else c;
    var f := if d.name == "TokenExpiredError" then ExpiredToken else d;
    if e.code == StrCode("LIMIT_FILE_SIZE") then TooLargeFile else f
  }

  /** The body `{ status, message }`; an `undefined` status is left out. */
  function StatusAndMessage(status: Option<string>, message: string): (v: Value)
    ensures v.Obj? && Get(v.fields, "status") == StrOf(status) && Get(v.fields, "message") == Some(Str(message))
    ensures Keys(v.fields) == (if status.Some? then ["status", "message"] else ["message"])
  {
    Obj(StrEntry("status", status) + [("message", Str(message))])
  }

  const Generic: Value := StatusAndMessage(Some("error"), "Something went wrong!")

  /** `sendErrProd`: an operational error with its own code and message, anything else as a generic 500. */
  function SendProd(e: Err): (r: Reply)
    ensures e.isOperational ==> r == Respond(e.statusCode.GetOr(500), StatusAndMessage(e.status, e.message))
    ensures !e.isOperational ==> r == Respond(500, Generic)
  {
    if e.isOperational then Respond(e.statusCode.GetOr(500), StatusAndMessage(e.status, e.message))
    else Respond(500, Generic)
  }

  /** The own properties of an error that `JSON.stringify` shows. */
  function ErrJson(e: Err): (v: Value)
    ensures v.Obj? && Get(v.fields, "statusCode") == NumOf(e.statusCode) && Get(v.fields, "status") == StrOf(e.status)
    ensures Get(v.fields, "isOperational").Some? <==> e.isOperational
    ensures Get(v.fields, "message").None? && Get(v.fields, "name").None?
  {
    Obj(NumEntry("statusCode", e.statusCode) + StrEntry("status", e.status)
        + (if e.isOperational then [("isOperational", Bool(true))] else []))
  }

  /** `sendErrDev`: status, the error itself, message and stack, under the error's own code. */
  function SendDev(e: Err, stack: string): (r: Reply)
    ensures r.Respond? && r.status == e.statusCode.GetOr(500) && r.body.Obj?
    ensures Get(r.body.fields, "status") == StrOf(e.status)
    ensures Get(r.body.fields, "message") == Some(Str(e.message))
    ensures Get(r.body.fields, "stack") == Some(Str(stack))
  {
    DevFieldsRead(e.status, ErrJson(e), e.message, stack);
    Respond(e.statusCode.GetOr(500), Obj(DevFields(e.status, ErrJson(e), e.message, stack)))
  }

  /** The entries of the development body, in the order `sendErrDev` writes them. */
  function DevFields(status: Option<string>, error: Value, message: string, stack: string): Fields {
    StrEntry("status", status) + [("error", error), ("message", Str(message)), ("stack", Str(stack))]
  }

  lemma DevFieldsRead(status: Option<string>, error: Value, message: string, stack: string)
    ensures var fs := DevFields(status, error, message, stack);
      Get(fs, "status") == StrOf(status) && Get(fs, "message") == Some(Str(message)) && Get(fs, "stack") == Some(Str(stack))
  {
    var tail := [("error", error), ("message", Str(message)), ("stack", Str(stack))];
    var fs := StrEntry("status", status) + tail;
    assert tail[1..][1..] == [("stack", Str(stack))] && tail[1..][1..][1..] == [];
    assert Get(tail, "stack") == Get(tail[1..], "stack") == Get(tail[1..][1..], "stack");
    assert Get(tail, "status") == Get(tail[1..], "status") == Get(tail[1..][1..], "status") == None;
    assert status.Some? ==> fs[1..] == tail;
  }

  /** The default export: the error handler of the application; `stack` is the runtime's stack trace. */
  function HandleError(e: Err, env: NodeEnv, stack: string): (r: Reply)
    ensures env == OtherEnv <==> r == Silent
    ensures env == Development ==> r == SendDev(WithDefaults(e), stack)
    ensures env == Production ==> r == SendProd(Classified(WithDefaults(e)))
  {
    match env
    case Development => SendDev(WithDefaults(e), stack)
    case Production => SendProd(Classified(WithDefaults(e)))
    case OtherEnv => Silent
  }

  // ------------------------------------------------------------- properties

  /** In development the answer carries the error's own code, or 500 when it has none. */
  lemma DevelopmentKeepsCode(e: Err, stack: string)
    ensures var r := HandleError(e, Development, stack);
      r.Respond? && r.status == (if e.statusCode.Some? && e.statusCode.value != 0 then e.statusCode.value else 500)
      && r.body.Obj? && Get(r.body.fields, "message") == Some(Str(e.message))
  {
  }

  /** An operational error the production chain does not recognise is sent with its own code, status and message. */
  lemma ProductionOperational(message: string, code: int)
    requires code != 0
    ensures var e := NewAppError(message, Some(code));
      HandleError(e, Production, "") == Respond(code, StatusAndMessage(e.status, message))
  {
  }

  /** An `AppError` built without a status code is answered 500 with status "error" and its own message. */
  lemma ProductionMissingCode(message: string)
    ensures HandleError(NewAppError(message, None), Production, "")
         == Respond(500, StatusAndMessage(Some("error"), message))
  {
  }

  /** A plain error thrown by code is hidden behind the generic 500 in production. */
  lemma ProductionHidesProgrammingErrors(message: string)
    ensures HandleError(PlainError(message), Production, "") == Respond(500, Generic)
    ensures HandleError(TypeError(message), Production, "") == Respond(500, Generic)
  {
  }

  lemma ProductionCastError(path: string, value: string)
    ensures HandleError(CastError(path, value), Production, "")
         == Respond(400, StatusAndMessage(Some("fail"), "Invalid " + path + ": " + value + "."))
  {
    ClientErrorsFail(400);
  }

  lemma ProductionDuplicateKey(keys: seq<string>)
    ensures HandleError(DuplicateKeyError(keys), Production, "")
         == Respond(400, StatusAndMessage(Some("fail"), DuplicateMessage(Some(keys))))
  {
    ClientErrorsFail(400);
  }

  /** A duplicate key error without `keyValue` gets the generic duplicate message. */
  lemma ProductionDuplicateWithoutKeys()
    ensures HandleError(DuplicateKeyError([]).(keyValue := None), Production, "")
         == Respond(400, StatusAndMessage(Some("fail"), "Duplicate field error. Please check your request."))
  {
    ClientErrorsFail(400);
  }

  lemma ProductionValidation(messages: seq<string>)
    ensures HandleError(ValidationError(messages), Production, "")
         == Respond(400, StatusAndMessage(Some("fail"), "Invalid input data. " + Join(messages, ". ")))
  {
    ClientErrorsFail(400);
  }

  /** Both token errors become 401 in production, whatever their message. */
  lemma ProductionTokenErrors(message: string)
    ensures HandleError(JsonWebTokenError(message), Production, "")
         == Respond(401, StatusAndMessage(Some("fail"), "Invalid token. Please log in again."))
    ensures HandleError(TokenExpiredError, Production, "")
         == Respond(401, StatusAndMessage(Some("fail"), "Token expired. Please log in again."))
  {
    ClientErrorsFail(401);
  }

  lemma ProductionFileTooLarge()
    ensures HandleError(FileTooLargeError, Production, "")
         == Respond(400, StatusAndMessage(Some("fail"), "File is too large to upload!"))
  {
    ClientErrorsFail(400);
  }

  /** The upload test comes last and wins over an earlier match. */
  lemma LaterMatchWins(messages: seq<string>)
    ensures HandleError(ValidationError(messages).(code := StrCode("LIMIT_FILE_SIZE")), Production, "")
         == HandleError(FileTooLargeError, Production, "")
  {
  }

  /** In production every answer is either generic or the message of an operational error. */
  lemma ProductionAnswers(e: Err)
    ensures var r := HandleError(e, Production, "");
      r == Respond(500, Generic)
      || (Classified(WithDefaults(e)).isOperational && r.Respond?
          && r.body == StatusAndMessage(Classified(WithDefaults(e)).status, Classified(WithDefaults(e)).message))
  {
  }

  /** A production answer has status 401 only for an operational 401 or a token error. */
  lemma Production401Sources(e: Err)
    requires HandleError(e, Production, "").status == 401
    ensures e.name == "JsonWebTokenError" || e.name == "TokenExpiredError" || (e.isOperational && e.statusCode == Some(401))
  {
  }
}
