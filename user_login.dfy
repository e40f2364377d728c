/**
 * The login-log schema: one record per login attempt, `wasSuccessful`
 * defaulting to true, and a failure reason from a closed list that is
 * required exactly when the attempt failed.
 */
module UserLoginModel {
  import opened Wrappers
  import opened Json
  import opened Strings
  import opened AppErrors
  import opened Casts

  const FailureReasons: seq<string> := [
    "INVALID_PASSWORD", "NEW_USER_NO_PASSWORD", "USER_NOT_FOUND", "ACCOUNT_LOCKED",
    "TOO_MANY_ATTEMPTS", "INVALID_2FA_CODE", "UNKNOWN"]

  datatype LoginLog = LoginLog(
    userId: Option<string>,
    loginAt: int,
    wasSuccessful: Option<bool>,   // `None` is `null`
    loginMethod: Option<string>,
    failureReason: Option<string>)

  /**
   * `new UserLogin(fields)`. The default of `loginAt` is the value
   * `Date.now()` had when the schema was defined, `definedAt`, not the time
   * of the insert.
   */
  function CastLog(fs: Fields, definedAt: int): (l: LoginLog)
    ensures Get(fs, "loginAt").None? ==> l.loginAt == definedAt
    ensures Get(fs, "wasSuccessful").None? ==> l.wasSuccessful == Some(true)
    ensures Get(fs, "wasSuccessful") == Some(Bool(false)) ==> l.wasSuccessful == Some(false)
    ensures l.failureReason == CastString(Get(fs, "failureReason"))
  {
    LoginLog(CastString(Get(fs, "userId")), CastNumber(Get(fs, "loginAt")).GetOr(definedAt),
             CastBool(Get(fs, "wasSuccessful"), true), CastString(Get(fs, "loginMethod")),
             CastString(Get(fs, "failureReason")))
  }

  /** What validation accepts: a reason whenever the attempt failed, and only a listed one. */
  predicate Recordable(l: LoginLog) {
    (l.wasSuccessful != Some(false) || l.failureReason.Some?) && (l.failureReason.Some? ==> l.failureReason.value in FailureReasons)
  }

  /** The validators of `failureReason`: the conditional `required` first, then the enum. */
  function LogMessages(l: LoginLog): (ms: seq<string>)
    ensures ms == [] <==> Recordable(l)
  {
    if l.wasSuccessful == Some(false) && (l.failureReason.None? || l.failureReason == Some("")) then
      ["Path `failureReason` is required."]
    else if l.failureReason.Some? && l.failureReason.value !in FailureReasons then
      ["`" + l.failureReason.value + "` is not a valid enum value for path `failureReason`."]
    else []
  }

  /** A failed attempt without a reason is refused; a successful one needs none. */
  lemma ReasonRequiredIffFailed(l: LoginLog)
    requires l.failureReason.None?
    ensures LogMessages(l) == [] <==> l.wasSuccessful != Some(false)
  {
  }

  /** Two records created without `loginAt`, at any two moments, carry the same timestamp. */
  lemma DefaultTimestampShared(a: Fields, b: Fields, definedAt: int)
    requires Get(a, "loginAt").None? && Get(b, "loginAt").None?
    ensures CastLog(a, definedAt).loginAt == CastLog(b, definedAt).loginAt
  {
  }

  class LoginLogs {
    var logs: seq<LoginLog>
    const definedAt: int

    ghost predicate Valid()
      reads this
    {
      forall i :: 0 <= i < |logs| ==> Recordable(logs[i])
    }

    constructor(definedAt: int)
      ensures logs == [] && this.definedAt == definedAt && Valid()
    {
      logs := [];
      this.definedAt := definedAt;
    }

    /** `UserLogin.create(fields)`: a record that passes validation is appended, another is refused. */
    method Create(fs: Fields) returns (r: Outcome<LoginLog>)
      requires Valid()
      modifies this`logs
      ensures Valid()
      ensures Recordable(CastLog(fs, definedAt)) ==> r == Ok(CastLog(fs, definedAt)) && logs == old(logs) + [r.value]
      ensures !Recordable(CastLog(fs, definedAt)) ==>
        r == Fail(ValidationError(LogMessages(CastLog(fs, definedAt)))) && logs == old(logs)
    {
      var l := CastLog(fs, definedAt);
      if !Recordable(l) {
        return Fail(ValidationError(LogMessages(l)));
      }
      logs := logs + [l];
      r := Ok(l);
    }
  }
}
