/**
 * The authentication controller: the role guard, login with its attempt
 * counter and login log, the refresh of an access token, first activation
 * of an account, the caller's own profile and password updates, and the
 * automatic login of the demo accounts.
 *
 * Every handler is specified by a function of the stored users (and the
 * request) giving the answer, the users as stored afterwards and the login
 * record written, if any; the methods of `AuthController` perform the same
 * steps on the collections and are proved to agree with those functions.
 */
module AuthController {
  import opened Wrappers
  import opened Json
  import opened Strings
  import opened AppErrors
  import opened Casts
  import Coercions
  import opened Http
  import opened ApiTranslation
  import opened UsersModel
  import opened UserLoginModel
  import opened Protect
  import ErrorController
  import ApiControllers

  /**
   * The process environment and the libraries the controller calls.
   * `signTokens(id)` is `_signTokens`: the refresh and the access token
   * signed for `id`; `signAccess` signs an access token alone; `sha256` is
   * the hex digest; `verifyRefresh` is `jwt.verify` under the refresh
   * secret. `wrongAttemptRange` is WRONG_ATTEMPT_RANGE read as a number
   * (`None` when it is unset or not numeric, so that `>=` is never true);
   * `securePassword` is SECURE_PASSWORD.
   */
  datatype AuthEnv = AuthEnv(
    signTokens: string -> (string, string),
    signAccess: string -> string,
    sha256: string -> string,
    verifyRefresh: string -> Verified,
    wrongAttemptRange: Option<int>,
    securePassword: Option<string>)

  /** What a handler does: its answer, the users as stored afterwards, and the fields of the login record it creates. */
  datatype Handled = Handled(reply: Reply, users: seq<User>, logged: Option<Fields>)

  /** The login records `UserLogin.create` stores for what a handler logged. */
  function Recorded(logged: Option<Fields>, definedAt: int): seq<LoginLog> {
    if logged.Some? then [CastLog(logged.value, definedAt)] else []
  }

  /** The login query's `+firstActivateToken`; its `+paswordChangeAt` names no path and selects nothing. */
  const LoginSelection := Selection(true, false)

  /** The refresh query's `+passwordChangeAt`; after a password change the hook's stamp is on the document too. */
  const StampSelection := Selection(false, true)

  /** The body of `_createAndSendToken` and `_createAndSendAccessToken`: the user without its secrets. */
  function TokenBody(accessToken: string, u: User, sel: Selection): (r: Value)
    ensures r.Obj? && |r.fields| == 3 && Get(r.fields, "status") == Some(Str("success"))
    ensures Get(r.fields, "accessToken") == Some(Str(accessToken))
    ensures Get(r.fields, "data") == Some(Obj([("user", Obj(UserFields(u, sel)))]))
  {
    var data := ("data", Obj([("user", Obj(UserFields(u, sel)))]));
    var fs := [("status", Str("success")), ("accessToken", Str(accessToken)), data];
    assert fs[1..][1..] == [data] && Get(fs, "data") == Get(fs[1..], "data") == Get([data], "data");
    Obj(fs)
  }

  // ------------------------------------------------------------- restrictedTo

  /** `restrictedTo(...roles)`: pass on exactly when the caller's role is listed, else 403 unAuthorized. */
  function RestrictedTo(tr: ApiTranslation, roles: seq<string>, me: User, lang: Option<Value>): (r: Reply)
    ensures r == Next <==> me.role.Some? && me.role.value in roles
    ensures r != Next ==> r == Refuse(tr, lang, "unAuthorized", 403)
  {
    if me.role.Some? && me.role.value in roles then Next else Refuse(tr, lang, "unAuthorized", 403)
  }

  /** The guard of this controller and the one of the generic controller agree on every stored user. */
  lemma RestrictedToAgrees(tr: ApiTranslation, roles: seq<string>, me: User, lang: Option<Value>)
    ensures RestrictedTo(tr, roles, me, lang)
         == ApiControllers.RestrictedTo(tr, seq(|roles|, i requires 0 <= i < |roles| => Str(roles[i])), UserFields(me, DefaultSelection), lang)
  {
    var vs := seq(|roles|, i requires 0 <= i < |roles| => Str(roles[i]));
    if me.role.Some? {
      assert me.role.value in roles <==> Str(me.role.value) in vs by {
        if me.role.value in roles {
          var k :| 0 <= k < |roles| && roles[k] == me.role.value;
          assert vs[k] == Str(me.role.value);
        }
      }
    }
  }

  // ------------------------------------------------------------- login

  /**
   * The condition the login query puts on the email: the body's value cast
   * through the path's `trim` setter; a list is an `$in`, a plain object a
   * `CastError`.
   */
  function LoginEmail(body: Fields): (c: StringCondition)
    ensures Get(body, "email").None? <==> c == AnyValue
    ensures var v := Get(body, "email"); v.Some? && v.value.Str? ==> c == OneOf([Some(Trim(v.value.s))])
    ensures var v := Get(body, "email"); v.Some? && v.value.Obj? && DocumentId(v.value.fields).None? ==>
              c == Uncastable(CastError("email", Coercions.Stringify(v.value)))
  {
    StringQuery(Get(body, "email"), "email", Trim)
  }

  /** `findOne({ email })`: the first stored user whose email meets the condition. */
  function FindByEmail(us: seq<User>, c: StringCondition): (r: Option<nat>)
    ensures r.None? <==> forall i :: 0 <= i < |us| ==> !Meets(us[i].email, c)
    ensures r.Some? ==> r.value < |us| && Meets(us[r.value].email, c)
    ensures r.Some? ==> forall i :: 0 <= i < r.value ==> !Meets(us[i].email, c)
  {
    if us == [] then None
    else if Meets(us[0].email, c) then Some(0)
    else match FindByEmail(us[1..], c)
      case None => None
      case Some(i) => Some(i + 1)
  }

  /** With unique emails, the lookup by a stored user's email finds that user. */
  lemma FindByEmailUnique(us: seq<User>, k: nat)
    requires UniqueEmails(us) && k < |us| && us[k].email.Some?
    ensures FindByEmail(us, OneOf([us[k].email])) == Some(k)
  {
  }

  /** An email sent as a list finds the first user holding any of its items, each trimmed. */
  lemma {:induction false} LoginEmailList(us: seq<User>, body: Fields, a: string, b: string, k: nat)
    requires Get(body, "email") == Some(Arr([Str(a), Str(b)]))
    requires k < |us| && us[k].email == Some(Trim(b))
    ensures FindByEmail(us, LoginEmail(body)).Some? && FindByEmail(us, LoginEmail(body)).value <= k
  {
    var items := [Str(a), Str(b)];
    ArrayMeetsEachItem(items, "email", Trim, 1);
    assert Meets(us[k].email, LoginEmail(body));
  }

  /** Where the guard chain of `login` stops; `i` is the position of the user the email found. */
  datatype LoginStep =
    | NotSubmitted
    | QueryRefused(err: Err)
    | NoSuchUser
    | NoPasswordYet(i: nat)
    | Locked(i: nat)
    | CompareThrew(i: nat, err: Err)
    | WrongPassword(i: nat, locks: bool)
    | Success(i: nat)
  {
    predicate HasUser() {
      !NotSubmitted? && !QueryRefused? && !NoSuchUser?
    }
  }

  /** Both credentials are truthy. */
  predicate Submitted(body: Fields) {
    TruthyOpt(Get(body, "email")) && TruthyOpt(Get(body, "password"))
  }

  /** The guards of `login`, in the order the handler tests them. */
  function LoginDecision(us: seq<User>, body: Fields, range: Option<int>): (s: LoginStep)
    ensures s.HasUser() ==> FindByEmail(us, LoginEmail(body)) == Some(s.i) && s.i < |us|
    ensures s.NotSubmitted? <==> !Submitted(body)
  {
    if !Submitted(body) then NotSubmitted
    else if LoginEmail(body).Uncastable? then QueryRefused(LoginEmail(body).err)
    else
      var found := FindByEmail(us, LoginEmail(body));
      if found.None? then NoSuchUser
      else
        var i := found.value;
        var u := us[i];
        if Present(u.firstActivateToken) && !HasPassword(u.password) then NoPasswordYet(i)
        else if u.isActive != Some(true) then Locked(i)
        else
          match PasswordMatches(Get(body, "password").value, u.password)
          case Fail(e) => CompareThrew(i, e)
          case Ok(false) => WrongPassword(i, range.Some? && u.wrongAttemptNumber + 1 >= range.value)
          case Ok(true) => Success(i)
  }

  /** A submitted body whose email finds the user at `k` gets past the lookup with that user. */
  lemma {:induction false} LoginFinds(us: seq<User>, body: Fields, range: Option<int>, k: nat)
    requires Submitted(body) && FindByEmail(us, LoginEmail(body)) == Some(k)
    ensures LoginDecision(us, body, range).HasUser() && LoginDecision(us, body, range).i == k
  {
    var c := LoginEmail(body);
    assert !c.Uncastable? by {
      assert Meets(us[k].email, c);
    }
    var s := LoginDecision(us, body, range);
    assert !s.NotSubmitted? && !s.QueryRefused? && !s.NoSuchUser?;
  }

  /** A user found by the login's email who holds an activation token and no password is told to set one first. */
  lemma {:induction false} LoginBeforePassword(us: seq<User>, body: Fields, range: Option<int>, k: nat)
    requires Submitted(body) && FindByEmail(us, LoginEmail(body)) == Some(k) && k < |us|
    requires Present(us[k].firstActivateToken) && !HasPassword(us[k].password)
    ensures LoginDecision(us, body, range) == NoPasswordYet(k)
  {
    assert Meets(us[k].email, LoginEmail(body));
  }

  /** The stored user after the attempt: one more wrong attempt (and the lock), or the reset and the new refresh hash. */
  function AfterAttempt(s: LoginStep, u: User, refreshHash: string): (r: User)
    ensures r.id == u.id && r.email == u.email
  {
    match s
    case WrongPassword(_, locks) =>
      u.(wrongAttemptNumber := u.wrongAttemptNumber + 1, isActive := if locks then Some(false) else u.isActive)
    case Success(_) => u.(wrongAttemptNumber := 0, refreshToken := Some(refreshHash))
    case _ => u
  }

  /** The failure reason logged for a step. */
  function FailureReason(s: LoginStep): (r: Option<string>)
    ensures r.None? <==> !(s.NoSuchUser? || s.NoPasswordYet? || s.Locked? || s.WrongPassword?)
    ensures s.WrongPassword? ==> (r == Some("TOO_MANY_ATTEMPTS") <==> s.locks)
  {
    match s
    case NoSuchUser => Some("USER_NOT_FOUND")
    case NoPasswordYet(_) => Some("NEW_USER_NO_PASSWORD")
    case Locked(_) => Some("ACCOUNT_LOCKED")
    case WrongPassword(_, locks) => Some(if locks then "TOO_MANY_ATTEMPTS" else "INVALID_PASSWORD")
    case _ => None
  }

  /** The fields `_createLoginLog` passes to `UserLogin.create`; an omitted reason is left `undefined`. */
  function LogFields(userId: Value, reason: Option<string>): (r: Fields)
    ensures Get(r, "userId") == Some(userId)
    ensures Get(r, "wasSuccessful") == Some(Bool(reason.None?))
    ensures Get(r, "failureReason") == if reason.Some? then Some(Str(reason.value)) else None
  {
    var k := "failureReason";
    var fs := [("userId", userId), ("wasSuccessful", Bool(reason.None?)), ("loginMethod", Str("password"))]
              + StrEntry(k, reason);
    assert fs[1..][1..][1..] == StrEntry(k, reason);
    assert Get(fs, k) == Get(fs[1..], k) == Get(fs[1..][1..], k) == Get(fs[1..][1..][1..], k);
    fs
  }

  /** The record a step logs: every step after the credential check logs one, except a comparison that throws. */
  function LoginLogged(s: LoginStep, us: seq<User>): (r: Option<Fields>)
    requires s.HasUser() ==> s.i < |us|
    ensures r.None? <==> s.NotSubmitted? || s.QueryRefused? || s.CompareThrew?
  {
    if s.NotSubmitted? || s.QueryRefused? || s.CompareThrew? then None
    else Some(LogFields(if s.NoSuchUser? then Null else Str(us[s.i].id), FailureReason(s)))
  }

  /** As written: `next(new AppError(message), 401)` hands the code to `next`, so the error has none. */
  function NoUserAsWritten(tr: ApiTranslation, lang: Option<Value>): (r: Reply)
    ensures r.NextError? && r.err.statusCode.None? && r.err.message == Message(tr, lang, "noUser")
  {
    NextError(NewAppError(Message(tr, lang, "noUser"), None))
  }

  /** The answer evidently intended for an unknown email: 401 noUser, like the other refusals of the chain. */
  function NoUser(tr: ApiTranslation, lang: Option<Value>): (r: Reply)
    ensures r == Refuse(tr, lang, "noUser", 401)
  {
    Refuse(tr, lang, "noUser", 401)
  }

  /** The answer of `login` once the chain has stopped at `s`. */
  function LoginReply(tr: ApiTranslation, lang: Option<Value>, s: LoginStep, after: seq<User>, accessToken: string): (r: Reply)
    requires s.HasUser() ==> s.i < |after|
    ensures r.Respond? <==> s.Success?
    ensures s.Success? ==> r == Respond(200, TokenBody(accessToken, after[s.i], LoginSelection))
    ensures s.QueryRefused? || s.CompareThrew? ==> r == NextError(s.err)
    ensures s.Locked? ==> r == Refuse(tr, lang, "lockecAccount", 423)
    ensures s.NotSubmitted? || s.NoSuchUser? || s.NoPasswordYet? || s.WrongPassword? ==>
      r.NextError? && r.err.statusCode == Some(401) && r.err.isOperational
    ensures s.WrongPassword? ==> r.err.message == Message(tr, lang, if s.locks then "tooManyWronAttempt" else "wrongPassword")
  {
    match s
    case NotSubmitted => Refuse(tr, lang, "emailPasswordNotSubmitted", 401)
    case QueryRefused(e) => NextError(e)
    case NoSuchUser => NoUser(tr, lang)
    case NoPasswordYet(_) => Refuse(tr, lang, "newUserNoPassword", 401)
    case Locked(_) => Refuse(tr, lang, "lockecAccount", 423)
    case CompareThrew(_, e) => NextError(e)
    case WrongPassword(_, locks) => Refuse(tr, lang, if locks then "tooManyWronAttempt" else "wrongPassword", 401)
    case Success(i) => Respond(200, TokenBody(accessToken, after[i], LoginSelection))
  }

  /** The users as stored after the attempt stopped at `s`: only the user the email found changes, and only after the comparison. */
  function LoginStore(us: seq<User>, s: LoginStep, env: AuthEnv): (after: seq<User>)
    requires s.HasUser() ==> s.i < |us|
    ensures |after| == |us|
    ensures forall j :: 0 <= j < |us| ==> after[j].id == us[j].id && after[j].email == us[j].email
    ensures !(s.WrongPassword? || s.Success?) ==> after == us
  {
    if s.WrongPassword? || s.Success? then us[s.i := AfterAttempt(s, us[s.i], env.sha256(env.signTokens(us[s.i].id).0))]
    else us
  }

  /** `login` on the stored users `us`. */
  function LoginOutcome(tr: ApiTranslation, lang: Option<Value>, us: seq<User>, body: Fields, env: AuthEnv): (h: Handled)
    ensures h.users == LoginStore(us, LoginDecision(us, body, env.wrongAttemptRange), env)
  {
    var s := LoginDecision(us, body, env.wrongAttemptRange);
    var after := LoginStore(us, s, env);
    var access := if s.Success? then env.signTokens(us[s.i].id).1 else "";
    Handled(LoginReply(tr, lang, s, after, access), after, LoginLogged(s, us))
  }

  /** `login` in its three parts: the decision, the store writes and the answer, and the record. */
  lemma {:induction false} LoginOutcomeIs(tr: ApiTranslation, lang: Option<Value>, us: seq<User>, body: Fields, env: AuthEnv)
    ensures var s := LoginDecision(us, body, env.wrongAttemptRange);
      var after := LoginStore(us, s, env);
      LoginOutcome(tr, lang, us, body, env)
      == Handled(LoginReply(tr, lang, s, after, if s.Success? then env.signTokens(us[s.i].id).1 else ""),
                 after, LoginLogged(s, us))
  {
  }

  /** The one user a wrong password or a success rewrites, field by field. */
  lemma LoginStoreWrites(us: seq<User>, s: LoginStep, env: AuthEnv)
    requires s.HasUser() ==> s.i < |us|
    ensures s.WrongPassword? ==>
              LoginStore(us, s, env)
              == us[s.i := us[s.i].(wrongAttemptNumber := us[s.i].wrongAttemptNumber + 1,
                                    isActive := if s.locks then Some(false) else us[s.i].isActive)]
    ensures s.Success? ==>
              LoginStore(us, s, env)
              == us[s.i := us[s.i].(wrongAttemptNumber := 0, refreshToken := Some(env.sha256(env.signTokens(us[s.i].id).0)))]
  {
  }

  /** The store write of a wrong password alone. */
  lemma WrongPasswordStore(us: seq<User>, s: LoginStep, env: AuthEnv)
    requires s.WrongPassword? && s.i < |us|
    ensures LoginStore(us, s, env)
         == us[s.i := us[s.i].(wrongAttemptNumber := us[s.i].wrongAttemptNumber + 1,
                               isActive := if s.locks then Some(false) else us[s.i].isActive)]
  {
    LoginStoreWrites(us, s, env);
  }

  // ------------------------------------------------------------- login properties

  /** Missing credentials are refused 401 before anything is looked up, stored or logged. */
  lemma {:induction false} UnsubmittedChangesNothing(tr: ApiTranslation, lang: Option<Value>, us: seq<User>, body: Fields, env: AuthEnv)
    requires !Submitted(body)
    ensures LoginOutcome(tr, lang, us, body, env) == Handled(Refuse(tr, lang, "emailPasswordNotSubmitted", 401), us, None)
  {
  }

  /** An unknown email is logged as USER_NOT_FOUND without a user id and changes no user. */
  lemma {:induction false} UnknownEmailLogged(tr: ApiTranslation, lang: Option<Value>, us: seq<User>, body: Fields, env: AuthEnv)
    requires Submitted(body) && !LoginEmail(body).Uncastable? && FindByEmail(us, LoginEmail(body)).None?
    ensures LoginOutcome(tr, lang, us, body, env)
         == Handled(NoUser(tr, lang), us, Some(LogFields(Null, Some("USER_NOT_FOUND"))))
  {
  }

  /** A user that was sent an activation link and has no password yet is refused 401, whatever password is given. */
  lemma {:induction false} NewUserRefused(tr: ApiTranslation, lang: Option<Value>, us: seq<User>, body: Fields, env: AuthEnv, i: nat)
    requires Submitted(body) && FindByEmail(us, LoginEmail(body)) == Some(i)
    requires Present(us[i].firstActivateToken) && !HasPassword(us[i].password)
    ensures LoginOutcome(tr, lang, us, body, env)
         == Handled(Refuse(tr, lang, "newUserNoPassword", 401), us, Some(LogFields(Str(us[i].id), Some("NEW_USER_NO_PASSWORD"))))
  {
  }

  /**
   * An inactive account is refused 423 before the password is compared:
   * its counter stops growing, and even the right password does not open it.
   */
  lemma {:induction false} InactiveRefusedBeforePassword(tr: ApiTranslation, lang: Option<Value>, us: seq<User>, body: Fields, env: AuthEnv, i: nat)
    requires Submitted(body) && FindByEmail(us, LoginEmail(body)) == Some(i)
    requires !(Present(us[i].firstActivateToken) && !HasPassword(us[i].password)) && us[i].isActive != Some(true)
    ensures LoginOutcome(tr, lang, us, body, env)
         == Handled(Refuse(tr, lang, "lockecAccount", 423), us, Some(LogFields(Str(us[i].id), Some("ACCOUNT_LOCKED"))))
  {
  }

  /**
   * A wrong password adds exactly one to the counter of that user and of
   * no other; the account is locked exactly when the new count reaches the
   * range.
   */
  lemma {:induction false} WrongPasswordCountsOne(us: seq<User>, body: Fields, env: AuthEnv, i: nat)
    requires Submitted(body) && FindByEmail(us, LoginEmail(body)) == Some(i)
    requires !(Present(us[i].firstActivateToken) && !HasPassword(us[i].password)) && us[i].isActive == Some(true)
    requires PasswordMatches(Get(body, "password").value, us[i].password) == Ok(false)
    ensures var after := LoginStore(us, LoginDecision(us, body, env.wrongAttemptRange), env);
      && after[i].wrongAttemptNumber == us[i].wrongAttemptNumber + 1
      && (after[i].isActive == Some(false) <==>
          env.wrongAttemptRange.Some? && us[i].wrongAttemptNumber + 1 >= env.wrongAttemptRange.value)
      && forall j :: 0 <= j < |us| && j != i ==> after[j] == us[j]
  {
    DecidesWrongPassword(us, body, env.wrongAttemptRange, i);
  }

  /** Past the guards, a password that does not match stops the login at the wrong-password step. */
  lemma {:induction false} DecidesWrongPassword(us: seq<User>, body: Fields, range: Option<int>, i: nat)
    requires Submitted(body) && FindByEmail(us, LoginEmail(body)) == Some(i)
    requires !(Present(us[i].firstActivateToken) && !HasPassword(us[i].password)) && us[i].isActive == Some(true)
    requires PasswordMatches(Get(body, "password").value, us[i].password) == Ok(false)
    ensures LoginDecision(us, body, range) == WrongPassword(i, range.Some? && us[i].wrongAttemptNumber + 1 >= range.value)
  {
  }

  /** A wrong password is refused 401, as too many attempts when it locked the account, and logged with that reason. */
  lemma {:induction false} WrongPasswordAnswer(tr: ApiTranslation, lang: Option<Value>, us: seq<User>, body: Fields, env: AuthEnv, i: nat)
    requires Submitted(body) && FindByEmail(us, LoginEmail(body)) == Some(i)
    requires !(Present(us[i].firstActivateToken) && !HasPassword(us[i].password)) && us[i].isActive == Some(true)
    requires PasswordMatches(Get(body, "password").value, us[i].password) == Ok(false)
    ensures var h := LoginOutcome(tr, lang, us, body, env);
      var locks := env.wrongAttemptRange.Some? && us[i].wrongAttemptNumber + 1 >= env.wrongAttemptRange.value;
      && h.reply == Refuse(tr, lang, if locks then "tooManyWronAttempt" else "wrongPassword", 401)
      && h.logged == Some(LogFields(Str(us[i].id), Some(if locks then "TOO_MANY_ATTEMPTS" else "INVALID_PASSWORD")))
  {
    DecidesWrongPassword(us, body, env.wrongAttemptRange, i);
    LoginOutcomeIs(tr, lang, us, body, env);
  }

  /** The right password resets the counter, stores the hash of the new refresh token and answers 200 with the access token. */
  lemma {:induction false} RightPasswordResets(tr: ApiTranslation, lang: Option<Value>, us: seq<User>, body: Fields, env: AuthEnv, i: nat)
    requires Submitted(body) && FindByEmail(us, LoginEmail(body)) == Some(i)
    requires !(Present(us[i].firstActivateToken) && !HasPassword(us[i].password)) && us[i].isActive == Some(true)
    requires PasswordMatches(Get(body, "password").value, us[i].password) == Ok(true)
    ensures var h := LoginOutcome(tr, lang, us, body, env);
      var (refresh, access) := env.signTokens(us[i].id);
      && h.users == us[i := us[i].(wrongAttemptNumber := 0, refreshToken := Some(env.sha256(refresh)))]
      && h.reply == Respond(200, TokenBody(access, h.users[i], LoginSelection))
      && h.logged == Some(LogFields(Str(us[i].id), None))
  {
    DecidesSuccess(us, body, env.wrongAttemptRange, i);
    LoginOutcomeIs(tr, lang, us, body, env);
    var s := Success(i);
    LoginStoreWrites(us, s, env);
    var after := LoginStore(us, s, env);
    assert LoginReply(tr, lang, s, after, env.signTokens(us[i].id).1) == Respond(200, TokenBody(env.signTokens(us[i].id).1, after[i], LoginSelection));
    assert LoginLogged(s, us) == Some(LogFields(Str(us[i].id), None));
  }

  /** Past the guards, a password that matches ends the login in success. */
  lemma {:induction false} DecidesSuccess(us: seq<User>, body: Fields, range: Option<int>, i: nat)
    requires Submitted(body) && FindByEmail(us, LoginEmail(body)) == Some(i)
    requires !(Present(us[i].firstActivateToken) && !HasPassword(us[i].password)) && us[i].isActive == Some(true)
    requires PasswordMatches(Get(body, "password").value, us[i].password) == Ok(true)
    ensures LoginDecision(us, body, range) == Success(i)
  {
  }

  /** Rewriting users without touching their emails leaves every email lookup as it was. */
  lemma {:induction false} FindByEmailKeptByEmails(a: seq<User>, b: seq<User>, c: StringCondition)
    requires |a| == |b| && forall j :: 0 <= j < |a| ==> a[j].email == b[j].email
    ensures FindByEmail(a, c) == FindByEmail(b, c)
  {
    if a != [] && !Meets(a[0].email, c) {
      FindByEmailKeptByEmails(a[1..], b[1..], c);
    }
  }

  /** Once a wrong password has locked the account, every later attempt with that email is refused 423, right password or not. */
  lemma {:induction false} LockoutIsPermanent(us: seq<User>, body: Fields, later: Fields, env: AuthEnv)
    requires LoginDecision(us, body, env.wrongAttemptRange).WrongPassword?
    requires LoginDecision(us, body, env.wrongAttemptRange).locks
    requires Submitted(later) && LoginEmail(later) == LoginEmail(body)
    ensures LoginDecision(LoginStore(us, LoginDecision(us, body, env.wrongAttemptRange), env), later, env.wrongAttemptRange)
         == Locked(LoginDecision(us, body, env.wrongAttemptRange).i)
  {
    var s := LoginDecision(us, body, env.wrongAttemptRange);
    var after := LoginStore(us, s, env);
    FindByEmailKeptByEmails(after, us, LoginEmail(later));
    WrongPasswordStore(us, s, env);
    assert after[s.i].isActive == Some(false);
    assert after[s.i].firstActivateToken == us[s.i].firstActivateToken && after[s.i].password == us[s.i].password;
    DecidesLocked(after, later, env.wrongAttemptRange, s.i);
  }

  /** Past the lookup, an account that is not active stops the login at the lock. */
  lemma {:induction false} DecidesLocked(us: seq<User>, body: Fields, range: Option<int>, i: nat)
    requires Submitted(body) && FindByEmail(us, LoginEmail(body)) == Some(i)
    requires !(Present(us[i].firstActivateToken) && !HasPassword(us[i].password)) && us[i].isActive != Some(true)
    ensures LoginDecision(us, body, range) == Locked(i)
  {
  }

  /** Every record `login` writes passes the validators of the login log, so none is lost. */
  lemma LoginLogsRecordable(s: LoginStep, us: seq<User>, definedAt: int)
    requires s.HasUser() ==> s.i < |us|
    requires LoginLogged(s, us).Some?
    ensures Recordable(CastLog(LoginLogged(s, us).value, definedAt))
  {
  }

  /** As written, the unknown-email refusal reaches the error handler without a code and is answered 500. */
  lemma NoUserAsWrittenAnswers500(tr: ApiTranslation, lang: Option<Value>)
    ensures ErrorController.HandleError(NoUserAsWritten(tr, lang).err, ErrorController.Production, "")
         == Respond(500, ErrorController.StatusAndMessage(Some("error"), Message(tr, lang, "noUser")))
  {
    ErrorController.ProductionMissingCode(Message(tr, lang, "noUser"));
  }

  /** Corrected, it is answered 401 with status "fail" and the translated message. */
  lemma NoUserAnswers401(tr: ApiTranslation, lang: Option<Value>)
    ensures ErrorController.HandleError(NoUser(tr, lang).err, ErrorController.Production, "")
         == Respond(401, ErrorController.StatusAndMessage(Some("fail"), Message(tr, lang, "noUser")))
  {
    ClientErrorsFail(401);
    ErrorController.ProductionOperational(Message(tr, lang, "noUser"), 401);
  }

  // ------------------------------------------------------------- refreshAccessToken

  /** The REFRESH_TOKEN cookie, or the empty token without one. */
  function RefreshCookie(cookie: Option<string>): (t: string)
    ensures t == "" <==> !Present(cookie)
  {
    if Present(cookie) then cookie.value else ""
  }

  /** The checks of `refreshAccessToken` once the token decoded to `c`. */
  function RefreshChecks(tr: ApiTranslation, lang: Option<Value>, us: seq<User>, token: string, c: Claims, env: AuthEnv): (r: Reply)
    ensures r.Respond? || r.NextError?
    ensures r.NextError? && r.err.isOperational ==> r.err.statusCode == Some(403)
    ensures r.NextError? && r.err.isOperational ==> r.err == NewAppError(r.err.message, r.err.statusCode)
    ensures r.NextError? && !r.err.isOperational ==> r.err == GetTimeOfUndefined
    ensures r.Respond? ==> FindById(us, c.id).Some?
    ensures r.Respond? ==>
      var u := us[FindById(us, c.id).value];
      && u.refreshToken == Some(env.sha256(token)) && PasswordChangedAfter(u, c.iat) == Some(false)
      && r == Respond(200, TokenBody(env.signAccess(u.id), u, StampSelection))
  {
    var found := FindById(us, c.id);
    if found.None? then Refuse(tr, lang, "notExistUser", 403)
    else
      var u := us[found.value];
      if !Present(u.refreshToken) then Refuse(tr, lang, "userNotLoggedIn", 403)
      else match PasswordChangedAfter(u, c.iat)
        case None => NextError(GetTimeOfUndefined)
        case Some(true) => Refuse(tr, lang, "changedPassword", 403)
        case Some(false) =>
          if env.sha256(token) != u.refreshToken.value then Refuse(tr, lang, "refreshTokenNotCorrect", 403)
          else Respond(200, TokenBody(env.signAccess(u.id), u, StampSelection))
  }

  /** As written: a refresh token that fails to verify is thrown again by `verifyToken` and reaches the error handler. */
  function RefreshAsWritten(tr: ApiTranslation, lang: Option<Value>, us: seq<User>, cookie: Option<string>, env: AuthEnv): (r: Reply)
    ensures !Present(cookie) ==> r == Refuse(tr, lang, "noRefreshToken", 498)
    ensures Present(cookie) && env.verifyRefresh(cookie.value).Refused? ==> r == NextError(env.verifyRefresh(cookie.value).err)
  {
    var token := RefreshCookie(cookie);
    if token == "" then Refuse(tr, lang, "noRefreshToken", 498)
    else match VerifyToken(token, Refresh, env.verifyRefresh)
      case Fail(e) => NextError(e)
      case Ok(None) => Refuse(tr, lang, "noRefreshToken", 498)
      case Ok(Some(c)) => RefreshChecks(tr, lang, us, token, c, env)
  }

  /**
   * `refreshAccessToken` as its own comment requires: a token that fails to
   * verify is refused 498 noRefreshToken, like a missing one, so that no
   * answer is a 401 (which the front end would answer with another refresh).
   */
  function RefreshAccessToken(tr: ApiTranslation, lang: Option<Value>, us: seq<User>, cookie: Option<string>, env: AuthEnv): (r: Reply)
    ensures r.Respond? || r.NextError?
    ensures r.NextError? && r.err.isOperational ==> r.err.statusCode == Some(498) || r.err.statusCode == Some(403)
    ensures r.NextError? && r.err.isOperational ==> r.err == NewAppError(r.err.message, r.err.statusCode)
    ensures r.NextError? && !r.err.isOperational ==> r.err == GetTimeOfUndefined
    ensures !Present(cookie) || env.verifyRefresh(cookie.value).Refused? ==> r == Refuse(tr, lang, "noRefreshToken", 498)
    ensures r.Respond? ==> Present(cookie) && env.verifyRefresh(cookie.value).Decoded?
    ensures r.Respond? ==>
      var c := env.verifyRefresh(cookie.value).claims;
      FindById(us, c.id).Some? && us[FindById(us, c.id).value].refreshToken == Some(env.sha256(cookie.value))
  {
    var token := RefreshCookie(cookie);
    if token == "" then Refuse(tr, lang, "noRefreshToken", 498)
    else match VerifyToken(token, Refresh, env.verifyRefresh)
      case Fail(_) => Refuse(tr, lang, "noRefreshToken", 498)
      case Ok(None) => Refuse(tr, lang, "noRefreshToken", 498)
      case Ok(Some(c)) => RefreshChecks(tr, lang, us, token, c, env)
  }

  /** As written, an expired or forged refresh token is answered 401 in production: the status the front end loops on. */
  lemma RefreshAsWrittenAnswers401(tr: ApiTranslation, lang: Option<Value>, us: seq<User>, cookie: Option<string>,
                                   env: AuthEnv, message: string)
    requires Present(cookie)
    requires env.verifyRefresh(cookie.value) == Refused(TokenExpiredError)
          || env.verifyRefresh(cookie.value) == Refused(JsonWebTokenError(message))
    ensures ErrorController.HandleError(RefreshAsWritten(tr, lang, us, cookie, env).err, ErrorController.Production, "").status == 401
  {
    ErrorController.ProductionTokenErrors(message);
  }

  /** Corrected, no answer of the refresh is a 401, in production or in development. */
  lemma RefreshNever401(tr: ApiTranslation, lang: Option<Value>, us: seq<User>, cookie: Option<string>, env: AuthEnv, stack: string)
    ensures var r := RefreshAccessToken(tr, lang, us, cookie, env);
      r.NextError? ==> ErrorController.HandleError(r.err, ErrorController.Production, stack).status != 401
    ensures var r := RefreshAccessToken(tr, lang, us, cookie, env);
      r.NextError? ==> ErrorController.HandleError(r.err, ErrorController.Development, stack).status != 401
    ensures var r := RefreshAccessToken(tr, lang, us, cookie, env);
      r.Respond? ==> r.status == 200
  {
    var r := RefreshAccessToken(tr, lang, us, cookie, env);
    if r.NextError? {
      if r.err.isOperational {
        ErrorController.ProductionOperational(r.err.message, r.err.statusCode.value);
      } else {
        ErrorController.ProductionHidesProgrammingErrors("Cannot read properties of undefined (reading 'getTime')");
      }
    }
  }

  /** A verified refresh token whose hash the user stores, issued no earlier than the last password change, gets a new access token. */
  lemma RefreshAccepted(tr: ApiTranslation, lang: Option<Value>, us: seq<User>, token: string, env: AuthEnv, i: nat)
    requires UniqueIds(us) && i < |us| && token != ""
    requires env.verifyRefresh(token).Decoded? && env.verifyRefresh(token).claims.id == us[i].id
    requires us[i].refreshToken == Some(env.sha256(token)) && env.sha256(token) != ""
    requires PasswordChangedAfter(us[i], env.verifyRefresh(token).claims.iat) == Some(false)
    ensures RefreshAccessToken(tr, lang, us, Some(token), env) == Respond(200, TokenBody(env.signAccess(us[i].id), us[i], StampSelection))
  {
    FindsTheUser(us, i);
  }

  /** The refresh token a login issues is accepted until the password changes after it. */
  lemma {:induction false} LoginThenRefresh(tr: ApiTranslation, lang: Option<Value>, us: seq<User>, body: Fields, env: AuthEnv, i: nat, iat: int)
    requires UniqueIds(us)
    requires Submitted(body) && FindByEmail(us, LoginEmail(body)) == Some(i)
    requires !(Present(us[i].firstActivateToken) && !HasPassword(us[i].password)) && us[i].isActive == Some(true)
    requires PasswordMatches(Get(body, "password").value, us[i].password) == Ok(true)
    requires env.signTokens(us[i].id).0 != "" && env.sha256(env.signTokens(us[i].id).0) != ""
    requires env.verifyRefresh(env.signTokens(us[i].id).0) == Decoded(Claims(us[i].id, iat))
    requires PasswordChangedAfter(us[i], iat) == Some(false)
    ensures var after := LoginStore(us, LoginDecision(us, body, env.wrongAttemptRange), env);
      RefreshAccessToken(tr, lang, after, Some(env.signTokens(us[i].id).0), env)
      == Respond(200, TokenBody(env.signAccess(us[i].id), after[i], StampSelection))
  {
    RightPasswordResets(tr, lang, us, body, env, i);
    IssuedRefreshAccepted(tr, lang, us, env, i, iat);
  }

  /** The refresh token whose hash was just stored on the user `i` is accepted. */
  lemma IssuedRefreshAccepted(tr: ApiTranslation, lang: Option<Value>, us: seq<User>, env: AuthEnv, i: nat, iat: int)
    requires UniqueIds(us) && i < |us|
    requires env.signTokens(us[i].id).0 != "" && env.sha256(env.signTokens(us[i].id).0) != ""
    requires env.verifyRefresh(env.signTokens(us[i].id).0) == Decoded(Claims(us[i].id, iat))
    requires PasswordChangedAfter(us[i], iat) == Some(false)
    ensures var refresh := env.signTokens(us[i].id).0;
      var after := us[i := us[i].(wrongAttemptNumber := 0, refreshToken := Some(env.sha256(refresh)))];
      RefreshAccessToken(tr, lang, after, Some(refresh), env) == Respond(200, TokenBody(env.signAccess(us[i].id), after[i], StampSelection))
  {
    var refresh := env.signTokens(us[i].id).0;
    var v := us[i].(wrongAttemptNumber := 0, refreshToken := Some(env.sha256(refresh)));
    RewriteKeepsIds(us, i, v);
    RefreshAccepted(tr, lang, us[i := v], refresh, env, i);
  }

  // ------------------------------------------------------------- createNewPasswordAndActivateUser

  /** `a !== b` on two body values: objects and arrays parsed separately are never the same object. */
  predicate StrictlyEqual(a: Option<Value>, b: Option<Value>) {
    a == b && !(a.Some? && (a.value.Arr? || a.value.Obj?))
  }

  /** `findOne({ firstActivateToken: hash, isActive: false })`. */
  function ActivationTarget(us: seq<User>, hash: string): (r: Option<nat>)
    ensures r.None? <==> forall i :: 0 <= i < |us| ==> !(us[i].firstActivateToken == Some(hash) && us[i].isActive == Some(false))
    ensures r.Some? ==> r.value < |us| && us[r.value].firstActivateToken == Some(hash) && us[r.value].isActive == Some(false)
  {
    if us == [] then None
    else if us[0].firstActivateToken == Some(hash) && us[0].isActive == Some(false) then Some(0)
    else match ActivationTarget(us[1..], hash)
      case None => None
      case Some(i) => Some(i + 1)
  }

  /** The user as the handler assigns it before the save: token cleared, active, password and confirmation from the body. */
  function Activated(u: User, body: Fields): (r: User)
    ensures r.isActive == Some(true) && r.firstActivateToken.None?
    ensures r.id == u.id && r.email == u.email && r.role == u.role && r.wrongAttemptNumber == u.wrongAttemptNumber
  {
    u.(firstActivateToken := None, isActive := Some(true),
       password := PasswordValue(Get(body, "password")), passwordConfirm := CastString(Get(body, "passwordConfirm")))
  }

  /** The refusals of `createNewPasswordAndActivateUser` before the save, in order. */
  function ActivationRefusal(tr: ApiTranslation, lang: Option<Value>, found: Option<nat>, body: Fields): (r: Option<Reply>)
    ensures found.None? ==> r == Some(Refuse(tr, lang, "invalidActivateToken", 498))
    ensures r.None? <==> found.Some? && TruthyOpt(Get(body, "password")) && TruthyOpt(Get(body, "passwordConfirm"))
                         && StrictlyEqual(Get(body, "password"), Get(body, "passwordConfirm"))
  {
    if found.None? then Some(Refuse(tr, lang, "invalidActivateToken", 498))
    else if !TruthyOpt(Get(body, "password")) || !TruthyOpt(Get(body, "passwordConfirm")) then
      Some(Refuse(tr, lang, "passwordConfirmNotSubmitted", 401))
    else if !StrictlyEqual(Get(body, "password"), Get(body, "passwordConfirm")) then
      Some(Refuse(tr, lang, "passwordAndConfirmPasswordNotSame", 401))
    else None
  }

  /** The answer to the save of the activated user: the name and the passwordCreated message, or the save's error. */
  function ActivationAnswer(tr: ApiTranslation, lang: Option<Value>, us: seq<User>, saved: Outcome<User>): (h: Handled)
    ensures saved.Fail? ==> h == Handled(NextError(saved.err), us, None)
    ensures saved.Ok? ==> h.reply.Respond? && h.reply.status == 200 && h.users == Upsert(us, saved.value) && h.logged.None?
  {
    match saved
    case Fail(e) => Handled(NextError(e), us, None)
    case Ok(u) =>
      Handled(Respond(200, Envelope("success", Obj([("doc", Obj(StrEntry("name", u.fullName)
                                                     + [("message", Str(Message(tr, lang, "passwordCreated")))]))]))),
              Upsert(us, u), None)
  }

  /** `createNewPasswordAndActivateUser` with the token of the link: a validating save of the activated user. */
  function ActivationOutcome(tr: ApiTranslation, lang: Option<Value>, us: seq<User>, token: string, body: Fields, now: int,
                             env: AuthEnv, isEmail: string -> bool, isStrongPassword: Secret -> bool): (h: Handled)
    ensures h.logged.None?
    ensures !h.reply.Respond? ==> h.users == us
    ensures ActivationTarget(us, env.sha256(token)).None? ==> h.reply == Refuse(tr, lang, "invalidActivateToken", 498)
  {
    var found := ActivationTarget(us, env.sha256(token));
    var refusal := ActivationRefusal(tr, lang, found, body);
    if refusal.Some? then Handled(refusal.value, us, None)
    else ActivationAnswer(tr, lang, us, SaveOutcome(us, Activated(us[found.value], body), true, true, now, isEmail, isStrongPassword))
  }

  /**
   * The activated user as saved: the bcrypt hash of the submitted password,
   * no token and no confirmation, active, and the password change stamped.
   */
  lemma ActivatedAsSaved(u: User, body: Fields, p: string, now: int)
    requires Get(body, "password") == Some(Str(p)) && p != ""
    ensures var saved := PreSave(Activated(u, body), true, now);
      && saved.password == Some(Bcrypt(Plain(p))) && saved.passwordConfirm.None?
      && saved.firstActivateToken.None? && saved.isActive == Some(true)
      && saved.passwordChangeAt == Some(now - 1000)
      && saved.id == u.id && saved.email == u.email && saved.role == u.role
  {
  }

  /** Past the refusals, the answer is the answer to the save. */
  lemma {:induction false} ActivationSaves(tr: ApiTranslation, lang: Option<Value>, us: seq<User>, token: string, body: Fields, now: int,
                        env: AuthEnv, isEmail: string -> bool, isStrongPassword: Secret -> bool, k: nat)
    requires ActivationTarget(us, env.sha256(token)) == Some(k)
    requires ActivationRefusal(tr, lang, Some(k), body).None?
    ensures ActivationOutcome(tr, lang, us, token, body, now, env, isEmail, isStrongPassword)
         == ActivationAnswer(tr, lang, us, SaveOutcome(us, Activated(us[k], body), true, true, now, isEmail, isStrongPassword))
  {
  }

  /** Both submitted values equal and non-empty pass the refusals. */
  lemma ActivationAccepts(tr: ApiTranslation, lang: Option<Value>, k: nat, body: Fields, p: string)
    requires Get(body, "password") == Some(Str(p)) && p != "" && Get(body, "passwordConfirm") == Some(Str(p))
    ensures ActivationRefusal(tr, lang, Some(k), body).None?
  {
  }

  /** A valid activation answers 200 and rewrites that user alone. */
  lemma {:induction false} ActivationStoresHash(tr: ApiTranslation, lang: Option<Value>, us: seq<User>, token: string, body: Fields, now: int,
                             env: AuthEnv, isEmail: string -> bool, isStrongPassword: Secret -> bool, k: nat, p: string)
    requires UniqueIds(us) && UniqueEmails(us)
    requires ActivationTarget(us, env.sha256(token)) == Some(k)
    requires Get(body, "password") == Some(Str(p)) && p != "" && Get(body, "passwordConfirm") == Some(Str(p))
    requires Admissible(Activated(us[k], body), isEmail, isStrongPassword)
    ensures var h := ActivationOutcome(tr, lang, us, token, body, now, env, isEmail, isStrongPassword);
      h.reply.Respond? && h.reply.status == 200 && h.users == us[k := PreSave(Activated(us[k], body), true, now)]
  {
    SaveRewrites(us, k, Activated(us[k], body), true, true, now, isEmail, isStrongPassword);
    ActivationAccepts(tr, lang, k, body, p);
    ActivationSaves(tr, lang, us, token, body, now, env, isEmail, isStrongPassword, k);
  }

  /** A password the validators refuse is answered with their messages and activates nothing. */
  lemma {:induction false} ActivationValidates(tr: ApiTranslation, lang: Option<Value>, us: seq<User>, token: string, body: Fields, now: int,
                            env: AuthEnv, isEmail: string -> bool, isStrongPassword: Secret -> bool, k: nat)
    requires ActivationTarget(us, env.sha256(token)) == Some(k)
    requires TruthyOpt(Get(body, "password")) && StrictlyEqual(Get(body, "password"), Get(body, "passwordConfirm"))
    requires !Admissible(Activated(us[k], body), isEmail, isStrongPassword)
    ensures ActivationOutcome(tr, lang, us, token, body, now, env, isEmail, isStrongPassword)
         == Handled(NextError(ValidationError(UserMessages(Activated(us[k], body), isEmail, isStrongPassword))), us, None)
  {
  }

  /** An activation link works once: repeating the request after it succeeded is refused 498. */
  lemma {:induction false} ActivationIsOneShot(tr: ApiTranslation, lang: Option<Value>, us: seq<User>, token: string, body: Fields, now: int,
                            env: AuthEnv, isEmail: string -> bool, isStrongPassword: Secret -> bool, k: nat, p: string, later: int)
    requires UniqueIds(us) && UniqueEmails(us)
    requires ActivationTarget(us, env.sha256(token)) == Some(k)
    requires forall j :: 0 <= j < |us| && j != k ==> us[j].firstActivateToken != Some(env.sha256(token))
    requires Get(body, "password") == Some(Str(p)) && p != "" && Get(body, "passwordConfirm") == Some(Str(p))
    requires Admissible(Activated(us[k], body), isEmail, isStrongPassword)
    ensures var h := ActivationOutcome(tr, lang, us, token, body, now, env, isEmail, isStrongPassword);
      ActivationOutcome(tr, lang, h.users, token, body, later, env, isEmail, isStrongPassword).reply
      == Refuse(tr, lang, "invalidActivateToken", 498)
  {
    ActivationStoresHash(tr, lang, us, token, body, now, env, isEmail, isStrongPassword, k, p);
    ActivatedAsSaved(us[k], body, p, now);
    var h := ActivationOutcome(tr, lang, us, token, body, now, env, isEmail, isStrongPassword);
    assert forall j :: 0 <= j < |h.users| ==> h.users[j].firstActivateToken != Some(env.sha256(token)) by {
      forall j | 0 <= j < |h.users| ensures h.users[j].firstActivateToken != Some(env.sha256(token)) {
        if j != k {
          assert h.users[j] == us[j];
        }
      }
    }
  }

  // ------------------------------------------------------------- updateMe

  /**
   * Whether the body names the path `k` for the guards of `updateMe`: as
   * written the guard tests the value's truthiness, so `0`, `false`, `""`
   * and `null` get through; the evident intent is any value at all.
   */
  predicate Names(body: Fields, k: string, asWritten: bool) {
    if asWritten then TruthyOpt(Get(body, k)) else k in Keys(body)
  }

  /** The refusals of `updateMe`, in order: the caller's document is gone, the body names the role, or the password. */
  function UpdateMeRefusal(tr: ApiTranslation, lang: Option<Value>, found: Option<nat>, body: Fields, asWritten: bool): (r: Option<Reply>)
    ensures found.None? ==> r == Some(Refuse(tr, lang, "noDocument", 404))
    ensures found.Some? && Names(body, "role", asWritten) ==> r == Some(Refuse(tr, lang, "roleUpdateForbidden", 401))
    ensures found.Some? && !Names(body, "role", asWritten) && Names(body, "password", asWritten)
            ==> r == Some(Refuse(tr, lang, "passwordUpdateForbidden", 401))
    ensures r.None? <==> found.Some? && !Names(body, "role", asWritten) && !Names(body, "password", asWritten)
  {
    if found.None? then Some(Refuse(tr, lang, "noDocument", 404))
    else if Names(body, "role", asWritten) then Some(Refuse(tr, lang, "roleUpdateForbidden", 401))
    else if Names(body, "password", asWritten) then Some(Refuse(tr, lang, "passwordUpdateForbidden", 401))
    else None
  }

  /** The answer to the save of the profile: the saved document, or the save's error. */
  function UpdateMeAnswer(us: seq<User>, saved: Outcome<User>): (h: Handled)
    ensures saved.Fail? ==> h == Handled(NextError(saved.err), us, None)
    ensures saved.Ok? ==> h.reply.Respond? && h.reply.status == 200 && h.users == Upsert(us, saved.value) && h.logged.None?
  {
    match saved
    case Fail(e) => Handled(NextError(e), us, None)
    case Ok(u) => Handled(Respond(200, Envelope("success", Obj([("doc", Obj(UserFields(u, DefaultSelection)))]))), Upsert(us, u), None)
  }

  /**
   * `updateMe` for the caller `me` set by `protect`: the body written onto
   * the caller's stored document and saved without validation. The password
   * path is not selected, so the hook sees a password only when the body
   * assigns one.
   */
  function UpdateMeWith(tr: ApiTranslation, lang: Option<Value>, us: seq<User>, me: User, body: Fields, now: int,
                        isEmail: string -> bool, isStrongPassword: Secret -> bool, asWritten: bool): (h: Handled)
    ensures h.logged.None?
    ensures !h.reply.Respond? ==> h.users == us
    ensures FindById(us, me.id).None? ==> h.reply == Refuse(tr, lang, "noDocument", 404)
  {
    var found := FindById(us, me.id);
    var refusal := UpdateMeRefusal(tr, lang, found, body, asWritten);
    if refusal.Some? then Handled(refusal.value, us, None)
    else UpdateMeAnswer(us, SaveOutcome(us, AssignBody(us[found.value], body), "password" in Keys(body), false, now,
                                        isEmail, isStrongPassword))
  }

  /** As written: the guards test truthiness. */
  function UpdateMeAsWritten(tr: ApiTranslation, lang: Option<Value>, us: seq<User>, me: User, body: Fields, now: int,
                             isEmail: string -> bool, isStrongPassword: Secret -> bool): (h: Handled)
    ensures TruthyOpt(Get(body, "role")) || TruthyOpt(Get(body, "password")) ==> h.users == us && !h.reply.Respond?
  {
    UpdateMeWith(tr, lang, us, me, body, now, isEmail, isStrongPassword, true)
  }

  /** `updateMe` as evidently intended: a body that names the role or the password at all is refused. */
  function UpdateMeOutcome(tr: ApiTranslation, lang: Option<Value>, us: seq<User>, me: User, body: Fields, now: int,
                    isEmail: string -> bool, isStrongPassword: Secret -> bool): (h: Handled)
    ensures "role" in Keys(body) || "password" in Keys(body) ==> h.users == us && !h.reply.Respond?
  {
    UpdateMeWith(tr, lang, us, me, body, now, isEmail, isStrongPassword, false)
  }

  /** Past the refusals, the answer is the answer to the save. */
  lemma {:induction false} UpdateMeSaves(tr: ApiTranslation, lang: Option<Value>, us: seq<User>, me: User, body: Fields, now: int,
                      isEmail: string -> bool, isStrongPassword: Secret -> bool, asWritten: bool, k: nat)
    requires FindById(us, me.id) == Some(k)
    requires UpdateMeRefusal(tr, lang, Some(k), body, asWritten).None?
    ensures UpdateMeWith(tr, lang, us, me, body, now, isEmail, isStrongPassword, asWritten)
         == UpdateMeAnswer(us, SaveOutcome(us, AssignBody(us[k], body), "password" in Keys(body), false, now,
                                           isEmail, isStrongPassword))
  {
  }

  /** Without the role and the password in the body, a saved profile update rewrites the caller's document alone. */
  lemma {:induction false} UpdateMeRewrites(tr: ApiTranslation, lang: Option<Value>, us: seq<User>, me: User, body: Fields, now: int,
                         isEmail: string -> bool, isStrongPassword: Secret -> bool, k: nat)
    requires UniqueIds(us) && FindById(us, me.id) == Some(k)
    requires "role" !in Keys(body) && "password" !in Keys(body)
    ensures var h := UpdateMeOutcome(tr, lang, us, me, body, now, isEmail, isStrongPassword);
      h.reply.Respond? ==> h.users == us[k := AssignBody(us[k], body)]
  {
    assert UpdateMeRefusal(tr, lang, Some(k), body, false).None?;
    UpdateMeSaves(tr, lang, us, me, body, now, isEmail, isStrongPassword, false, k);
    ProfileSaveKeeps(us, k, AssignBody(us[k], body), now, isEmail, isStrongPassword);
  }

  /**
   * Corrected, a profile update that succeeds leaves the caller's role
   * and password as they were, and no other user changes
   * (a body naming the role or the password never succeeds).
   */
  lemma {:induction false} UpdateMeKeepsRoleAndPassword(tr: ApiTranslation, lang: Option<Value>, us: seq<User>, me: User, body: Fields, now: int,
                                     isEmail: string -> bool, isStrongPassword: Secret -> bool, k: nat)
    requires UniqueIds(us) && FindById(us, me.id) == Some(k)
    requires "role" !in Keys(body) && "password" !in Keys(body)
    ensures var h := UpdateMeOutcome(tr, lang, us, me, body, now, isEmail, isStrongPassword);
      h.reply.Respond? ==>
      && |h.users| == |us| && h.users[k].id == us[k].id
      && h.users[k].role == us[k].role && h.users[k].password == us[k].password
      && forall j :: 0 <= j < |us| && j != k ==> h.users[j] == us[j]
  {
    UpdateMeRewrites(tr, lang, us, me, body, now, isEmail, isStrongPassword, k);
    var h := UpdateMeOutcome(tr, lang, us, me, body, now, isEmail, isStrongPassword);
    if h.reply.Respond? {
      var written := AssignBody(us[k], body);
      assert h.users == us[k := written];
      AssignKeepsUnnamed(us[k], body);
      assert written.role == us[k].role && written.password == us[k].password;
    }
  }

  /** A save without the password hook rewrites the user with that id and no other. */
  lemma ProfileSaveKeeps(us: seq<User>, k: nat, written: User, now: int, isEmail: string -> bool, isStrongPassword: Secret -> bool)
    requires UniqueIds(us) && k < |us| && written.id == us[k].id
    ensures var h := UpdateMeAnswer(us, SaveOutcome(us, written, false, false, now, isEmail, isStrongPassword));
      h.reply.Respond? ==> h.users == us[k := written]
  {
    FindsTheUser(us, k);
  }

  /** Corrected, a body that names the password is refused 401 whatever its value: `0` and `""` included. */
  lemma UpdateMeRefusesAnyPassword(tr: ApiTranslation, lang: Option<Value>, us: seq<User>, me: User, v: Value, now: int,
                                   isEmail: string -> bool, isStrongPassword: Secret -> bool)
    requires FindById(us, me.id).Some?
    ensures UpdateMeOutcome(tr, lang, us, me, [("password", v)], now, isEmail, isStrongPassword)
         == Handled(Refuse(tr, lang, "passwordUpdateForbidden", 401), us, None)
  {
    assert Keys([("password", v)]) == ["password"];
  }

  /**
   * As written, `{ "password": 0 }` passes the guard: Mongoose casts the
   * number to "0", the hook hashes it, and "0" becomes the caller's
   * password, without the strength validator.
   */
  lemma UpdateMeAsWrittenSetsZero(tr: ApiTranslation, lang: Option<Value>, us: seq<User>, me: User, now: int,
                                  isEmail: string -> bool, isStrongPassword: Secret -> bool, k: nat)
    requires UniqueIds(us) && UniqueEmails(us) && FindById(us, me.id) == Some(k)
    ensures var h := UpdateMeAsWritten(tr, lang, us, me, [("password", Num(0))], now, isEmail, isStrongPassword);
      && h.reply.Respond? && h.reply.status == 200
      && PasswordMatches(Str("0"), h.users[k].password) == Ok(true)
  {
    var body := [("password", Num(0))];
    assert Keys(body) == ["password"];
    assert UpdateMeRefusal(tr, lang, Some(k), body, true).None?;
    UpdateMeSaves(tr, lang, us, me, body, now, isEmail, isStrongPassword, true, k);
    ZeroAssignsZero(us[k]);
    SaveRewrites(us, k, AssignBody(us[k], body), true, false, now, isEmail, isStrongPassword);
  }

  /**
   * Neither guard looks at `passwordChangeAt`, and without a password the
   * hook leaves the assigned stamp in place: `{ "passwordChangeAt": 0 }`
   * saves the stamp 0, after which no token issued since 1970 counts as
   * older than the last password change.
   */
  lemma UpdateMeResetsStamp(tr: ApiTranslation, lang: Option<Value>, us: seq<User>, me: User, now: int,
                            isEmail: string -> bool, isStrongPassword: Secret -> bool, asWritten: bool, k: nat, iat: int)
    requires UniqueIds(us) && UniqueEmails(us) && FindById(us, me.id) == Some(k) && iat >= 0
    ensures var h := UpdateMeWith(tr, lang, us, me, [("passwordChangeAt", Num(0))], now, isEmail, isStrongPassword, asWritten);
      && h.reply.Respond? && h.reply.status == 200
      && h.users[k].passwordChangeAt == Some(0) && PasswordChangedAfter(h.users[k], iat) == Some(false)
  {
    var body := [("passwordChangeAt", Num(0))];
    assert Keys(body) == ["passwordChangeAt"];
    assert UpdateMeRefusal(tr, lang, Some(k), body, asWritten).None?;
    UpdateMeSaves(tr, lang, us, me, body, now, isEmail, isStrongPassword, asWritten, k);
    AssignStamp(us[k], 0);
    SaveRewrites(us, k, us[k].(passwordChangeAt := Some(0)), false, false, now, isEmail, isStrongPassword);
  }

  /** Assigning a number to `passwordChangeAt` stores it as the stamp and changes nothing else. */
  lemma AssignStamp(u: User, n: int)
    requires -MaxTime <= n <= MaxTime
    ensures AssignBody(u, [("passwordChangeAt", Num(n))]) == u.(passwordChangeAt := Some(n))
  {
    assert [("passwordChangeAt", Num(n))][1..] == [];
  }

  /** Assigning the number 0 to the password path stores the string "0". */
  lemma ZeroAssignsZero(u: User)
    ensures AssignBody(u, [("password", Num(0))]) == u.(password := Some(Plain("0")))
  {
    assert IntToString(0) == "0";
    assert [("password", Num(0))][1..] == [];
  }

  // ------------------------------------------------------------- updatePassword

  /** The keys `updatePassword` destructures; any other key is left in `restParams`. */
  const PasswordKeys: seq<string> := ["password", "newPassword", "newPasswordConfirm"]

  predicate OnlyPasswordKeys(body: Fields) {
    forall k :: k in Keys(body) ==> k in PasswordKeys
  }

  /** What `user.comparePassword` throws when `findById` found nobody. */
  const NullCompare: Err := TypeError("Cannot read properties of null (reading 'comparePassword')")

  /** The refusals of `updatePassword` before the lookup, in order, all 401. */
  function PasswordRefusal(tr: ApiTranslation, lang: Option<Value>, body: Fields): (r: Option<Reply>)
    ensures !OnlyPasswordKeys(body) ==> r == Some(Refuse(tr, lang, "onlyPasswordUpdate", 401))
    ensures OnlyPasswordKeys(body) && !TruthyOpt(Get(body, "password")) ==> r == Some(Refuse(tr, lang, "noCurrentPassword", 401))
    ensures OnlyPasswordKeys(body) && TruthyOpt(Get(body, "password"))
            && (!TruthyOpt(Get(body, "newPassword")) || !TruthyOpt(Get(body, "newPasswordConfirm")))
            ==> r == Some(Refuse(tr, lang, "passwordConfirmNotSubmitted", 401))
    ensures r.None? <==> OnlyPasswordKeys(body) && TruthyOpt(Get(body, "password"))
                         && TruthyOpt(Get(body, "newPassword")) && TruthyOpt(Get(body, "newPasswordConfirm"))
                         && StrictlyEqual(Get(body, "newPassword"), Get(body, "newPasswordConfirm"))
    ensures r.Some? ==> r.value.NextError? && r.value.err.statusCode == Some(401)
  {
    if !OnlyPasswordKeys(body) then Some(Refuse(tr, lang, "onlyPasswordUpdate", 401))
    else if !TruthyOpt(Get(body, "password")) then Some(Refuse(tr, lang, "noCurrentPassword", 401))
    else if !TruthyOpt(Get(body, "newPassword")) || !TruthyOpt(Get(body, "newPasswordConfirm")) then
      Some(Refuse(tr, lang, "passwordConfirmNotSubmitted", 401))
    else if !StrictlyEqual(Get(body, "newPassword"), Get(body, "newPasswordConfirm")) then
      Some(Refuse(tr, lang, "passwordAndConfirmPasswordNotSame", 401))
    else None
  }

  /** The user as the handler assigns it before the save: the new password and its confirmation, the counter reset. */
  function PasswordUpdated(u: User, body: Fields): (r: User)
    ensures r.wrongAttemptNumber == 0
    ensures r.id == u.id && r.email == u.email && r.role == u.role && r.isActive == u.isActive
  {
    u.(password := PasswordValue(Get(body, "newPassword")),
       passwordConfirm := CastString(Get(body, "newPasswordConfirm")), wrongAttemptNumber := 0)
  }

  /** `_createAndSendToken` stores the hash of the refresh token it signs for the user. */
  function WithRefreshToken(u: User, env: AuthEnv): (r: User)
    ensures r.id == u.id && r.email == u.email && r.password == u.password && r.passwordChangeAt == u.passwordChangeAt
  {
    u.(refreshToken := Some(env.sha256(env.signTokens(u.id).0)))
  }

  /** The users once the caller, saved as `s`, is given the hash of its new refresh token. */
  function PasswordStore(us: seq<User>, k: nat, s: User, env: AuthEnv): (after: seq<User>)
    requires k < |us|
    ensures |after| == |us| && after[k] == WithRefreshToken(s, env)
    ensures forall j :: 0 <= j < |us| && j != k ==> after[j] == us[j]
  {
    us[k := WithRefreshToken(s, env)]
  }

  /**
   * `updatePassword` for the caller `me`: the checks, the current password,
   * then a save without validation, the login record of a success and
   * `_createAndSendToken`. The save keeps the caller's id and email, so on
   * a consistent store it goes through and rewrites the caller alone
   * (SaveRewrites); the pre-save hook hashes the new password and stamps
   * the change. No validator runs, so the outcome does not depend on them.
   */
  function UpdatePasswordOutcome(tr: ApiTranslation, lang: Option<Value>, us: seq<User>, me: User, body: Fields, now: int,
                                 env: AuthEnv): (h: Handled)
    ensures !h.reply.Respond? ==> h.users == us && h.logged.None?
    ensures PasswordRefusal(tr, lang, body).Some? ==> h.reply == PasswordRefusal(tr, lang, body).value
    ensures PasswordRefusal(tr, lang, body).None? && FindById(us, me.id).None? ==> h.reply == NextError(NullCompare)
  {
    var refusal := PasswordRefusal(tr, lang, body);
    if refusal.Some? then Handled(refusal.value, us, None)
    else
      var found := FindById(us, me.id);
      if found.None? then Handled(NextError(NullCompare), us, None)
      else
        var u := us[found.value];
        match PasswordMatches(Get(body, "password").value, u.password)
        case Fail(e) => Handled(NextError(e), us, None)
        case Ok(false) => Handled(Refuse(tr, lang, "wrongPassword", 401), us, None)
        case Ok(true) =>
          var s := PreSave(PasswordUpdated(u, body), true, now);
          Handled(Respond(200, TokenBody(env.signTokens(s.id).1, WithRefreshToken(s, env), StampSelection)),
                  PasswordStore(us, found.value, s, env), Some(LogFields(Str(s.id), None)))
  }

  /** A right current password: the new one is saved, a refresh token is issued, and the success is logged. */
  lemma {:induction false} UpdatePasswordAccepted(tr: ApiTranslation, lang: Option<Value>, us: seq<User>, me: User, body: Fields,
                               now: int, env: AuthEnv, k: nat)
    requires PasswordRefusal(tr, lang, body).None? && FindById(us, me.id) == Some(k)
    requires PasswordMatches(Get(body, "password").value, us[k].password) == Ok(true)
    ensures var s := PreSave(PasswordUpdated(us[k], body), true, now);
      UpdatePasswordOutcome(tr, lang, us, me, body, now, env)
      == Handled(Respond(200, TokenBody(env.signTokens(s.id).1, WithRefreshToken(s, env), StampSelection)),
                 PasswordStore(us, k, s, env), Some(LogFields(Str(s.id), None)))
  {
  }

  /** A wrong current password is refused 401 without counting as a wrong attempt: nothing is stored or logged. */
  lemma {:induction false} WrongCurrentPasswordCountsNothing(tr: ApiTranslation, lang: Option<Value>, us: seq<User>, me: User, body: Fields,
                                          now: int, env: AuthEnv, k: nat)
    requires PasswordRefusal(tr, lang, body).None? && FindById(us, me.id) == Some(k)
    requires PasswordMatches(Get(body, "password").value, us[k].password) == Ok(false)
    ensures UpdatePasswordOutcome(tr, lang, us, me, body, now, env) == Handled(Refuse(tr, lang, "wrongPassword", 401), us, None)
  {
  }

  /** The saved user: the hash of the new password, no confirmation, the counter at 0, the change stamped. */
  lemma PasswordSavedAs(u: User, body: Fields, p: string, now: int)
    requires Get(body, "newPassword") == Some(Str(p)) && p != ""
    ensures var s := PreSave(PasswordUpdated(u, body), true, now);
      && s.password == Some(Bcrypt(Plain(p))) && s.passwordConfirm.None?
      && s.wrongAttemptNumber == 0 && s.passwordChangeAt == Some(now - 1000)
      && s.id == u.id && s.email == u.email && s.role == u.role && s.isActive == u.isActive
  {
  }

  /**
   * A password update with the right current password rewrites the caller
   * alone: the new password opens the account, the counter is 0 and the
   * hash of a new refresh token is stored; the success is logged.
   */
  lemma {:induction false} UpdatePasswordStoresNew(tr: ApiTranslation, lang: Option<Value>, us: seq<User>, me: User, body: Fields, now: int,
                                env: AuthEnv, k: nat, p: string)
    requires FindById(us, me.id) == Some(k)
    requires PasswordRefusal(tr, lang, body).None? && Get(body, "newPassword") == Some(Str(p))
    requires PasswordMatches(Get(body, "password").value, us[k].password) == Ok(true)
    ensures var h := UpdatePasswordOutcome(tr, lang, us, me, body, now, env);
      && h.reply.Respond? && h.reply.status == 200
      && |h.users| == |us| && (forall j :: 0 <= j < |us| && j != k ==> h.users[j] == us[j])
      && h.users[k].id == us[k].id && h.users[k].email == us[k].email
      && h.users[k].password == Some(Bcrypt(Plain(p))) && h.users[k].wrongAttemptNumber == 0
      && h.users[k].passwordChangeAt == Some(now - 1000)
      && h.users[k].refreshToken == Some(env.sha256(env.signTokens(us[k].id).0))
      && h.logged == Some(LogFields(Str(us[k].id), None))
  {
    PasswordSavedAs(us[k], body, p, now);
  }

  /** Rewriting one user without changing its id keeps the ids unique. */
  lemma RewriteKeepsIds(us: seq<User>, k: nat, u: User)
    requires UniqueIds(us) && k < |us| && u.id == us[k].id
    ensures UniqueIds(us[k := u])
  {
    var after := us[k := u];
    forall a, b | 0 <= a < b < |after| ensures after[a].id != after[b].id {
      assert after[a].id == us[a].id && after[b].id == us[b].id;
    }
  }

  /** Rewriting one user without changing its email keeps the emails unique. */
  lemma RewriteKeepsEmails(us: seq<User>, k: nat, u: User)
    requires UniqueEmails(us) && k < |us| && u.email == us[k].email
    ensures UniqueEmails(us[k := u])
  {
    var after := us[k := u];
    forall a, b | 0 <= a < b < |after| ensures after[a].email != after[b].email {
      assert after[a].email == us[a].email && after[b].email == us[b].email;
    }
  }

  /** After a password update, every access token issued before the change is refused 403 changedPassword. */
  lemma {:induction false} UpdatePasswordRevokesOldTokens(tr: ApiTranslation, lang: Option<Value>, us: seq<User>, me: User, body: Fields, now: int,
                                       env: AuthEnv, k: nat, p: string,
                                       authorization: Option<string>, cookie: Option<string>, verifyAccess: string -> Verified)
    requires UniqueIds(us) && FindById(us, me.id) == Some(k)
    requires PasswordRefusal(tr, lang, body).None? && Get(body, "newPassword") == Some(Str(p))
    requires PasswordMatches(Get(body, "password").value, us[k].password) == Ok(true)
    requires Usable(ExtractToken(authorization, cookie))
    requires var v := verifyAccess(ExtractToken(authorization, cookie).value);
      v.Decoded? && v.claims.id == us[k].id && v.claims.iat < Seconds(now - 1000)
    ensures var h := UpdatePasswordOutcome(tr, lang, us, me, body, now, env);
      ProtectRequest(tr, lang, h.users, authorization, cookie, verifyAccess)
      == Protected(Refuse(tr, lang, "changedPassword", 403), None)
  {
    var after := UpdatePasswordOutcome(tr, lang, us, me, body, now, env).users;
    UpdatePasswordStoresNew(tr, lang, us, me, body, now, env, k, p);
    assert after == us[k := after[k]];
    RewriteKeepsIds(us, k, after[k]);
    StaleTokenForbidden(tr, lang, after, k, authorization, cookie, verifyAccess);
  }

  // ------------------------------------------------------------- autoLogin

  /** The role of the demo account a path logs into: manager on /managerAutoLogin, receptionist on any other path. */
  function AutoLoginRole(path: string): (role: string)
    ensures role == "manager" <==> path == "/managerAutoLogin"
    ensures role != "manager" ==> role == "receptionist"
  {
    if path == "/managerAutoLogin" then "manager" else "receptionist"
  }

  /**
   * `find({ role })` sorted by `autoLoginCouter` (the sort is stable) and
   * `.at(0)`: the position of the first user of that role with the least
   * counter.
   */
  function FirstMinimal(us: seq<User>, role: string): (r: Option<nat>)
    ensures r.Some? ==> r.value < |us| && us[r.value].role == Some(role)
    ensures r.None? ==> forall j :: 0 <= j < |us| ==> us[j].role != Some(role)
  {
    if us == [] then None
    else
      var rest := FirstMinimal(us[1..], role);
      var later := if rest.Some? then Some(rest.value + 1) else None;
      if us[0].role != Some(role) then later
      else if later.Some? && us[later.value].autoLoginCouter < us[0].autoLoginCouter then later
      else Some(0)
  }

  /** The chosen user has the least counter of its role, and every user of that role before it a greater one. */
  lemma {:induction false} FirstMinimalIsLeast(us: seq<User>, role: string)
    requires FirstMinimal(us, role).Some?
    ensures var m := FirstMinimal(us, role).value;
      && (forall j :: 0 <= j < |us| && us[j].role == Some(role) ==> us[m].autoLoginCouter <= us[j].autoLoginCouter)
      && (forall j :: 0 <= j < m && us[j].role == Some(role) ==> us[m].autoLoginCouter < us[j].autoLoginCouter)
  {
    var m := FirstMinimal(us, role).value;
    var rest := FirstMinimal(us[1..], role);
    if rest.Some? {
      FirstMinimalIsLeast(us[1..], role);
    }
    forall j | 0 <= j < |us| && us[j].role == Some(role)
      ensures us[m].autoLoginCouter <= us[j].autoLoginCouter
      ensures j < m ==> us[m].autoLoginCouter < us[j].autoLoginCouter
    {
      if j > 0 {
        assert us[1..][j - 1] == us[j];
      }
    }
  }

  /** `req.body[k] = value`; an `undefined` value leaves the key without a value. */
  function Assigned(body: Fields, k: string, value: Option<string>): (r: Fields)
    ensures Get(r, k) == (if value.Some? then Some(Str(value.value)) else None)
    ensures forall j :: j != k ==> Get(r, j) == Get(body, j)
  {
    if value.Some? then Set(body, k, Str(value.value)) else Delete(body, k)
  }

  /** `req.body.email = email; req.body.password = password`. */
  function Credentials(body: Fields, email: Option<string>, password: Option<string>): (r: Fields)
    ensures Get(r, "email") == (if email.Some? then Some(Str(email.value)) else None)
    ensures Get(r, "password") == (if password.Some? then Some(Str(password.value)) else None)
  {
    Assigned(Assigned(body, "email", email), "password", password)
  }

  /** What `autoLogin` hands to `login`: its own answer, the users as stored, and the request body it rewrote. */
  datatype AutoLogged = AutoLogged(reply: Reply, users: seq<User>, body: Fields)

  /** What reading `.email` of `undefined` throws when the role has no user. */
  const EmailOfUndefined: Err := TypeError("Cannot read properties of undefined (reading 'email')")

  /**
   * `autoLogin` on `path`: the least used demo account of the role gets its
   * counter raised by one in a save without validation, and the body is
   * given its email and SECURE_PASSWORD before `login` runs. The save keeps
   * the account's id and email, so on a consistent store it goes through
   * and rewrites that account alone (SaveRewrites); the pre-save hook
   * leaves it as is, the password not being modified.
   */
  function AutoLoginOutcome(us: seq<User>, path: string, body: Fields, now: int, env: AuthEnv): (a: AutoLogged)
    ensures FirstMinimal(us, AutoLoginRole(path)).None? ==> a == AutoLogged(NextError(EmailOfUndefined), us, body)
    ensures a.reply != Next ==> a.users == us && a.body == body
  {
    match FirstMinimal(us, AutoLoginRole(path))
    case None => AutoLogged(NextError(EmailOfUndefined), us, body)
    case Some(k) => AutoLogged(Next, AutoLoginStore(us, k, now), Credentials(body, us[k].email, env.securePassword))
  }

  /** The users once the chosen account is saved with its counter raised by one. */
  function AutoLoginStore(us: seq<User>, k: nat, now: int): (after: seq<User>)
    requires k < |us|
    ensures |after| == |us| && after[k] == us[k].(autoLoginCouter := us[k].autoLoginCouter + 1)
    ensures forall j :: 0 <= j < |us| && j != k ==> after[j] == us[j]
  {
    us[k := PreSave(us[k].(autoLoginCouter := us[k].autoLoginCouter + 1), false, now)]
  }

  /**
   * With a user of the role, `autoLogin` passes on with the chosen user's
   * email and SECURE_PASSWORD in the body, and raises that user's counter
   * by one and changes nothing else.
   */
  lemma {:induction false} AutoLoginRaisesOne(us: seq<User>, path: string, body: Fields, now: int, env: AuthEnv, k: nat)
    requires FirstMinimal(us, AutoLoginRole(path)) == Some(k)
    ensures var a := AutoLoginOutcome(us, path, body, now, env);
      && a.reply == Next && |a.users| == |us|
      && a.users[k] == us[k].(autoLoginCouter := us[k].autoLoginCouter + 1)
      && (forall j :: 0 <= j < |us| && j != k ==> a.users[j] == us[j])
      && a.body == Credentials(body, us[k].email, env.securePassword)
  {
  }

  /** An email sent as a plain object is a `CastError` handed to the error handler: nothing is stored or logged. */
  lemma {:induction false} ObjectEmailRefused(tr: ApiTranslation, lang: Option<Value>, us: seq<User>, body: Fields, env: AuthEnv, fields: Fields)
    requires Get(body, "email") == Some(Obj(fields)) && DocumentId(fields).None? && TruthyOpt(Get(body, "password"))
    ensures LoginOutcome(tr, lang, us, body, env)
         == Handled(NextError(CastError("email", Coercions.Stringify(Obj(fields)))), us, None)
  {
  }

  /**
   * The body `autoLogin` passes on makes `login` find the account it chose,
   * when that account's email is stored trimmed and SECURE_PASSWORD is set.
   */
  lemma {:induction false} AutoLoginThenLogin(us: seq<User>, path: string, body: Fields, now: int, env: AuthEnv)
    requires UniqueIds(us) && UniqueEmails(us) && FirstMinimal(us, AutoLoginRole(path)).Some?
    requires var k := FirstMinimal(us, AutoLoginRole(path)).value;
      Present(us[k].email) && Trim(us[k].email.value) == us[k].email.value
    requires env.securePassword.Some? && env.securePassword.value != ""
    ensures var k := FirstMinimal(us, AutoLoginRole(path)).value;
      var a := AutoLoginOutcome(us, path, body, now, env);
      var s := LoginDecision(a.users, a.body, env.wrongAttemptRange);
      s.HasUser() && s.i == k
  {
    var k := FirstMinimal(us, AutoLoginRole(path)).value;
    var after := AutoLoginStore(us, k, now);
    var credentials := Credentials(body, us[k].email, env.securePassword);
    assert Get(credentials, "email") == Some(Str(us[k].email.value));
    assert LoginEmail(credentials) == OneOf([Some(Trim(us[k].email.value))]);
    assert Get(credentials, "password") == Some(Str(env.securePassword.value));
    assert Truthy(Str(us[k].email.value)) && Truthy(Str(env.securePassword.value));
    assert Submitted(credentials);
    RewriteKeepsEmails(us, k, after[k]);
    FindByEmailUnique(after, k);
    LoginFinds(after, credentials, env.wrongAttemptRange, k);
  }

  // ------------------------------------------------------------- the controller

  /**
   * The controller over the two collections its handlers write, the users
   * and the login log. Each handler takes the decision of its guard chain,
   * then performs the handler's writes in their order.
   */
  class Controller {
    const translation: ApiTranslation
    const users: UsersTable
    const logs: LoginLogs
    const env: AuthEnv

    ghost predicate Valid()
      reads this, users, logs
    {
      users.Valid() && logs.Valid()
    }

    constructor(translation: ApiTranslation, users: UsersTable, logs: LoginLogs, env: AuthEnv)
      requires users.Valid() && logs.Valid()
      ensures this.translation == translation && this.users == users && this.logs == logs && this.env == env
      ensures Valid()
    {
      this.translation := translation;
      this.users := users;
      this.logs := logs;
      this.env := env;
    }

    /** `_createLoginLog`: the record is created; a refused one would only be printed. */
    method Log(logged: Option<Fields>)
      requires Valid()
      requires logged.Some? ==> Recordable(CastLog(logged.value, logs.definedAt))
      modifies logs
      ensures Valid()
      ensures logs.logs == old(logs.logs) + Recorded(logged, logs.definedAt)
    {
      if logged.Some? {
        var _ := logs.Create(logged.value);
      }
    }

    /** `login`: the guards decide the step, then the step is carried out. */
    method Login(lang: Option<Value>, body: Fields) returns (reply: Reply)
      requires Valid()
      modifies users, logs
      ensures Valid()
      ensures var h := LoginOutcome(translation, lang, old(users.users), body, env);
        && reply == h.reply && users.users == h.users
        && logs.logs == old(logs.logs) + Recorded(h.logged, logs.definedAt)
    {
      var s := LoginDecision(users.users, body, env.wrongAttemptRange);
      LoginOutcomeIs(translation, lang, users.users, body, env);
      reply := Attempt(lang, s);
    }

    /** The counter, the lock, the record and the new refresh token of a login attempt that stopped at `s`. */
    method Attempt(lang: Option<Value>, s: LoginStep) returns (reply: Reply)
      requires Valid() && (s.HasUser() ==> s.i < |users.users|)
      modifies users, logs
      ensures Valid()
      ensures users.users == LoginStore(old(users.users), s, env)
      ensures reply == LoginReply(translation, lang, s, users.users,
                                  if s.Success? then env.signTokens(old(users.users)[s.i].id).1 else "")
      ensures logs.logs == old(logs.logs) + Recorded(LoginLogged(s, old(users.users)), logs.definedAt)
    {
      var access := "";
      if s.WrongPassword? {
        CountWrongAttempt(s);
      } else if s.Success? {
        access := Succeed(s);
      } else {
        var logged := LoginLogged(s, users.users);
        if logged.Some? {
          LoginLogsRecordable(s, users.users, logs.definedAt);
        }
        Log(logged);
      }
      reply := LoginReply(translation, lang, s, users.users, access);
    }

    /** A wrong password: one more wrong attempt, the lock once the range is reached, and the record. */
    method CountWrongAttempt(s: LoginStep)
      requires Valid() && s.WrongPassword? && s.i < |users.users|
      modifies users, logs
      ensures Valid()
      ensures users.users == LoginStore(old(users.users), s, env)
      ensures logs.logs == old(logs.logs) + Recorded(LoginLogged(s, old(users.users)), logs.definedAt)
    {
      var logged := LoginLogged(s, users.users);
      LoginLogsRecordable(s, users.users, logs.definedAt);
      RaiseWrongAttempts(s);
      Log(logged);
    }

    /** The store write of a wrong password: the counter goes up, and the lock is set once the range is reached. */
    method RaiseWrongAttempts(s: LoginStep)
      requires Valid() && s.WrongPassword? && s.i < |users.users|
      modifies users
      ensures Valid()
      ensures users.users == LoginStore(old(users.users), s, env)
    {
      var u := users.users[s.i];
      WrongPasswordStore(users.users, s, env);
      users.Update(s.i, u.(wrongAttemptNumber := u.wrongAttemptNumber + 1,
                           isActive := if s.locks then Some(false) else u.isActive));
    }

    /** A matching password: the counter is reset, the success recorded, and the new refresh token's hash stored. */
    method Succeed(s: LoginStep) returns (access: string)
      requires Valid() && s.Success? && s.i < |users.users|
      modifies users, logs
      ensures Valid()
      ensures users.users == LoginStore(old(users.users), s, env)
      ensures access == env.signTokens(old(users.users)[s.i].id).1
      ensures logs.logs == old(logs.logs) + Recorded(LoginLogged(s, old(users.users)), logs.definedAt)
    {
      var before := users.users;
      LoginStoreWrites(before, s, env);
      var logged := LoginLogged(s, before);
      LoginLogsRecordable(s, before, logs.definedAt);
      var u := before[s.i];
      var refresh;
      refresh, access := env.signTokens(u.id).0, env.signTokens(u.id).1;
      users.Update(s.i, u.(wrongAttemptNumber := 0));
      Log(logged);
      users.Update(s.i, u.(wrongAttemptNumber := 0, refreshToken := Some(env.sha256(refresh))));
      assert users.users == before[s.i := u.(wrongAttemptNumber := 0, refreshToken := Some(env.sha256(refresh)))];
    }

    /** `createNewPasswordAndActivateUser`. */
    method Activate(lang: Option<Value>, token: string, body: Fields, now: int) returns (reply: Reply)
      requires Valid()
      modifies users
      ensures Valid()
      ensures var h := ActivationOutcome(translation, lang, old(users.users), token, body, now, env,
                                         users.isEmail, users.isStrongPassword);
        reply == h.reply && users.users == h.users
    {
      var found := ActivationTarget(users.users, env.sha256(token));
      var refusal := ActivationRefusal(translation, lang, found, body);
      if refusal.Some? {
        return refusal.value;
      }
      var before := users.users;
      var saved := users.Save(Activated(users.users[found.value], body), true, true, now);
      ActivationSaves(translation, lang, before, token, body, now, env, users.isEmail, users.isStrongPassword, found.value);
      reply := ActivationAnswer(translation, lang, before, saved).reply;
    }

    /** `updateMe` for the caller `me`, with the guards as evidently intended. */
    method UpdateMe(lang: Option<Value>, me: User, body: Fields, now: int) returns (reply: Reply)
      requires Valid()
      modifies users
      ensures Valid()
      ensures var h := UpdateMeOutcome(translation, lang, old(users.users), me, body, now,
                                               users.isEmail, users.isStrongPassword);
        reply == h.reply && users.users == h.users
    {
      var found := FindById(users.users, me.id);
      var refusal := UpdateMeRefusal(translation, lang, found, body, false);
      if refusal.Some? {
        return refusal.value;
      }
      var before := users.users;
      var saved := users.Save(AssignBody(users.users[found.value], body), "password" in Keys(body), false, now);
      UpdateMeSaves(translation, lang, before, me, body, now, users.isEmail, users.isStrongPassword, false, found.value);
      reply := UpdateMeAnswer(before, saved).reply;
    }

    /** `updatePassword` for the caller `me`. */
    method UpdatePassword(lang: Option<Value>, me: User, body: Fields, now: int) returns (reply: Reply)
      requires Valid()
      modifies users, logs
      ensures Valid()
      ensures var h := UpdatePasswordOutcome(translation, lang, old(users.users), me, body, now, env);
        && reply == h.reply && users.users == h.users
        && logs.logs == old(logs.logs) + Recorded(h.logged, logs.definedAt)
    {
      ghost var us := users.users;
      ghost var h := UpdatePasswordOutcome(translation, lang, us, me, body, now, env);
      var refusal := PasswordRefusal(translation, lang, body);
      if refusal.Some? {
        assert h == Handled(refusal.value, us, None);
        return refusal.value;
      }
      var found := FindById(users.users, me.id);
      if found.None? {
        assert h == Handled(NextError(NullCompare), us, None);
        return NextError(NullCompare);
      }
      var k := found.value;
      var matches := PasswordMatches(Get(body, "password").value, users.users[k].password);
      if matches.Fail? {
        assert h == Handled(NextError(matches.err), us, None);
        return NextError(matches.err);
      }
      if !matches.value {
        assert h == Handled(Refuse(translation, lang, "wrongPassword", 401), us, None);
        return Refuse(translation, lang, "wrongPassword", 401);
      }
      UpdatePasswordAccepted(translation, lang, users.users, me, body, now, env, k);
      reply := ChangePassword(k, body, now);
    }

    /** The right current password was given for the user at `k`: the new one is saved and a refresh token issued. */
    method ChangePassword(k: nat, body: Fields, now: int) returns (reply: Reply)
      requires Valid() && k < |users.users|
      modifies users, logs
      ensures Valid()
      ensures var s := PreSave(PasswordUpdated(old(users.users)[k], body), true, now);
        && reply == Respond(200, TokenBody(env.signTokens(s.id).1, WithRefreshToken(s, env), StampSelection))
        && users.users == PasswordStore(old(users.users), k, s, env)
        && logs.logs == old(logs.logs) + Recorded(Some(LogFields(Str(s.id), None)), logs.definedAt)
    {
      ghost var before := users.users;
      var s := users.Resave(k, PasswordUpdated(users.users[k], body), true, now);
      StoreRefreshToken(k, s, before);
      reply := Respond(200, TokenBody(env.signTokens(s.id).1, WithRefreshToken(s, env), StampSelection));
    }

    /** After the save: the success is logged and the hash of a new refresh token stored. */
    method StoreRefreshToken(k: nat, s: User, ghost before: seq<User>)
      requires Valid() && k < |before| && users.users == before[k := s]
      modifies users, logs
      ensures Valid()
      ensures users.users == PasswordStore(before, k, s, env)
      ensures logs.logs == old(logs.logs) + Recorded(Some(LogFields(Str(s.id), None)), logs.definedAt)
    {
      Log(Some(LogFields(Str(s.id), None)));
      users.Update(k, WithRefreshToken(s, env));
      assert users.users == before[k := WithRefreshToken(s, env)];
    }

    /** `autoLogin` on `path`; besides its answer it returns the body it hands to `login`. */
    method AutoLogin(path: string, body: Fields, now: int) returns (reply: Reply, forwarded: Fields)
      requires Valid()
      modifies users
      ensures Valid()
      ensures var a := AutoLoginOutcome(old(users.users), path, body, now, env);
        reply == a.reply && users.users == a.users && forwarded == a.body
    {
      var found := FirstMinimal(users.users, AutoLoginRole(path));
      if found.None? {
        return NextError(EmailOfUndefined), body;
      }
      var u := users.users[found.value];
      RaiseCounter(found.value, now);
      reply, forwarded := Next, Credentials(body, u.email, env.securePassword);
    }

    /** The save of the chosen account with its counter raised by one, without validation. */
    method RaiseCounter(k: nat, now: int)
      requires Valid() && k < |users.users|
      modifies users
      ensures Valid()
      ensures users.users == AutoLoginStore(old(users.users), k, now)
    {
      var u := users.users[k];
      var _ := users.Resave(k, u.(autoLoginCouter := u.autoLoginCouter + 1), false, now);
    }
  }
}
