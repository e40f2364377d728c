/**
 * The users schema: field validators, defaults, the password hook that
 * hashes the password and stamps `passwordChangeAt` on a save that holds a password, the
 * `passwordChangedAfter` check on a token's issue time, and the users
 * collection with its unique email index.
 */
module UsersModel {
  import opened Wrappers
  import opened Json
  import opened Strings
  import opened AppErrors
  import opened Casts

  const Roles: seq<string> := ["receptionist", "manager", "admin", "superAdmin"]

  /** What the `password` path holds: a value as assigned, or bcrypt's hash (cost 12) of what it held. */
  datatype Secret = Plain(text: string) | Bcrypt(of: Secret)

  /** A user document; `None` is a path that is `undefined` or `null`. */
  datatype User = User(
    id: string,
    email: Option<string>,
    fullName: Option<string>,
    fullNameLowerCase: Option<string>,
    role: Option<string>,
    avatar: Option<string>,
    password: Option<Secret>,
    passwordConfirm: Option<string>,
    passwordChangeAt: Option<int>,     // milliseconds
    isActive: Option<bool>,
    lang: Option<string>,
    darkMode: Option<bool>,
    wrongAttemptNumber: int,
    refreshToken: Option<string>,
    firstActivateToken: Option<string>,
    autoLoginCouter: int)

  /** A truthy password: present and not the empty string. */
  predicate HasPassword(p: Option<Secret>) {
    p.Some? && p.value != Plain("")
  }

  // ------------------------------------------------------------- validators

  /**
   * What the validators check on a save that validates: `isEmail` and
   * `isStrongPassword` are the validator library's predicates.
   * `fullNameLowerCase` is left out: the only validating save works on a
   * document that did not select it, and Mongoose skips such paths.
   */
  predicate Admissible(u: User, isEmail: string -> bool, isStrongPassword: Secret -> bool) {
    Present(u.email) && isEmail(u.email.value)
    && Present(u.fullName) && Utf16Length(u.fullName.value) <= 70
    && Present(u.role) && u.role.value in Roles
    && HasPassword(u.password) && isStrongPassword(u.password.value)
    && Present(u.passwordConfirm) && u.password == Some(Plain(u.passwordConfirm.value))
    && (u.lang.Some? ==> Utf16Length(u.lang.value) == 2)
  }

  function IdentityMessages(u: User, isEmail: string -> bool): (ms: seq<string>)
    ensures ms == [] <==> Present(u.email) && isEmail(u.email.value) && Present(u.fullName) && Utf16Length(u.fullName.value) <= 70
  {
    (if !Present(u.email) then ["A user must have an e-mail address."]
     else Check(isEmail(u.email.value), "Please submit a valid e-mail address"))
    + (if !Present(u.fullName) then ["A user must have a name"]
       else Check(Utf16Length(u.fullName.value) <= 70, "A user name cano not exceeed 70 characters."))
  }

  function RoleMessages(u: User): (ms: seq<string>)
    ensures ms == [] <==> Present(u.role) && u.role.value in Roles
  {
    if !Present(u.role) then ["A user must have a role."]
    else Check(u.role.value in Roles, "Please submit a valid role")
  }

  /** The password paths, validated on the value as assigned, before the hook hashes it. */
  function PasswordMessages(u: User, isStrongPassword: Secret -> bool): (ms: seq<string>)
    ensures ms == [] <==>
      HasPassword(u.password) && isStrongPassword(u.password.value)
      && Present(u.passwordConfirm) && u.password == Some(Plain(u.passwordConfirm.value))
  {
    (if !HasPassword(u.password) then ["Please provide a valid password."]
     else Check(isStrongPassword(u.password.value), "This password does not meet the criteria."))
    + (if !Present(u.passwordConfirm) then ["Please confirm your password."]
       else Check(u.password == Some(Plain(u.passwordConfirm.value)), "Passwords are not the same."))
  }

  /**
   * The message of the first failing validator of each path. The paths are
   * listed in schema order, not in the order Mongoose runs their validators.
   */
  function UserMessages(u: User, isEmail: string -> bool, isStrongPassword: Secret -> bool): (ms: seq<string>)
    ensures ms == [] <==> Admissible(u, isEmail, isStrongPassword)
  {
    IdentityMessages(u, isEmail) + RoleMessages(u) + PasswordMessages(u, isStrongPassword)
    + (if u.lang.Some? then Check(Utf16Length(u.lang.value) == 2, "Language code should be 2 digit!") else [])
  }

  /** A confirmation that differs from the password is refused with its own message. */
  lemma ConfirmationMustMatch(u: User, isEmail: string -> bool, isStrongPassword: Secret -> bool)
    requires HasPassword(u.password) && isStrongPassword(u.password.value)
    requires Present(u.passwordConfirm) && u.password != Some(Plain(u.passwordConfirm.value))
    ensures "Passwords are not the same." in UserMessages(u, isEmail, isStrongPassword)
  {
    var p := PasswordMessages(u, isStrongPassword);
    assert p == ["Passwords are not the same."];
    var ms := UserMessages(u, isEmail, isStrongPassword);
    var pre := IdentityMessages(u, isEmail) + RoleMessages(u);
    assert ms[|pre|] == p[0];
  }

  /** A role outside the four known ones is refused. */
  lemma UnknownRoleRefused(u: User, isEmail: string -> bool, isStrongPassword: Secret -> bool)
    requires u.role == Some("guest")
    ensures "Please submit a valid role" in UserMessages(u, isEmail, isStrongPassword)
  {
    assert "guest"[0] != "receptionist"[0] && "guest"[0] != "manager"[0];
    assert "guest"[0] != "admin"[0] && "guest"[0] != "superAdmin"[0];
    assert RoleMessages(u) == ["Please submit a valid role"];
    var ms := UserMessages(u, isEmail, isStrongPassword);
    assert ms[|IdentityMessages(u, isEmail)|] == "Please submit a valid role";
  }

  /**
   * A language code whose `length` is not two is refused, and its message is
   * among those reported, wherever the order of validation puts it.
   */
  lemma LanguageCodeLength(u: User, isEmail: string -> bool, isStrongPassword: Secret -> bool)
    requires u.lang.Some? && Utf16Length(u.lang.value) != 2
    ensures !Admissible(u, isEmail, isStrongPassword)
    ensures "Language code should be 2 digit!" in UserMessages(u, isEmail, isStrongPassword)
  {
    var ms := UserMessages(u, isEmail, isStrongPassword);
    assert ms[|ms| - 1] == "Language code should be 2 digit!";
  }

  // ------------------------------------------------------------- password hook and token age

  /**
   * The pre-save hook. When the document holds a truthy password it is
   * hashed, `passwordConfirm` is cleared and `passwordChangeAt` is set to one
   * second before `now`. Otherwise the hook calls `next()` at once and the
   * hash of the missing value fails after the save has gone on, so nothing
   * changes. `passwordSeen` says whether the document holds the password
   * (it was selected or assigned).
   */
  function PreSave(u: User, passwordSeen: bool, now: int): (r: User)
    ensures passwordSeen && HasPassword(u.password) ==>
      r.password == Some(Bcrypt(u.password.value)) && r.passwordConfirm.None? && r.passwordChangeAt == Some(now - 1000)
    ensures r.(password := u.password, passwordConfirm := u.passwordConfirm, passwordChangeAt := u.passwordChangeAt) == u
    ensures !(passwordSeen && HasPassword(u.password)) ==> r == u
  {
    if passwordSeen && HasPassword(u.password) then
      u.(password := Some(Bcrypt(u.password.value)), passwordConfirm := None, passwordChangeAt := Some(now - 1000))
    else u
  }

  /** `parseInt(ms / 1000)`: the quotient truncated toward zero. */
  function Seconds(ms: int): (s: int)
    ensures ms >= 0 ==> s == ms / 1000
    ensures ms < 0 ==> s == -((-ms) / 1000)
  {
    if ms >= 0 then ms / 1000 else -((-ms) / 1000)
  }

  /** What reading `passwordChangeAt.getTime()` throws on a user that never had it set. */
  const GetTimeOfUndefined: Err := TypeError("Cannot read properties of undefined (reading 'getTime')")

  /** `passwordChangedAfter(iat)`: `None` when it throws. */
  function PasswordChangedAfter(u: User, iat: int): (r: Option<bool>)
    ensures r.None? <==> u.passwordChangeAt.None?
  {
    if u.passwordChangeAt.None? then None else Some(iat < Seconds(u.passwordChangeAt.value))
  }

  /** A token issued at or after the save that stamped the password is never stale. */
  lemma TokenAfterSaveIsFresh(u: User, now: int, iat: int)
    requires HasPassword(u.password) && now >= 1000 && iat >= now / 1000
    ensures PasswordChangedAfter(PreSave(u, true, now), iat) == Some(false)
  {
    assert (now - 1000) / 1000 == now / 1000 - 1;
  }

  /** A token is stale after the save exactly when it was issued more than a second before the stamp's second. */
  lemma StaleTokenIff(u: User, now: int, iat: int)
    requires HasPassword(u.password) && now >= 1000
    ensures PasswordChangedAfter(PreSave(u, true, now), iat) == Some(true) <==> iat < now / 1000 - 1
  {
    assert (now - 1000) / 1000 == now / 1000 - 1;
  }

  /** A negative stamp truncates toward zero, not down: -1500 ms is second -1. */
  lemma StampTruncatesTowardZero()
    ensures Seconds(-1500) == -1
  {
  }

  /** `comparePassword(candidate, stored)`, i.e. `bcrypt.compare`; it throws without a hash or without a string candidate. */
  function PasswordMatches(candidate: Value, stored: Option<Secret>): (r: Outcome<bool>)
    ensures r == Ok(true) <==> candidate.Str? && stored == Some(Bcrypt(Plain(candidate.s)))
    ensures r.Fail? <==> stored.None? || !candidate.Str?
  {
    if stored.None? || candidate == Null then Fail(PlainError("data and hash arguments required"))
    else if !candidate.Str? then Fail(PlainError("data must be a string or Buffer and hash must be strings"))
    else Ok(stored.value == Bcrypt(Plain(candidate.s)))
  }

  /**
   * Every save of a document holding a password hashes it again: a save that
   * holds the stored hash without assigning a new password would leave a
   * password nobody can enter.
   */
  lemma SavingAHashRehashes(u: User, p: string, now: int)
    requires u.password == Some(Bcrypt(Plain(p)))
    ensures PasswordMatches(Str(p), u.password) == Ok(true)
    ensures PasswordMatches(Str(p), PreSave(u, true, now).password) == Ok(false)
  {
  }

  // ------------------------------------------------------------- documents

  /** A value assigned to the `password` path. */
  function PasswordValue(v: Option<Value>): (r: Option<Secret>)
    ensures r.None? <==> CastString(v).None?
    ensures r.Some? ==> r.value == Plain(CastString(v).value)
  {
    if CastString(v).Some? then Some(Plain(CastString(v).value)) else None
  }

  /**
   * `new Users({ email, fullName, role: "receptionist", isActive: false,
   * firstActivateToken })` as `createNewUser` builds it, with the defaults of
   * the schema; `None` when the default of `fullNameLowerCase` throws for a
   * missing full name.
   */
  function NewUser(body: Fields, id: string, activationHash: string): (r: Option<User>)
    ensures r.None? <==> CastString(Get(body, "fullName")).None?
    ensures r.Some? ==> r.value.id == id && r.value.role == Some("receptionist") && r.value.isActive == Some(false)
    ensures r.Some? ==> r.value.firstActivateToken == Some(activationHash) && r.value.password.None?
    ensures r.Some? ==> r.value.email == Trimmed(CastString(Get(body, "email")))
    ensures r.Some? ==> r.value.fullName == Trimmed(CastString(Get(body, "fullName")))
    ensures r.Some? ==> r.value.fullNameLowerCase == Lowered(r.value.fullName)
    ensures r.Some? ==> r.value.lang == Some("en") && r.value.darkMode == Some(false)
    ensures r.Some? ==> r.value.wrongAttemptNumber == 0 && r.value.autoLoginCouter == 0
  {
    var fullName := Trimmed(CastString(Get(body, "fullName")));
    if fullName.None? then None
    else Some(User(id, Trimmed(CastString(Get(body, "email"))), fullName, Lowered(fullName),
                   Some("receptionist"), None, None, None, None, Some(false), Some("en"), Some(false), 0,
                   None, Some(activationHash), 0))
  }

  /** The paths of type `String`, `password` among them. */
  const StringPaths: seq<string> := ["email", "fullName", "fullNameLowerCase", "role", "avatar", "password",
    "passwordConfirm", "lang", "refreshToken", "firstActivateToken"]

  /**
   * A value the cast of path `k` refuses. Mongoose records the cast error and
   * the path keeps its value; the saves that assign a body skip validation,
   * so the error is never reported.
   */
  predicate Refused(k: string, v: Value) {
    (k in StringPaths && StringFails(Some(v)))
    || ((k == "isActive" || k == "darkMode") && BoolFails(Some(v)))
    || ((k == "wrongAttemptNumber" || k == "autoLoginCouter") && NumberFails(Some(v)))
  }

  /** A counter receiving a value: `null` and the empty string, which the cast makes `null`, are kept as 0. */
  function CounterValue(v: Value): (r: int)
    requires !NumberFails(Some(v))
    ensures v.Num? ==> r == v.n
    ensures v == Null || v == Str("") ==> r == 0
  {
    CastNumber(Some(v)).GetOr(0)
  }

  /** `doc[k] = v` through the cast and setters of path `k`; an unknown key or `_id` changes nothing. */
  function SetPath(u: User, k: string, v: Value): (r: User)
    ensures Refused(k, v) ==> r == u
    ensures r.id == u.id
    ensures k != "email" ==> r.email == u.email
    ensures k != "fullName" ==> r.fullName == u.fullName
    ensures k != "fullNameLowerCase" ==> r.fullNameLowerCase == u.fullNameLowerCase
    ensures k != "role" ==> r.role == u.role
    ensures k != "avatar" ==> r.avatar == u.avatar
    ensures k != "password" ==> r.password == u.password
    ensures k != "passwordConfirm" ==> r.passwordConfirm == u.passwordConfirm
    ensures k != "passwordChangeAt" ==> r.passwordChangeAt == u.passwordChangeAt
    ensures k != "isActive" ==> r.isActive == u.isActive
    ensures k != "lang" ==> r.lang == u.lang
    ensures k != "darkMode" ==> r.darkMode == u.darkMode
    ensures k != "wrongAttemptNumber" ==> r.wrongAttemptNumber == u.wrongAttemptNumber
    ensures k != "refreshToken" ==> r.refreshToken == u.refreshToken
    ensures k != "firstActivateToken" ==> r.firstActivateToken == u.firstActivateToken
    ensures k != "autoLoginCouter" ==> r.autoLoginCouter == u.autoLoginCouter
    ensures k == "email" && v.Str? ==> r.email == Some(Trim(v.s))
    ensures k == "role" && v.Str? ==> r.role == Some(v.s)
    ensures k == "password" && v.Str? ==> r.password == Some(Plain(v.s))
    ensures k == "password" && v.Num? ==> r.password == Some(Plain(IntToString(v.n)))
    ensures k in StringPaths && v == Null ==> r == SetPathToNull(u, k)
    ensures k == "isActive" && TrueValue(v) ==> r.isActive == Some(true)
    ensures k == "isActive" && FalseValue(v) ==> r.isActive == Some(false)
    ensures k == "isActive" && v == Null ==> r.isActive.None?
    ensures k == "passwordChangeAt" && v.Num? && TimeClip(v.n).Some? ==> r.passwordChangeAt == Some(v.n)
    ensures k == "passwordChangeAt" && (v == Null || v == Str("")) ==> r.passwordChangeAt.None?
  {
    var s := CastString(Some(v));
    if Refused(k, v) then u
    else if k == "email" then u.(email := Trimmed(s))
    else if k == "fullName" then u.(fullName := Trimmed(s))
    else if k == "fullNameLowerCase" then u.(fullNameLowerCase := Trimmed(s))
    else if k == "role" then u.(role := s)
    else if k == "avatar" then u.(avatar := s)
    else if k == "password" then u.(password := PasswordValue(Some(v)))
    else if k == "passwordConfirm" then u.(passwordConfirm := s)
    else if k == "passwordChangeAt" then u.(passwordChangeAt := StampValue(v, u.passwordChangeAt))
    else if k == "isActive" then u.(isActive := BoolValue(v))
    else if k == "lang" then u.(lang := s)
    else if k == "darkMode" then u.(darkMode := BoolValue(v))
    else if k == "wrongAttemptNumber" then u.(wrongAttemptNumber := CounterValue(v))
    else if k == "refreshToken" then u.(refreshToken := s)
    else if k == "firstActivateToken" then u.(firstActivateToken := s)
    else if k == "autoLoginCouter" then u.(autoLoginCouter := CounterValue(v))
    else u
  }

  /** The user with string path `k` unset. */
  function SetPathToNull(u: User, k: string): (r: User)
    requires k in StringPaths
  {
    if k == "email" then u.(email := None)
    else if k == "fullName" then u.(fullName := None)
    else if k == "fullNameLowerCase" then u.(fullNameLowerCase := None)
    else if k == "role" then u.(role := None)
    else if k == "avatar" then u.(avatar := None)
    else if k == "password" then u.(password := None)
    else if k == "passwordConfirm" then u.(passwordConfirm := None)
    else if k == "lang" then u.(lang := None)
    else if k == "refreshToken" then u.(refreshToken := None)
    else u.(firstActivateToken := None)
  }

  /**
   * The `Date` cast of a value assigned to `passwordChangeAt`: a number
   * within the range of a `Date` is that many milliseconds, `null` and the
   * empty string clear the path; any other value leaves the stamp as it was.
   */
  function StampValue(v: Value, stamp: Option<int>): (r: Option<int>)
    ensures v.Num? && TimeClip(v.n).Some? ==> r == Some(v.n)
    ensures v == Null || v == Str("") ==> r.None?
    ensures !v.Num? && v != Null && v != Str("") ==> r == stamp
  {
    match v
    case Num(n) => if TimeClip(n).Some? then Some(n) else stamp
    case Null => None
    case Str(t) => if t == "" then None else stamp
    case _ => stamp
  }

  /** `Object.assign(doc, body)`: the entries assigned in order. */
  function AssignBody(u: User, body: Fields): (r: User)
    ensures r.id == u.id
    decreases |body|
  {
    if body == [] then u else AssignBody(SetPath(u, body[0].0, body[0].1), body[1..])
  }

  /** Paths the body does not name keep their value. */
  lemma {:induction false} AssignKeepsUnnamed(u: User, body: Fields)
    ensures "role" !in Keys(body) ==> AssignBody(u, body).role == u.role
    ensures "password" !in Keys(body) ==> AssignBody(u, body).password == u.password
    ensures "email" !in Keys(body) ==> AssignBody(u, body).email == u.email
    ensures "firstActivateToken" !in Keys(body) ==> AssignBody(u, body).firstActivateToken == u.firstActivateToken
    decreases |body|
  {
    if body != [] {
      AssignKeepsUnnamed(SetPath(u, body[0].0, body[0].1), body[1..]);
      assert Keys(body) == [body[0].0] + Keys(body[1..]);
    }
  }

  /** A body naming the role once sets it to the cast of its value. */
  lemma {:induction false} AssignSetsRole(u: User, body: Fields, v: Value)
    requires UniqueKeys(body) && Get(body, "role") == Some(v) && !StringFails(Some(v))
    ensures AssignBody(u, body).role == CastString(Some(v))
    decreases |body|
  {
    if body[0].0 == "role" {
      AssignKeepsUnnamed(SetPath(u, body[0].0, body[0].1), body[1..]);
    } else {
      AssignSetsRole(SetPath(u, body[0].0, body[0].1), body[1..], v);
    }
  }

  /** What a query adds to the default selection: `+firstActivateToken`, `+passwordChangeAt`. */
  datatype Selection = Selection(activateToken: bool, changeStamp: bool)

  const DefaultSelection := Selection(false, false)

  /**
   * The paths a read can show, in schema order. `fullNameLowerCase`,
   * `password`, `wrongAttemptNumber`, `refreshToken` and `autoLoginCouter`
   * are `select: false` or removed before sending; `passwordChangeAt` and
   * `firstActivateToken` are shown when the query selects them.
   */
  const UserPaths: seq<string> := ["_id", "email", "fullName", "role", "avatar", "passwordConfirm",
    "passwordChangeAt", "isActive", "lang", "darkMode", "firstActivateToken"]

  lemma UserPathsDistinct()
    ensures Distinct(UserPaths)
  {
  }

  function UserValues(u: User, sel: Selection): (vs: seq<Option<Value>>)
    ensures |vs| == |UserPaths|
  {
    [Some(Str(u.id)), StrOf(u.email), StrOf(u.fullName), StrOf(u.role), StrOf(u.avatar), StrOf(u.passwordConfirm),
     if sel.changeStamp then NumOf(u.passwordChangeAt) else None,
     BoolOf(u.isActive), StrOf(u.lang), BoolOf(u.darkMode),
     if sel.activateToken then StrOf(u.firstActivateToken) else None]
  }

  /** Each path of a user document reads as its value. */
  lemma UserReads(vs: seq<Option<Value>>)
    requires |vs| == |UserPaths|
    ensures var fs := Document(UserPaths, vs);
      && Get(fs, "_id") == vs[0] && Get(fs, "email") == vs[1] && Get(fs, "fullName") == vs[2]
      && Get(fs, "role") == vs[3] && Get(fs, "avatar") == vs[4] && Get(fs, "passwordConfirm") == vs[5]
      && Get(fs, "passwordChangeAt") == vs[6] && Get(fs, "isActive") == vs[7] && Get(fs, "lang") == vs[8]
      && Get(fs, "darkMode") == vs[9] && Get(fs, "firstActivateToken") == vs[10]
  {
    UserPathsDistinct();
    DocumentGet(UserPaths, vs, 0);
    DocumentGet(UserPaths, vs, 1);
    DocumentGet(UserPaths, vs, 2);
    DocumentGet(UserPaths, vs, 3);
    DocumentGet(UserPaths, vs, 4);
    DocumentGet(UserPaths, vs, 5);
    DocumentGet(UserPaths, vs, 6);
    DocumentGet(UserPaths, vs, 7);
    DocumentGet(UserPaths, vs, 8);
    DocumentGet(UserPaths, vs, 9);
    DocumentGet(UserPaths, vs, 10);
  }

  /** A user as a response shows it and a filter reads it, under the selection `sel`. */
  function UserFields(u: User, sel: Selection): (fs: Fields)
    ensures Get(fs, "_id") == Some(Str(u.id))
    ensures Get(fs, "role") == StrOf(u.role)
  {
    var vs := UserValues(u, sel);
    UserReads(vs);
    DocumentOf11(UserPaths, vs);
    Entry("_id", vs[0]) + (Entry("email", vs[1]) + (Entry("fullName", vs[2]) + (
    Entry("role", vs[3]) + (Entry("avatar", vs[4]) + (Entry("passwordConfirm", vs[5]) + (
    Entry("passwordChangeAt", vs[6]) + (Entry("isActive", vs[7]) + (Entry("lang", vs[8]) + (
    Entry("darkMode", vs[9]) + (Entry("firstActivateToken", vs[10])))))))))))
  }

  lemma UserFieldsIsDocument(u: User, sel: Selection)
    ensures UserFields(u, sel) == Document(UserPaths, UserValues(u, sel))
  {
    DocumentOf11(UserPaths, UserValues(u, sel));
  }

  /** The profile paths are shown as stored, whatever the selection. */
  lemma UserFieldsShowProfile(u: User, sel: Selection)
    ensures var fs := UserFields(u, sel);
      && Get(fs, "email") == StrOf(u.email)
      && Get(fs, "fullName") == StrOf(u.fullName)
      && Get(fs, "avatar") == StrOf(u.avatar)
      && Get(fs, "passwordConfirm") == StrOf(u.passwordConfirm)
      && Get(fs, "isActive") == BoolOf(u.isActive)
      && Get(fs, "lang") == StrOf(u.lang)
      && Get(fs, "darkMode") == BoolOf(u.darkMode)
  {
    UserFieldsIsDocument(u, sel);
    UserReads(UserValues(u, sel));
  }

  /** The stamp and the activation token are shown exactly when the query selects them and they are set. */
  lemma UserFieldsShowSelected(u: User, sel: Selection)
    ensures var fs := UserFields(u, sel);
      && (Get(fs, "passwordChangeAt").Some? <==> sel.changeStamp && u.passwordChangeAt.Some?)
      && (sel.changeStamp ==> Get(fs, "passwordChangeAt") == NumOf(u.passwordChangeAt))
      && (Get(fs, "firstActivateToken").Some? <==> sel.activateToken && u.firstActivateToken.Some?)
      && (sel.activateToken ==> Get(fs, "firstActivateToken") == StrOf(u.firstActivateToken))
  {
    var vs := UserValues(u, sel);
    UserFieldsIsDocument(u, sel);
    UserReads(vs);
    assert Get(UserFields(u, sel), "passwordChangeAt") == vs[6];
    assert Get(UserFields(u, sel), "firstActivateToken") == vs[10];
  }

  /** No other path is shown: the password, the refresh token and the counters never leave the store. */
  lemma UserFieldsHideTheRest(u: User, sel: Selection, k: string)
    requires k !in UserPaths
    ensures Get(UserFields(u, sel), k).None?
  {
    UserFieldsIsDocument(u, sel);
    DocumentKeys(UserPaths, UserValues(u, sel), k);
  }

  // ------------------------------------------------------------- the collection

  ghost predicate UniqueIds(us: seq<User>) {
    forall i, j :: 0 <= i < j < |us| ==> us[i].id != us[j].id
  }

  /** The unique index on `email`; a missing email is indexed as `null`, so two users without one collide too. */
  ghost predicate UniqueEmails(us: seq<User>) {
    forall i, j :: 0 <= i < j < |us| ==> us[i].email != us[j].email
  }

  /** `findById`: the position of the user with that id. */
  function FindById(us: seq<User>, id: string): (r: Option<nat>)
    ensures r.None? <==> forall i :: 0 <= i < |us| ==> us[i].id != id
    ensures r.Some? ==> r.value < |us| && us[r.value].id == id
    ensures r.Some? ==> forall i :: 0 <= i < r.value ==> us[i].id != id
  {
    if us == [] then None
    else if us[0].id == id then Some(0)
    else match FindById(us[1..], id)
      case None => None
      case Some(i) => Some(i + 1)
  }

  /** With unique ids, `findById` finds the stored user with that id. */
  lemma FindsTheUser(us: seq<User>, i: nat)
    requires UniqueIds(us) && i < |us|
    ensures FindById(us, us[i].id) == Some(i)
  {
  }

  /** Another user already holds the email of `u`. */
  predicate EmailTaken(us: seq<User>, u: User) {
    exists j :: 0 <= j < |us| && us[j].id != u.id && us[j].email == u.email
  }

  /** The stored collection after writing `u`: it replaces the user with its id, or is appended. */
  function Upsert(us: seq<User>, u: User): (r: seq<User>)
    ensures FindById(us, u.id).Some? ==> r == us[FindById(us, u.id).value := u]
    ensures FindById(us, u.id).None? ==> r == us + [u]
  {
    match FindById(us, u.id)
    case Some(i) => us[i := u]
    case None => us + [u]
  }

  lemma UpsertKeepsConsistent(us: seq<User>, u: User)
    requires UniqueIds(us) && UniqueEmails(us) && !EmailTaken(us, u)
    ensures UniqueIds(Upsert(us, u)) && UniqueEmails(Upsert(us, u))
  {
    var r := Upsert(us, u);
    forall i, j | 0 <= i < j < |r| ensures r[i].id != r[j].id && r[i].email != r[j].email {
      if FindById(us, u.id).None? {
        if j == |us| {
          assert r[i] == us[i];
        }
      }
    }
  }

  /** `save()`: validation when asked for, then the hook, then the unique index. */
  function SaveOutcome(us: seq<User>, u: User, passwordSeen: bool, validate: bool, now: int,
                       isEmail: string -> bool, isStrongPassword: Secret -> bool): (r: Outcome<User>)
    ensures validate && !Admissible(u, isEmail, isStrongPassword) ==>
      r == Fail(ValidationError(UserMessages(u, isEmail, isStrongPassword)))
    ensures r.Ok? <==> (!validate || Admissible(u, isEmail, isStrongPassword)) && !EmailTaken(us, PreSave(u, passwordSeen, now))
    ensures r.Ok? ==> r.value == PreSave(u, passwordSeen, now)
    ensures r.Fail? && (!validate || Admissible(u, isEmail, isStrongPassword)) ==> r == Fail(DuplicateKeyError(["email"]))
  {
    if validate && UserMessages(u, isEmail, isStrongPassword) != [] then
      Fail(ValidationError(UserMessages(u, isEmail, isStrongPassword)))
    else
      var s := PreSave(u, passwordSeen, now);
      if EmailTaken(us, s) then Fail(DuplicateKeyError(["email"])) else Ok(s)
  }

  /** Rewriting a stored user without touching its email never meets the unique index. */
  lemma SameEmailNotTaken(us: seq<User>, i: nat, u: User)
    requires UniqueIds(us) && UniqueEmails(us) && i < |us| && u.id == us[i].id && u.email == us[i].email
    ensures !EmailTaken(us, u)
  {
  }

  /**
   * Saving a stored user again, with its id and email unchanged and past
   * validation, succeeds and rewrites that user alone.
   */
  lemma SaveRewrites(us: seq<User>, k: nat, u: User, passwordSeen: bool, validate: bool, now: int,
                     isEmail: string -> bool, isStrongPassword: Secret -> bool)
    requires UniqueIds(us) && UniqueEmails(us) && k < |us| && u.id == us[k].id && u.email == us[k].email
    requires validate ==> Admissible(u, isEmail, isStrongPassword)
    ensures SaveOutcome(us, u, passwordSeen, validate, now, isEmail, isStrongPassword) == Ok(PreSave(u, passwordSeen, now))
    ensures Upsert(us, PreSave(u, passwordSeen, now)) == us[k := PreSave(u, passwordSeen, now)]
  {
    SameEmailNotTaken(us, k, PreSave(u, passwordSeen, now));
    FindsTheUser(us, k);
  }

  class UsersTable {
    var users: seq<User>
    const isEmail: string -> bool
    const isStrongPassword: Secret -> bool

    ghost predicate Valid()
      reads this
    {
      UniqueIds(users) && UniqueEmails(users)
    }

    constructor(users: seq<User>, isEmail: string -> bool, isStrongPassword: Secret -> bool)
      requires UniqueIds(users) && UniqueEmails(users)
      ensures this.users == users && this.isEmail == isEmail && this.isStrongPassword == isStrongPassword
      ensures Valid()
    {
      this.users := users;
      this.isEmail := isEmail;
      this.isStrongPassword := isStrongPassword;
    }

    /** `doc.save()` (`validate`) or `doc.save({ validateBeforeSave: false })`. */
    method Save(u: User, passwordSeen: bool, validate: bool, now: int) returns (r: Outcome<User>)
      requires Valid()
      modifies this`users
      ensures Valid()
      ensures r == SaveOutcome(old(users), u, passwordSeen, validate, now, isEmail, isStrongPassword)
      ensures r.Ok? ==> users == Upsert(old(users), r.value)
      ensures r.Fail? ==> users == old(users)
    {
      if validate && UserMessages(u, isEmail, isStrongPassword) != [] {
        return Fail(ValidationError(UserMessages(u, isEmail, isStrongPassword)));
      }
      var s := PreSave(u, passwordSeen, now);
      if EmailTaken(users, s) {
        return Fail(DuplicateKeyError(["email"]));
      }
      UpsertKeepsConsistent(users, s);
      users := Upsert(users, s);
      r := Ok(s);
    }

    /**
     * `doc.save({ validateBeforeSave: false })` on a document read from the
     * store whose id and email are the stored ones: the save goes through
     * and rewrites that entry alone (SaveRewrites).
     */
    method Resave(k: nat, u: User, passwordSeen: bool, now: int) returns (s: User)
      requires Valid() && k < |users| && u.id == users[k].id && u.email == users[k].email
      modifies this`users
      ensures Valid()
      ensures s == PreSave(u, passwordSeen, now) && users == old(users)[k := s]
    {
      SaveRewrites(users, k, u, passwordSeen, false, now, isEmail, isStrongPassword);
      var saved := Save(u, passwordSeen, false, now);
      s := saved.value;
    }

    /** `updateOne({ _id }, update)` on paths other than the email: no validation, no hook. */
    method Update(i: nat, u: User)
      requires Valid() && i < |users| && u.id == users[i].id && u.email == users[i].email
      modifies this`users
      ensures Valid()
      ensures users == old(users)[i := u]
    {
      SameEmailNotTaken(users, i, u);
      UpsertKeepsConsistent(users, u);
      assert FindById(users, u.id) == Some(i);
      users := users[i := u];
    }

    /** `deleteOne({ _id: id })`. */
    method Delete(id: string)
      requires Valid()
      modifies this`users
      ensures Valid()
      ensures FindById(old(users), id).None? ==> users == old(users)
      ensures FindById(old(users), id).Some? ==>
        users == old(users)[..FindById(old(users), id).value] + old(users)[FindById(old(users), id).value + 1..]
    {
      var found := FindById(users, id);
      if found.Some? {
        var k := found.value;
        ghost var before := users;
        users := users[..k] + users[k + 1..];
        forall i, j | 0 <= i < j < |users| ensures users[i].id != users[j].id && users[i].email != users[j].email {
          var i', j' := if i < k then i else i + 1, if j < k then j else j + 1;
          assert users[i] == before[i'] && users[j] == before[j'];
        }
      }
    }
  }
}
