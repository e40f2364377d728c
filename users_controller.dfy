/**
 * The users controller: the role restriction it stores for the handlers
 * that follow, the creation of an account the new user activates through a
 * mailed link, an administrator's update of a user, the reset of a user's
 * password, and the guard that keeps two accounts from being deleted.
 *
 * `UsersController` holds what the JavaScript controller object shares
 * between requests: the part it inherits from `ApiController` (the
 * restrictions), the users collection and the mails handed to the
 * transport. Each handler is specified by a function of the stored users
 * and the request; the methods perform the same steps on the collection and
 * are proved to agree with those functions.
 */
module UsersControllers {
  import opened Wrappers
  import opened Json
  import opened AppErrors
  import opened Casts
  import opened Http
  import opened ApiTranslation
  import opened UsersModel
  import opened Filters
  import opened ApiControllers
  import AuthController

  // ------------------------------------------------------------- setRolesRestriction

  /** The key `roleHierarchy[role]` reads: a caller without a role reads the key "undefined". */
  function RoleKey(role: Option<string>): string {
    if role.Some? then role.value else "undefined"
  }

  /** `roleHierarchy[role] || []`, where `hierarchy` is the `roleHierarchy` table. */
  function VisibleRoles(hierarchy: string -> Option<seq<string>>, role: Option<string>): seq<string> {
    hierarchy(RoleKey(role)).GetOr([])
  }

  function StrValues(xs: seq<string>): (vs: seq<Value>)
    ensures |vs| == |xs| && forall i :: 0 <= i < |xs| ==> vs[i] == Str(xs[i])
  {
    seq(|xs|, i requires 0 <= i < |xs| => Str(xs[i]))
  }

  /** A string value is in the list of string values exactly when the string is in the list. */
  lemma StrValuesHold(xs: seq<string>, x: string)
    ensures Str(x) in StrValues(xs) <==> x in xs
  {
    var vs := StrValues(xs);
    if x in xs {
      var i :| 0 <= i < |xs| && xs[i] == x;
      assert vs[i] == Str(x);
    }
  }

  /** `_rolesRestriction` as `setRolesRestriction` sets it for the caller `me`. */
  function RolesRestrictionFor(me: User, hierarchy: string -> Option<seq<string>>): (r: Fields)
    ensures r == [] <==> me.role == Some("superAdmin")
    ensures r != [] ==> |r| == 1 && r[0].0 == "role"
  {
    if me.role == Some("superAdmin") then []
    else [("role", Obj([("$in", Arr(StrValues(VisibleRoles(hierarchy, me.role))))]))]
  }

  /** A one-entry filter on an ordinary key asks the condition of the field under that key. */
  lemma OneClause(doc: Fields, k: string, c: Value, ext: OpOracle)
    requires k != "$and" && k != "$or"
    ensures Matches(doc, [(k, c)], ext) <==> FieldHolds(Get(doc, k), c, ext)
  {
    assert ClauseHolds(doc, Obj([(k, c)]), 0, ext) <==> FieldHolds(Get(doc, k), c, ext);
  }

  /** `{ $in: items }` holds of a present value in the list, and of nothing else. */
  lemma InMeaning(v: Option<Value>, items: seq<Value>, ext: OpOracle)
    ensures FieldHolds(v, Obj([("$in", Arr(items))]), ext) <==> v.Some? && v.value in items
  {
    var c := Obj([("$in", Arr(items))]);
    assert StartsWithDollar("$in") && IsOperatorObject(c);
    assert "$in"[1] != "$eq"[1] && "$in"[1] != "$ne"[1];
    assert OpHolds("$in", v, Arr(items), c, ext) <==> v.Some? && v.value in items;
    assert FieldHolds(v, c, ext) <==> OpHolds(c.fields[0].0, v, c.fields[0].1, c, ext);
  }

  /** A user passes the role restriction exactly when the caller is a superAdmin or sees the user's role. */
  lemma RestrictionMeaning(me: User, hierarchy: string -> Option<seq<string>>, u: User, ext: OpOracle)
    ensures Matches(UserFields(u, DefaultSelection), RolesRestrictionFor(me, hierarchy), ext)
        <==> me.role == Some("superAdmin") || (u.role.Some? && u.role.value in VisibleRoles(hierarchy, me.role))
  {
    if me.role != Some("superAdmin") {
      var xs := VisibleRoles(hierarchy, me.role);
      var doc := UserFields(u, DefaultSelection);
      OneClause(doc, "role", Obj([("$in", Arr(StrValues(xs)))]), ext);
      InMeaning(Get(doc, "role"), StrValues(xs), ext);
      if u.role.Some? {
        StrValuesHold(xs, u.role.value);
      }
    }
  }

  const WritingMethods: seq<string> := ["POST", "PATCH", "PUT"]

  /** `req.body?.role && !visibleRoles.includes(req.body?.role)`. */
  predicate AsksHiddenRole(body: Fields, visible: seq<string>) {
    TruthyOpt(Get(body, "role")) && !(Get(body, "role").value.Str? && Get(body, "role").value.s in visible)
  }

  /** What `setRolesRestriction` does with the request after storing the restriction. */
  function RolesReply(tr: ApiTranslation, lang: Option<Value>, me: User, httpMethod: string, body: Fields,
                      hierarchy: string -> Option<seq<string>>): (r: Reply)
    ensures r == Next || r == Refuse(tr, lang, "unAuthorized", 401)
  {
    if me.role != Some("superAdmin") && httpMethod in WritingMethods && AsksHiddenRole(body, VisibleRoles(hierarchy, me.role))
    then Refuse(tr, lang, "unAuthorized", 401)
    else Next
  }

  /** A superAdmin is never refused and its restriction lets every user through. */
  lemma SuperAdminSeesEveryone(tr: ApiTranslation, lang: Option<Value>, me: User, httpMethod: string, body: Fields,
                               hierarchy: string -> Option<seq<string>>, u: User, ext: OpOracle)
    requires me.role == Some("superAdmin")
    ensures RolesReply(tr, lang, me, httpMethod, body, hierarchy) == Next
    ensures Matches(UserFields(u, DefaultSelection), RolesRestrictionFor(me, hierarchy), ext)
  {
    RestrictionMeaning(me, hierarchy, u, ext);
  }

  /** A caller whose role has no hierarchy entry sees nobody: the restriction refuses every user. */
  lemma UnlistedRoleSeesNobody(me: User, hierarchy: string -> Option<seq<string>>, u: User, ext: OpOracle)
    requires me.role != Some("superAdmin") && hierarchy(RoleKey(me.role)).None?
    ensures !Matches(UserFields(u, DefaultSelection), RolesRestrictionFor(me, hierarchy), ext)
  {
    RestrictionMeaning(me, hierarchy, u, ext);
  }

  /** A request that does not write (GET, DELETE, ...) only has the restriction stored; it is never refused. */
  lemma ReadsNeverRefused(tr: ApiTranslation, lang: Option<Value>, me: User, httpMethod: string, body: Fields,
                          hierarchy: string -> Option<seq<string>>)
    requires httpMethod !in WritingMethods
    ensures RolesReply(tr, lang, me, httpMethod, body, hierarchy) == Next
  {
  }

  /**
   * A write by anyone but a superAdmin that gets through names no role, a
   * falsy one, or a role the caller sees — and then the role it stores is
   * one the caller sees.
   */
  lemma PassedWriteNamesVisibleRole(tr: ApiTranslation, lang: Option<Value>, me: User, httpMethod: string, body: Fields,
                                    hierarchy: string -> Option<seq<string>>)
    requires me.role != Some("superAdmin") && httpMethod in WritingMethods
    requires RolesReply(tr, lang, me, httpMethod, body, hierarchy) == Next
    requires TruthyOpt(Get(body, "role"))
    ensures Get(body, "role").value.Str? && Get(body, "role").value.s in VisibleRoles(hierarchy, me.role)
    ensures CastString(Get(body, "role")) == Some(Get(body, "role").value.s)
  {
  }

  /** A write naming a role the caller does not see is refused 401, whatever else it holds. */
  lemma HiddenRoleRefused(tr: ApiTranslation, lang: Option<Value>, me: User, httpMethod: string, body: Fields,
                          hierarchy: string -> Option<seq<string>>, role: string)
    requires me.role != Some("superAdmin") && httpMethod in WritingMethods
    requires Get(body, "role") == Some(Str(role)) && role != "" && role !in VisibleRoles(hierarchy, me.role)
    ensures RolesReply(tr, lang, me, httpMethod, body, hierarchy) == Refuse(tr, lang, "unAuthorized", 401)
  {
  }

  // ------------------------------------------------------------- updateUser

  /** What a handler that does not mail does: its answer and the users stored afterwards. */
  datatype Stored = Stored(reply: Reply, users: seq<User>)

  /** The stored users as the conditions of `findOne` read them. */
  function Docs(us: seq<User>): (ds: seq<Fields>)
    ensures |ds| == |us| && forall i :: 0 <= i < |us| ==> ds[i] == UserFields(us[i], DefaultSelection)
  {
    seq(|us|, i requires 0 <= i < |us| => UserFields(us[i], DefaultSelection))
  }

  /** `{ _id: id, ..._userRestriction, ..._rolesRestriction }` for a caller that set no ownership restriction. */
  function UpdateFilter(id: string, me: User, hierarchy: string -> Option<seq<string>>): Fields {
    SpreadOpt(SpreadOpt([("_id", Str(id))], None), Some(RolesRestrictionFor(me, hierarchy)))
  }

  /** The conditions of `updateUser` hold of a user exactly when it has the id and passes the role restriction. */
  lemma UpdateFilterMeaning(id: string, me: User, hierarchy: string -> Option<seq<string>>, u: User, ext: OpOracle)
    ensures Matches(UserFields(u, DefaultSelection), UpdateFilter(id, me, hierarchy), ext)
        <==> u.id == id && (me.role == Some("superAdmin") || (u.role.Some? && u.role.value in VisibleRoles(hierarchy, me.role)))
  {
    var a := [("_id", Str(id))];
    var b := RolesRestrictionFor(me, hierarchy);
    assert FreshKeys(a, b) by {
      assert Keys(a) == ["_id"];
      if b != [] {
        assert Keys(b[1..]) == [];
        assert "role"[0] != "_id"[0];
      }
    }
    SpreadDisjoint(a, b);
    MatchesConcat(UserFields(u, DefaultSelection), a, b, ext);
    MatchesEquality(UserFields(u, DefaultSelection), "_id", Str(id), ext);
    RestrictionMeaning(me, hierarchy, u, ext);
  }

  /** The refusals of `updateUser` before the assignment, in order. */
  function UpdateUserRefusal(tr: ApiTranslation, lang: Option<Value>, us: seq<User>, found: Option<nat>, body: Fields): (r: Option<Reply>)
    requires found.Some? ==> found.value < |us|
    ensures found.None? ==> r == Some(Refuse(tr, lang, "noDocument", 404))
    ensures found.Some? && Present(us[found.value].firstActivateToken) && TruthyOpt(Get(body, "isActive"))
            ==> r == Some(Refuse(tr, lang, "userNotRegistered", 401))
    ensures r.None? <==> found.Some? && !(Present(us[found.value].firstActivateToken) && TruthyOpt(Get(body, "isActive")))
  {
    if found.None? then Some(Refuse(tr, lang, "noDocument", 404))
    else if Present(us[found.value].firstActivateToken) && TruthyOpt(Get(body, "isActive")) then
      Some(Refuse(tr, lang, "userNotRegistered", 401))
    else None
  }

  /** The answer to the save of the updated user: the saved document, or the save's error. */
  function UpdateUserAnswer(us: seq<User>, saved: Outcome<User>): (h: Stored)
    ensures saved.Fail? ==> h == Stored(NextError(saved.err), us)
    ensures saved.Ok? ==> h.reply.Respond? && h.reply.status == 200 && h.users == Upsert(us, saved.value)
  {
    match saved
    case Fail(e) => Stored(NextError(e), us)
    case Ok(u) => Stored(Respond(200, Envelope("success", Obj([("doc", Obj(UserFields(u, Selection(true, false))))]))), Upsert(us, u))
  }

  /**
   * `updateUser`: the first user matching `filter` gets every body entry
   * assigned and is saved without validation. The password path is not
   * selected, so the hook sees a password only when the body assigns one.
   */
  function UpdateUserOutcome(tr: ApiTranslation, lang: Option<Value>, us: seq<User>, filter: Fields, body: Fields, now: int,
                             ext: OpOracle, isEmail: string -> bool, isStrongPassword: Secret -> bool): (h: Stored)
    ensures !h.reply.Respond? ==> h.users == us
    ensures FindFirst(Docs(us), filter, ext).None? ==> h == Stored(Refuse(tr, lang, "noDocument", 404), us)
  {
    var found := FindFirst(Docs(us), filter, ext);
    var refusal := UpdateUserRefusal(tr, lang, us, found, body);
    if refusal.Some? then Stored(refusal.value, us)
    else UpdateUserAnswer(us, SaveOutcome(us, AssignBody(us[found.value], body), "password" in Keys(body), false, now,
                                          isEmail, isStrongPassword))
  }

  /** Past the refusals, the answer is the answer to the save. */
  lemma {:induction false} UpdateUserSaves(tr: ApiTranslation, lang: Option<Value>, us: seq<User>, filter: Fields, body: Fields, now: int,
                        ext: OpOracle, isEmail: string -> bool, isStrongPassword: Secret -> bool, k: nat)
    requires FindFirst(Docs(us), filter, ext) == Some(k)
    requires UpdateUserRefusal(tr, lang, us, Some(k), body).None?
    ensures UpdateUserOutcome(tr, lang, us, filter, body, now, ext, isEmail, isStrongPassword)
         == UpdateUserAnswer(us, SaveOutcome(us, AssignBody(us[k], body), "password" in Keys(body), false, now,
                                             isEmail, isStrongPassword))
  {
  }

  /**
   * An update answered with a document matched a user, passed the refusals
   * and saved that user with the body assigned; the answer is the saved user.
   */
  lemma {:induction false} UpdateUserResponded(tr: ApiTranslation, lang: Option<Value>, us: seq<User>, filter: Fields, body: Fields, now: int,
                            ext: OpOracle, isEmail: string -> bool, isStrongPassword: Secret -> bool)
    requires UpdateUserOutcome(tr, lang, us, filter, body, now, ext, isEmail, isStrongPassword).reply.Respond?
    ensures FindFirst(Docs(us), filter, ext).Some?
    ensures var k := FindFirst(Docs(us), filter, ext).value;
      var s := PreSave(AssignBody(us[k], body), "password" in Keys(body), now);
      var h := UpdateUserOutcome(tr, lang, us, filter, body, now, ext, isEmail, isStrongPassword);
      && !(Present(us[k].firstActivateToken) && TruthyOpt(Get(body, "isActive")))
      && !EmailTaken(us, s)
      && h == Stored(Respond(200, Envelope("success", Obj([("doc", Obj(UserFields(s, Selection(true, false))))]))), Upsert(us, s))
  {
    var k := FindFirst(Docs(us), filter, ext).value;
    UpdateUserSaves(tr, lang, us, filter, body, now, ext, isEmail, isStrongPassword, k);
  }

  /** A user that has not activated its account cannot be made active by an update: 401, nothing changes. */
  lemma {:induction false} PendingUserNotActivated(tr: ApiTranslation, lang: Option<Value>, us: seq<User>, filter: Fields, body: Fields, now: int,
                                ext: OpOracle, isEmail: string -> bool, isStrongPassword: Secret -> bool, k: nat)
    requires FindFirst(Docs(us), filter, ext) == Some(k)
    requires Present(us[k].firstActivateToken) && TruthyOpt(Get(body, "isActive"))
    ensures UpdateUserOutcome(tr, lang, us, filter, body, now, ext, isEmail, isStrongPassword)
         == Stored(Refuse(tr, lang, "userNotRegistered", 401), us)
  {
  }

  /**
   * An update that gets past the refusals and leaves the email alone is
   * answered 200 and rewrites the matched user alone, with its id kept.
   */
  lemma {:induction false} UpdateUserRewrites(tr: ApiTranslation, lang: Option<Value>, us: seq<User>, filter: Fields, body: Fields, now: int,
                           ext: OpOracle, isEmail: string -> bool, isStrongPassword: Secret -> bool, k: nat)
    requires UniqueIds(us) && UniqueEmails(us)
    requires FindFirst(Docs(us), filter, ext) == Some(k)
    requires !(Present(us[k].firstActivateToken) && TruthyOpt(Get(body, "isActive")))
    requires "email" !in Keys(body)
    ensures var h := UpdateUserOutcome(tr, lang, us, filter, body, now, ext, isEmail, isStrongPassword);
      var s := PreSave(AssignBody(us[k], body), "password" in Keys(body), now);
      && h.reply == Respond(200, Envelope("success", Obj([("doc", Obj(UserFields(s, Selection(true, false))))])))
      && h.users == us[k := s] && s.id == us[k].id && s.email == us[k].email
  {
    var u := AssignBody(us[k], body);
    AssignKeepsUnnamed(us[k], body);
    SaveRewrites(us, k, u, "password" in Keys(body), false, now, isEmail, isStrongPassword);
    UpdateUserSaves(tr, lang, us, filter, body, now, ext, isEmail, isStrongPassword, k);
  }

  /**
   * Through `setRolesRestriction` and `updateUser`, a caller other than a
   * superAdmin only ever rewrites a user it sees, with the requested id, and
   * a role the body sets is one the caller sees.
   */
  lemma {:induction false} PatchStaysWithinVisibleRoles(tr: ApiTranslation, lang: Option<Value>, us: seq<User>, me: User, id: string,
                                     body: Fields, now: int, hierarchy: string -> Option<seq<string>>, ext: OpOracle,
                                     isEmail: string -> bool, isStrongPassword: Secret -> bool)
    requires me.role != Some("superAdmin") && UniqueKeys(body)
    requires RolesReply(tr, lang, me, "PATCH", body, hierarchy) == Next
    ensures var h := UpdateUserOutcome(tr, lang, us, UpdateFilter(id, me, hierarchy), body, now, ext, isEmail, isStrongPassword);
      h.reply.Respond? ==>
        var k := FindFirst(Docs(us), UpdateFilter(id, me, hierarchy), ext).value;
        var s := PreSave(AssignBody(us[k], body), "password" in Keys(body), now);
        && us[k].id == id && us[k].role.Some? && us[k].role.value in VisibleRoles(hierarchy, me.role)
        && h.users == Upsert(us, s)
        && (TruthyOpt(Get(body, "role")) ==> s.role.Some? && s.role.value in VisibleRoles(hierarchy, me.role))
  {
    var filter := UpdateFilter(id, me, hierarchy);
    var h := UpdateUserOutcome(tr, lang, us, filter, body, now, ext, isEmail, isStrongPassword);
    if h.reply.Respond? {
      UpdateUserResponded(tr, lang, us, filter, body, now, ext, isEmail, isStrongPassword);
      var k := FindFirst(Docs(us), filter, ext).value;
      assert Matches(Docs(us)[k], filter, ext);
      UpdateFilterMeaning(id, me, hierarchy, us[k], ext);
      if TruthyOpt(Get(body, "role")) {
        PatchedRoleVisible(tr, lang, me, body, hierarchy, us[k], "password" in Keys(body), now);
      }
    }
  }

  /** A role that a PATCH past `setRolesRestriction` writes is one the caller sees. */
  lemma PatchedRoleVisible(tr: ApiTranslation, lang: Option<Value>, me: User, body: Fields,
                           hierarchy: string -> Option<seq<string>>, u: User, passwordSeen: bool, now: int)
    requires me.role != Some("superAdmin") && UniqueKeys(body)
    requires RolesReply(tr, lang, me, "PATCH", body, hierarchy) == Next && TruthyOpt(Get(body, "role"))
    ensures var s := PreSave(AssignBody(u, body), passwordSeen, now);
      s.role.Some? && s.role.value in VisibleRoles(hierarchy, me.role)
  {
    PassedWriteNamesVisibleRole(tr, lang, me, "PATCH", body, hierarchy);
    AssignSetsRole(u, body, Get(body, "role").value);
  }

  // ------------------------------------------------------------- mails

  /** A mail as `Email.send` hands it to the transport: the recipient, the subject and the link in its text. */
  datatype Mail = Mail(to: Option<string>, subject: string, link: string)

  /** `${req.protocol}://bungalow.onyilprojects.com/activateUser/${activateToken}`. */
  function ActivationLink(protocol: string, token: string): (l: string)
    ensures |l| >= |token| && l[|l| - |token|..] == token
  {
    protocol + "://bungalow.onyilprojects.com/activateUser/" + token
  }

  /** `new Email(user, link).sendWelcome()`. */
  function WelcomeMail(u: User, link: string): Mail {
    Mail(u.email, "Account Created", link)
  }

  /** `new Email(user, link).sendResetPassword()`. */
  function ResetMail(u: User, link: string): Mail {
    Mail(u.email, "Create New Password", link)
  }

  /** What a mailing handler does: its answer, the users stored afterwards, and the mails it sent. */
  datatype Mailed = Mailed(reply: Reply, users: seq<User>, sent: seq<Mail>)

  // ------------------------------------------------------------- createNewUser

  /** The answer to a created account: its email, its name and the activationMailSend message. */
  function CreatedBody(tr: ApiTranslation, lang: Option<Value>, u: User): Value {
    Envelope("success", Obj([("doc", Obj(StrEntry("email", u.email) + StrEntry("name", u.fullName)
                                          + [("message", Str(Message(tr, lang, "activationMailSend")))]))]))
  }

  /**
   * `createNewUser`: the new document, with id `id` and the hash of the
   * random token `token`, is saved without validation; the welcome mail
   * carries the token itself. `deliver` says whether the transport accepts a
   * mail. When it does not, the user is deleted again.
   */
  function CreateNewUserOutcome(tr: ApiTranslation, lang: Option<Value>, us: seq<User>, body: Fields, id: string,
                                token: string, protocol: string, sha256: string -> string,
                                deliver: Mail -> bool): (h: Mailed)
    ensures NewUser(body, id, sha256(token)).None? ==> h == Mailed(NextError(LowerCaseOfUndefined), us, [])
    ensures !h.reply.Respond? ==> h.users == us && h.sent == []
  {
    match NewUser(body, id, sha256(token))
    case None => Mailed(NextError(LowerCaseOfUndefined), us, [])
    case Some(u) =>
      if EmailTaken(us, u) then Mailed(NextError(DuplicateKeyError(["email"])), us, [])
      else
        var m := WelcomeMail(u, ActivationLink(protocol, token));
        if deliver(m) then Mailed(Respond(201, CreatedBody(tr, lang, u)), us + [u], [m])
        else Mailed(Refuse(tr, lang, "emailSendError", 500), us, [])
  }

  /**
   * A created account is appended as an inactive receptionist without a
   * password, holding only the hash of the token, and the one mail sent goes
   * to its address with the token in the link.
   */
  lemma {:induction false} CreatedAsInactiveReceptionist(tr: ApiTranslation, lang: Option<Value>, us: seq<User>, body: Fields, id: string,
                                      token: string, protocol: string, sha256: string -> string, deliver: Mail -> bool)
    requires CreateNewUserOutcome(tr, lang, us, body, id, token, protocol, sha256, deliver).reply.Respond?
    ensures NewUser(body, id, sha256(token)).Some?
    ensures var h := CreateNewUserOutcome(tr, lang, us, body, id, token, protocol, sha256, deliver);
      var u := NewUser(body, id, sha256(token)).value;
      && h.users == us + [u] && !EmailTaken(us, u)
      && u.id == id && u.role == Some("receptionist") && u.isActive == Some(false)
      && u.firstActivateToken == Some(sha256(token)) && u.password.None? && u.refreshToken.None?
      && u.email == Trimmed(CastString(Get(body, "email")))
      && h.sent == [Mail(u.email, "Account Created", ActivationLink(protocol, token))]
      && h.reply == Respond(201, CreatedBody(tr, lang, u))
  {
  }

  /** When the welcome mail cannot be sent the account is removed again and the answer is 500 emailSendError. */
  lemma {:induction false} UnsentWelcomeUndoesCreation(tr: ApiTranslation, lang: Option<Value>, us: seq<User>, body: Fields, id: string,
                                    token: string, protocol: string, sha256: string -> string, deliver: Mail -> bool)
    requires NewUser(body, id, sha256(token)).Some? && !EmailTaken(us, NewUser(body, id, sha256(token)).value)
    requires !deliver(WelcomeMail(NewUser(body, id, sha256(token)).value, ActivationLink(protocol, token)))
    ensures CreateNewUserOutcome(tr, lang, us, body, id, token, protocol, sha256, deliver)
         == Mailed(Refuse(tr, lang, "emailSendError", 500), us, [])
  {
  }

  /** An email already stored for another user is refused by the unique index. */
  lemma {:induction false} TakenEmailRefused(tr: ApiTranslation, lang: Option<Value>, us: seq<User>, body: Fields, id: string,
                          token: string, protocol: string, sha256: string -> string, deliver: Mail -> bool, j: nat)
    requires NewUser(body, id, sha256(token)).Some? && j < |us| && us[j].id != id
    requires us[j].email == Trimmed(CastString(Get(body, "email")))
    ensures CreateNewUserOutcome(tr, lang, us, body, id, token, protocol, sha256, deliver)
         == Mailed(NextError(DuplicateKeyError(["email"])), us, [])
  {
  }

  /**
   * The link of the welcome mail works: activation with its token finds
   * the new account, unless an older inactive account waits on the same hash.
   */
  lemma {:induction false} WelcomeLinkActivates(tr: ApiTranslation, lang: Option<Value>, us: seq<User>, body: Fields, id: string,
                             token: string, protocol: string, sha256: string -> string, deliver: Mail -> bool)
    requires CreateNewUserOutcome(tr, lang, us, body, id, token, protocol, sha256, deliver).reply.Respond?
    requires forall j :: 0 <= j < |us| ==> !(us[j].firstActivateToken == Some(sha256(token)) && us[j].isActive == Some(false))
    ensures AuthController.ActivationTarget(CreateNewUserOutcome(tr, lang, us, body, id, token, protocol, sha256, deliver).users,
                                            sha256(token)) == Some(|us|)
  {
    CreatedAsInactiveReceptionist(tr, lang, us, body, id, token, protocol, sha256, deliver);
    ActivationFindsAppended(us, NewUser(body, id, sha256(token)).value, sha256(token));
  }

  /** Before activation the new account cannot log in: the login stops at "no password yet". */
  lemma {:induction false} CreatedCannotLogIn(tr: ApiTranslation, lang: Option<Value>, us: seq<User>, body: Fields, id: string,
                           token: string, protocol: string, sha256: string -> string, deliver: Mail -> bool,
                           login: Fields, range: Option<int>)
    requires FindById(us, id).None? && sha256(token) != ""
    requires CreateNewUserOutcome(tr, lang, us, body, id, token, protocol, sha256, deliver).reply.Respond?
    requires AuthController.Submitted(login)
    requires AuthController.LoginEmail(login) == OneOf([Trimmed(CastString(Get(body, "email")))])
    requires Trimmed(CastString(Get(body, "email"))).Some?
    ensures var h := CreateNewUserOutcome(tr, lang, us, body, id, token, protocol, sha256, deliver);
      AuthController.LoginDecision(h.users, login, range) == AuthController.NoPasswordYet(|us|)
  {
    CreatedAsInactiveReceptionist(tr, lang, us, body, id, token, protocol, sha256, deliver);
    var u := NewUser(body, id, sha256(token)).value;
    assert forall j :: 0 <= j < |us| ==> us[j].email != u.email by {
      forall j | 0 <= j < |us| ensures us[j].email != u.email {
        assert us[j].id != u.id;
      }
    }
    FindByEmailAppended(us, u);
    assert (us + [u])[|us|] == u;
    AuthController.LoginBeforePassword(us + [u], login, range, |us|);
  }

  /** The lookup by email finds a user just appended when no user before it has its email. */
  lemma {:induction false} FindByEmailAppended(us: seq<User>, u: User)
    requires u.email.Some? && forall i :: 0 <= i < |us| ==> us[i].email != u.email
    ensures AuthController.FindByEmail(us + [u], OneOf([u.email])) == Some(|us|)
  {
    if us != [] {
      assert (us + [u])[1..] == us[1..] + [u];
      FindByEmailAppended(us[1..], u);
    }
  }

  /** Activation finds a user just appended when no user before it waits on the same hash. */
  lemma {:induction false} ActivationFindsAppended(us: seq<User>, u: User, hash: string)
    requires u.firstActivateToken == Some(hash) && u.isActive == Some(false)
    requires forall i :: 0 <= i < |us| ==> !(us[i].firstActivateToken == Some(hash) && us[i].isActive == Some(false))
    ensures AuthController.ActivationTarget(us + [u], hash) == Some(|us|)
  {
    if us != [] {
      assert (us + [u])[1..] == us[1..] + [u];
      ActivationFindsAppended(us[1..], u, hash);
    }
  }

  // ------------------------------------------------------------- resetUserPassword

  /** What `roleHierarchy[req.user.role].includes` throws when the caller's role has no entry. */
  const IncludesOfUndefined: Err := TypeError("Cannot read properties of undefined (reading 'includes')")

  /** The assignment of the reset: no password, inactive, no wrong attempts, no refresh token, a new activation hash. */
  function ResetUser(u: User, hash: string): (r: User)
    ensures r.id == u.id && r.email == u.email && r.role == u.role && r.fullName == u.fullName
  {
    u.(password := None, passwordConfirm := None, isActive := Some(false), wrongAttemptNumber := 0,
       refreshToken := None, firstActivateToken := Some(hash))
  }

  /** The refusals of `resetUserPassword`, in order. */
  function ResetRefusal(tr: ApiTranslation, lang: Option<Value>, us: seq<User>, me: User, found: Option<nat>,
                        hierarchy: string -> Option<seq<string>>): (r: Option<Reply>)
    requires found.Some? ==> found.value < |us|
    ensures found.None? ==> r == Some(Refuse(tr, lang, "noUser", 400))
    ensures found.Some? && hierarchy(RoleKey(me.role)).None? ==> r == Some(NextError(IncludesOfUndefined))
    ensures r.None? <==> found.Some? && hierarchy(RoleKey(me.role)).Some?
                         && us[found.value].role.Some? && us[found.value].role.value in hierarchy(RoleKey(me.role)).value
  {
    if found.None? then Some(Refuse(tr, lang, "noUser", 400))
    else match hierarchy(RoleKey(me.role))
      case None => Some(NextError(IncludesOfUndefined))
      case Some(visible) =>
        var role := us[found.value].role;
        if !(role.Some? && role.value in visible) then Some(Refuse(tr, lang, "unAuthorized", 401)) else None
  }

  /** The stored users after the reset of the user at `k`. */
  function ResetStore(us: seq<User>, k: nat, hash: string): (after: seq<User>)
    requires k < |us|
    ensures |after| == |us| && after[k] == ResetUser(us[k], hash)
    ensures forall j :: 0 <= j < |us| && j != k ==> after[j] == us[j]
  {
    us[k := ResetUser(us[k], hash)]
  }

  function ResetBody(tr: ApiTranslation, lang: Option<Value>): Value {
    Obj([("status", Str("success")), ("message", Str(Message(tr, lang, "resetPassword")))])
  }

  /**
   * `resetUserPassword` by the caller `me` for the user `userId`, with the
   * random token `token`. The reset is saved before the mail is sent and is
   * kept when the mail fails.
   */
  function ResetUserPasswordOutcome(tr: ApiTranslation, lang: Option<Value>, us: seq<User>, me: User, userId: string,
                                    token: string, protocol: string, sha256: string -> string,
                                    hierarchy: string -> Option<seq<string>>, deliver: Mail -> bool): (h: Mailed)
    ensures FindById(us, userId).None? ==> h == Mailed(Refuse(tr, lang, "noUser", 400), us, [])
    ensures |h.sent| <= 1 && (h.sent != [] <==> h.reply.Respond?)
  {
    var found := FindById(us, userId);
    var refusal := ResetRefusal(tr, lang, us, me, found, hierarchy);
    if refusal.Some? then Mailed(refusal.value, us, [])
    else
      var after := ResetStore(us, found.value, sha256(token));
      var m := ResetMail(after[found.value], ActivationLink(protocol, token));
      if deliver(m) then Mailed(Respond(200, ResetBody(tr, lang)), after, [m])
      else Mailed(Refuse(tr, lang, "emailSendError", 500), after, [])
  }

  /** A target whose role the caller does not see is refused 401, and nothing changes. */
  lemma HiddenTargetNotReset(tr: ApiTranslation, lang: Option<Value>, us: seq<User>, me: User, userId: string,
                             token: string, protocol: string, sha256: string -> string,
                             hierarchy: string -> Option<seq<string>>, deliver: Mail -> bool, k: nat)
    requires FindById(us, userId) == Some(k) && hierarchy(RoleKey(me.role)).Some?
    requires !(us[k].role.Some? && us[k].role.value in hierarchy(RoleKey(me.role)).value)
    ensures ResetUserPasswordOutcome(tr, lang, us, me, userId, token, protocol, sha256, hierarchy, deliver)
         == Mailed(Refuse(tr, lang, "unAuthorized", 401), us, [])
  {
  }

  /** A caller whose role has no hierarchy entry makes the handler throw before anything changes. */
  lemma UnlistedCallerThrows(tr: ApiTranslation, lang: Option<Value>, us: seq<User>, me: User, userId: string,
                             token: string, protocol: string, sha256: string -> string,
                             hierarchy: string -> Option<seq<string>>, deliver: Mail -> bool)
    requires FindById(us, userId).Some? && hierarchy(RoleKey(me.role)).None?
    ensures ResetUserPasswordOutcome(tr, lang, us, me, userId, token, protocol, sha256, hierarchy, deliver)
         == Mailed(NextError(IncludesOfUndefined), us, [])
  {
  }

  /**
   * A permitted reset clears the password, the confirmation and the refresh
   * token, deactivates the user, zeroes its wrong attempts and stores the
   * hash of the new token; it rewrites that user alone, and it stands even
   * when the mail fails. The mail, when sent, goes to the user's address
   * with the token in the link.
   */
  lemma ResetClearsCredentials(tr: ApiTranslation, lang: Option<Value>, us: seq<User>, me: User, userId: string,
                               token: string, protocol: string, sha256: string -> string,
                               hierarchy: string -> Option<seq<string>>, deliver: Mail -> bool, k: nat)
    requires FindById(us, userId) == Some(k)
    requires ResetRefusal(tr, lang, us, me, Some(k), hierarchy).None?
    ensures var h := ResetUserPasswordOutcome(tr, lang, us, me, userId, token, protocol, sha256, hierarchy, deliver);
      && |h.users| == |us| && (forall j :: 0 <= j < |us| && j != k ==> h.users[j] == us[j])
      && var r := h.users[k];
      && r.id == us[k].id && r.email == us[k].email && r.role == us[k].role
      && r.password.None? && r.passwordConfirm.None? && r.isActive == Some(false) && r.wrongAttemptNumber == 0
      && r.refreshToken.None? && r.firstActivateToken == Some(sha256(token))
      && (h.reply.Respond? ==> h.reply == Respond(200, ResetBody(tr, lang))
                               && h.sent == [Mail(us[k].email, "Create New Password", ActivationLink(protocol, token))])
      && (!h.reply.Respond? ==> h.reply == Refuse(tr, lang, "emailSendError", 500))
  {
  }

  /** After a permitted reset the user can no longer log in: the login stops at "no password yet". */
  lemma {:induction false} ResetBlocksLogin(tr: ApiTranslation, lang: Option<Value>, us: seq<User>, me: User, userId: string,
                         token: string, protocol: string, sha256: string -> string,
                         hierarchy: string -> Option<seq<string>>, deliver: Mail -> bool, k: nat,
                         login: Fields, range: Option<int>)
    requires UniqueEmails(us) && FindById(us, userId) == Some(k) && us[k].email.Some? && sha256(token) != ""
    requires ResetRefusal(tr, lang, us, me, Some(k), hierarchy).None?
    requires AuthController.Submitted(login) && AuthController.LoginEmail(login) == OneOf([us[k].email])
    ensures var h := ResetUserPasswordOutcome(tr, lang, us, me, userId, token, protocol, sha256, hierarchy, deliver);
      AuthController.LoginDecision(h.users, login, range) == AuthController.NoPasswordYet(k)
  {
    var h := ResetUserPasswordOutcome(tr, lang, us, me, userId, token, protocol, sha256, hierarchy, deliver);
    ResetClearsCredentials(tr, lang, us, me, userId, token, protocol, sha256, hierarchy, deliver, k);
    assert h.users == us[k := ResetUser(us[k], sha256(token))];
    AuthController.RewriteKeepsEmails(us, k, ResetUser(us[k], sha256(token)));
    AuthController.FindByEmailUnique(h.users, k);
    AuthController.LoginBeforePassword(h.users, login, range, k);
  }

  /** The link of the reset mail works: activation with its token finds the user that was reset. */
  lemma ResetLinkActivates(tr: ApiTranslation, lang: Option<Value>, us: seq<User>, me: User, userId: string,
                           token: string, protocol: string, sha256: string -> string,
                           hierarchy: string -> Option<seq<string>>, deliver: Mail -> bool, k: nat)
    requires FindById(us, userId) == Some(k)
    requires ResetRefusal(tr, lang, us, me, Some(k), hierarchy).None?
    requires forall j :: 0 <= j < |us| && j != k ==> !(us[j].firstActivateToken == Some(sha256(token)) && us[j].isActive == Some(false))
    ensures var h := ResetUserPasswordOutcome(tr, lang, us, me, userId, token, protocol, sha256, hierarchy, deliver);
      AuthController.ActivationTarget(h.users, sha256(token)) == Some(k)
  {
    var h := ResetUserPasswordOutcome(tr, lang, us, me, userId, token, protocol, sha256, hierarchy, deliver);
    ResetClearsCredentials(tr, lang, us, me, userId, token, protocol, sha256, hierarchy, deliver, k);
    var r := AuthController.ActivationTarget(h.users, sha256(token));
    assert r.Some? by {
      assert h.users[k].firstActivateToken == Some(sha256(token)) && h.users[k].isActive == Some(false);
    }
  }

  // ------------------------------------------------------------- protectUserToDelete

  const ProtectedUserIds: seq<string> := ["68adb4f57157587dcb845a41", "6874ea13f02c2ce3fdb548fc"]

  /** `protectUserToDelete`: the two listed accounts are refused 403, every other id passes. */
  function ProtectUserToDelete(tr: ApiTranslation, lang: Option<Value>, id: string): (r: Reply)
    ensures r == Next <==> id != "68adb4f57157587dcb845a41" && id != "6874ea13f02c2ce3fdb548fc"
    ensures r != Next ==> r == Refuse(tr, lang, "userCannotDeleted", 403)
  {
    if id in ProtectedUserIds then Refuse(tr, lang, "userCannotDeleted", 403) else Next
  }

  // ------------------------------------------------------------- the controller

  class UsersController {
    /** The part inherited from `ApiController`: the restrictions its handlers spread into their filters. */
    const base: ApiController
    const users: UsersTable
    /** The mails handed to the transport, in order. */
    var sent: seq<Mail>
    const translation: ApiTranslation
    /** The hex digest of `crypto.createHash("sha256")`. */
    const sha256: string -> string
    /** The `roleHierarchy` table: the roles each role sees. */
    const hierarchy: string -> Option<seq<string>>
    /** Whether the mail transport accepts a mail. */
    const deliver: Mail -> bool

    ghost predicate Valid()
      reads this, users
    {
      users.Valid()
    }

    constructor(base: ApiController, users: UsersTable, translation: ApiTranslation, sha256: string -> string,
                hierarchy: string -> Option<seq<string>>, deliver: Mail -> bool)
      requires users.Valid()
      ensures this.base == base && this.users == users && this.translation == translation
      ensures this.sha256 == sha256 && this.hierarchy == hierarchy && this.deliver == deliver
      ensures sent == [] && Valid()
    {
      this.base := base;
      this.users := users;
      this.translation := translation;
      this.sha256 := sha256;
      this.hierarchy := hierarchy;
      this.deliver := deliver;
      sent := [];
    }

    /** `setRolesRestriction` for the caller `me`: the restriction is stored first, then a hidden role in a write is refused. */
    method SetRolesRestriction(lang: Option<Value>, me: User, httpMethod: string, body: Fields) returns (reply: Reply)
      modifies base`rolesRestriction
      ensures base.rolesRestriction == Some(RolesRestrictionFor(me, hierarchy))
      ensures reply == RolesReply(translation, lang, me, httpMethod, body, hierarchy)
    {
      if me.role == Some("superAdmin") {
        base.rolesRestriction := Some([]);
        return Next;
      }
      var visible := hierarchy(RoleKey(me.role)).GetOr([]);
      base.rolesRestriction := Some([("role", Obj([("$in", Arr(StrValues(visible)))]))]);
      if httpMethod in WritingMethods && AsksHiddenRole(body, visible) {
        return Refuse(translation, lang, "unAuthorized", 401);
      }
      reply := Next;
    }

    /** `createNewUser`; `id` is the id the database gives the new document. */
    method CreateNewUser(lang: Option<Value>, body: Fields, id: string, token: string, protocol: string, now: int)
      returns (reply: Reply)
      requires Valid() && FindById(users.users, id).None?
      modifies users, this`sent
      ensures Valid()
      ensures var h := CreateNewUserOutcome(translation, lang, old(users.users), body, id, token, protocol, sha256, deliver);
        reply == h.reply && users.users == h.users && sent == old(sent) + h.sent
    {
      var made := NewUser(body, id, sha256(token));
      if made.None? {
        return NextError(LowerCaseOfUndefined);
      }
      var u := made.value;
      ghost var before := users.users;
      var saved := users.Save(u, false, false, now);
      NewUserSave(before, u, now, users.isEmail, users.isStrongPassword);
      if saved.Fail? {
        return NextError(saved.err);
      }
      var m := WelcomeMail(u, ActivationLink(protocol, token));
      if !deliver(m) {
        Withdraw(before, u);
        return Refuse(translation, lang, "emailSendError", 500);
      }
      assert !EmailTaken(before, u) && deliver(m);
      sent := sent + [m];
      reply := Respond(201, CreatedBody(translation, lang, u));
    }

    /** Removes the user just appended, as the handler does when the welcome mail fails. */
    method Withdraw(ghost before: seq<User>, u: User)
      requires Valid() && users.users == before + [u] && FindById(before, u.id).None?
      modifies users
      ensures Valid() && users.users == before
    {
      users.Delete(u.id);
      DeleteAppended(before, u);
    }

    /** `updateUser` of the user `id`, under the restrictions stored on the controller. */
    method UpdateUser(lang: Option<Value>, id: string, body: Fields, now: int, ext: OpOracle) returns (reply: Reply)
      requires Valid()
      modifies users
      ensures Valid()
      ensures var h := UpdateUserOutcome(translation, lang, old(users.users), base.TargetFilter(Str(id)), body, now, ext,
                                         users.isEmail, users.isStrongPassword);
        reply == h.reply && users.users == h.users
    {
      var filter := base.TargetFilter(Str(id));
      var found := FindFirst(Docs(users.users), filter, ext);
      var refusal := UpdateUserRefusal(translation, lang, users.users, found, body);
      if refusal.Some? {
        return refusal.value;
      }
      var before := users.users;
      var saved := users.Save(AssignBody(users.users[found.value], body), "password" in Keys(body), false, now);
      UpdateUserSaves(translation, lang, before, filter, body, now, ext, users.isEmail, users.isStrongPassword, found.value);
      reply := UpdateUserAnswer(before, saved).reply;
    }

    /** `resetUserPassword` by the caller `me` for the user `userId`, with the random token `token`. */
    method ResetUserPassword(lang: Option<Value>, me: User, userId: string, token: string, protocol: string, now: int)
      returns (reply: Reply)
      requires Valid()
      modifies users, this`sent
      ensures Valid()
      ensures var h := ResetUserPasswordOutcome(translation, lang, old(users.users), me, userId, token, protocol, sha256,
                                                hierarchy, deliver);
        reply == h.reply && users.users == h.users && sent == old(sent) + h.sent
    {
      var found := FindById(users.users, userId);
      var refusal := ResetRefusal(translation, lang, users.users, me, found, hierarchy);
      if refusal.Some? {
        return refusal.value;
      }
      var k := found.value;
      ghost var before := users.users;
      var s := users.Resave(k, ResetUser(users.users[k], sha256(token)), true, now);
      assert s == ResetUser(before[k], sha256(token));
      assert users.users == ResetStore(before, k, sha256(token));
      var m := ResetMail(s, ActivationLink(protocol, token));
      if !deliver(m) {
        return Refuse(translation, lang, "emailSendError", 500);
      }
      sent := sent + [m];
      reply := Respond(200, ResetBody(translation, lang));
    }
  }

  /** Saving a new account without a password appends it unchanged unless its email is taken. */
  lemma NewUserSave(us: seq<User>, u: User, now: int, isEmail: string -> bool, isStrongPassword: Secret -> bool)
    requires FindById(us, u.id).None? && u.password.None?
    ensures SaveOutcome(us, u, false, false, now, isEmail, isStrongPassword)
         == if EmailTaken(us, u) then Fail(DuplicateKeyError(["email"])) else Ok(u)
    ensures Upsert(us, u) == us + [u]
  {
  }

  /** `findById` finds a user just appended when no user before it has its id. */
  lemma {:induction false} FindAppended(us: seq<User>, u: User)
    requires forall i :: 0 <= i < |us| ==> us[i].id != u.id
    ensures FindById(us + [u], u.id) == Some(|us|)
  {
    if us != [] {
      assert (us + [u])[1..] == us[1..] + [u];
      FindAppended(us[1..], u);
    }
  }

  /** Deleting the id of a user just appended, whose id nobody else has, gives back the users before. */
  lemma DeleteAppended(us: seq<User>, u: User)
    requires FindById(us, u.id).None?
    ensures FindById(us + [u], u.id) == Some(|us|)
    ensures (us + [u])[..|us|] + (us + [u])[|us| + 1..] == us
  {
    FindAppended(us, u);
    var w := us + [u];
    assert w[..|us|] == us;
    assert w[|us| + 1..] == [];
  }
}
