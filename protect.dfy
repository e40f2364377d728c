/**
 * Token verification and the `protect` middleware: the access token is
 * taken from a "Bearer" authorization header or, failing that, from the
 * ACCESS_TOKEN cookie; it must verify, name a stored user, and be issued no
 * earlier than that user's last password change.
 */
module Protect {
  import opened Wrappers
  import opened Strings
  import opened AppErrors
  import opened Http
  import opened Casts
  import opened UsersModel
  import opened ApiTranslation
  import Json

  /** The payload of a signed token: the user id and the issue time in seconds. */
  datatype Claims = Claims(id: string, iat: int)

  /** What `jwt.verify` does with a token under one secret: it decodes it, or throws. */
  datatype Verified = Decoded(claims: Claims) | Refused(err: Err)

  datatype TokenType = Access | Refresh

  /**
   * `verifyToken({ token, tokenType })`: a token that fails verification
   * gives `null` when it is an access token and is thrown again when it is a
   * refresh token.
   */
  function VerifyToken(token: string, tokenType: TokenType, verify: string -> Verified): (r: Outcome<Option<Claims>>)
    ensures verify(token).Decoded? ==> r == Ok(Some(verify(token).claims))
    ensures verify(token).Refused? && tokenType == Access ==> r == Ok(None)
    ensures verify(token).Refused? && tokenType == Refresh ==> r == Fail(verify(token).err)
  {
    match verify(token)
    case Decoded(c) => Ok(Some(c))
    case Refused(e) => if tokenType == Access then Ok(None) else Fail(e)
  }

  predicate StartsWith(s: string, prefix: string) {
    |prefix| <= |s| && s[..|prefix|] == prefix
  }

  /**
   * The token `protect` reads: the second space-separated piece of a
   * non-empty authorization header starting with "Bearer" (and then never
   * the cookie), otherwise a non-empty ACCESS_TOKEN cookie.
   */
  function ExtractToken(authorization: Option<string>, cookie: Option<string>): (t: Option<string>)
    ensures Present(authorization) && StartsWith(authorization.value, "Bearer") ==>
      (t.Some? <==> |Split(authorization.value, ' ')| > 1)
    ensures t.Some? && Present(authorization) && StartsWith(authorization.value, "Bearer") ==>
      t.value == Split(authorization.value, ' ')[1]
    ensures !(Present(authorization) && StartsWith(authorization.value, "Bearer")) ==>
      t == (if Present(cookie) then cookie else None)
  {
    if Present(authorization) && StartsWith(authorization.value, "Bearer") then
      var pieces := Split(authorization.value, ' ');
      if |pieces| > 1 then Some(pieces[1]) else None
    else if Present(cookie) then cookie
    else None
  }

  const NotAuthorized: Reply := NextError(NewAppError("Not Authorized", Some(401)))

  /** What `protect` does with the request, and the user it stores in `req.user` when it passes. */
  datatype Protected = Protected(reply: Reply, user: Option<User>)

  /** A token the middleware can use: one was found and it is not the empty string. */
  predicate Usable(t: Option<string>) {
    t.Some? && t.value != ""
  }

  /**
   * `protect`. `verifyAccess` is `jwt.verify` under the access secret, `us`
   * the stored users.
   */
  function ProtectRequest(tr: ApiTranslation, lang: Option<Json.Value>, us: seq<User>,
                          authorization: Option<string>, cookie: Option<string>,
                          verifyAccess: string -> Verified): (r: Protected)
    ensures r.user.Some? <==> r.reply == Next
    ensures !Usable(ExtractToken(authorization, cookie)) ==> r == Protected(NotAuthorized, None)
    ensures Usable(ExtractToken(authorization, cookie)) && verifyAccess(ExtractToken(authorization, cookie).value).Refused?
      ==> r == Protected(NotAuthorized, None)
    ensures r.user.Some? ==>
      var t := ExtractToken(authorization, cookie);
      Usable(t) && verifyAccess(t.value).Decoded?
      && var c := verifyAccess(t.value).claims;
      FindById(us, c.id).Some? && r.user.value == us[FindById(us, c.id).value]
      && PasswordChangedAfter(r.user.value, c.iat) == Some(false)
  {
    var token := ExtractToken(authorization, cookie);
    if !Usable(token) then Protected(NotAuthorized, None)
    else
      var decoded := VerifyToken(token.value, Access, verifyAccess);
      if decoded.Fail? || decoded.value.None? then Protected(NotAuthorized, None)
      else
        var c := decoded.value.value;
        var found := FindById(us, c.id);
        if found.None? then Protected(Refuse(tr, lang, "notExistUser", 403), None)
        else
          var user := us[found.value];
          match PasswordChangedAfter(user, c.iat)
          case None => Protected(NextError(GetTimeOfUndefined), None)
          case Some(true) => Protected(Refuse(tr, lang, "changedPassword", 403), None)
          case Some(false) => Protected(Next, Some(user))
  }

  // ------------------------------------------------------------- properties

  /** The first occurrence of a character after a prefix without it. */
  lemma {:induction false} IndexAfterPrefix(p: string, c: char, rest: string)
    requires c !in p
    ensures IndexOf(p + [c] + rest, c) == |p|
  {
    if p != [] {
      IndexAfterPrefix(p[1..], c, rest);
      assert (p + [c] + rest)[1..] == p[1..] + [c] + rest;
    }
  }

  /** "Bearer <t>" yields `t`, whatever the cookie holds. */
  lemma BearerHeaderWins(t: string, cookie: Option<string>)
    requires ' ' !in t
    ensures ExtractToken(Some("Bearer " + t), cookie) == Some(t)
  {
    var h := "Bearer " + t;
    assert h == "Bearer" + [' '] + t;
    IndexAfterPrefix("Bearer", ' ', t);
    assert h[..6] == "Bearer" && h[7..] == t;
    SplitWithoutSeparator(t, ' ');
    assert Split(h, ' ') == ["Bearer", t];
  }

  /** A header that is just "Bearer" yields no token, even with a cookie, and the request is refused 401. */
  lemma BareBearerIgnoresCookie(tr: ApiTranslation, lang: Option<Json.Value>, us: seq<User>, cookie: Option<string>,
                                verifyAccess: string -> Verified)
    ensures ExtractToken(Some("Bearer"), cookie).None?
    ensures ProtectRequest(tr, lang, us, Some("Bearer"), cookie, verifyAccess) == Protected(NotAuthorized, None)
  {
    SplitWithoutSeparator("Bearer", ' ');
  }

  /** A verified token of a user nobody stores is refused 403 notExistUser. */
  lemma UnknownUserForbidden(tr: ApiTranslation, lang: Option<Json.Value>, us: seq<User>,
                             authorization: Option<string>, cookie: Option<string>, verifyAccess: string -> Verified)
    requires Usable(ExtractToken(authorization, cookie))
    requires verifyAccess(ExtractToken(authorization, cookie).value).Decoded?
    requires forall i :: 0 <= i < |us| ==> us[i].id != verifyAccess(ExtractToken(authorization, cookie).value).claims.id
    ensures ProtectRequest(tr, lang, us, authorization, cookie, verifyAccess)
         == Protected(Refuse(tr, lang, "notExistUser", 403), None)
  {
  }

  /** A token issued before the user's last password change is refused 403 changedPassword. */
  lemma StaleTokenForbidden(tr: ApiTranslation, lang: Option<Json.Value>, us: seq<User>, i: nat,
                            authorization: Option<string>, cookie: Option<string>, verifyAccess: string -> Verified)
    requires UniqueIds(us) && i < |us| && us[i].passwordChangeAt.Some?
    requires Usable(ExtractToken(authorization, cookie))
    requires var v := verifyAccess(ExtractToken(authorization, cookie).value);
      v.Decoded? && v.claims.id == us[i].id && v.claims.iat < Seconds(us[i].passwordChangeAt.value)
    ensures ProtectRequest(tr, lang, us, authorization, cookie, verifyAccess)
         == Protected(Refuse(tr, lang, "changedPassword", 403), None)
  {
    FindsTheUser(us, i);
  }

  /** A user whose password was never stamped cannot pass: reading the stamp throws. */
  lemma UnstampedUserThrows(tr: ApiTranslation, lang: Option<Json.Value>, us: seq<User>, i: nat,
                            authorization: Option<string>, cookie: Option<string>, verifyAccess: string -> Verified)
    requires UniqueIds(us) && i < |us| && us[i].passwordChangeAt.None?
    requires Usable(ExtractToken(authorization, cookie))
    requires var v := verifyAccess(ExtractToken(authorization, cookie).value);
      v.Decoded? && v.claims.id == us[i].id
    ensures ProtectRequest(tr, lang, us, authorization, cookie, verifyAccess) == Protected(NextError(GetTimeOfUndefined), None)
  {
    FindsTheUser(us, i);
  }

  /**
   * A bearer token issued at or after the save that last stamped the
   * user's password lets the request through with that user.
   */
  lemma FreshTokenPasses(tr: ApiTranslation, lang: Option<Json.Value>, us: seq<User>, i: nat, t: string,
                         cookie: Option<string>, verifyAccess: string -> Verified, saved: User, now: int)
    requires UniqueIds(us) && i < |us| && ' ' !in t && t != ""
    requires HasPassword(saved.password) && now >= 1000 && us[i] == PreSave(saved, true, now)
    requires verifyAccess(t).Decoded? && verifyAccess(t).claims.id == us[i].id && verifyAccess(t).claims.iat >= now / 1000
    ensures ProtectRequest(tr, lang, us, Some("Bearer " + t), cookie, verifyAccess) == Protected(Next, Some(us[i]))
  {
    BearerHeaderWins(t, cookie);
    FindsTheUser(us, i);
    TokenAfterSaveIsFresh(saved, now, verifyAccess(t).claims.iat);
  }
}
