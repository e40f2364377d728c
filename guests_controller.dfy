/**
 * The guest handlers: find-or-create keyed by email with an identity check
 * on the three identifying fields, and the restore that replaces the whole
 * collection by a dataset.
 */
module GuestsController {
  import opened Wrappers
  import opened Json
  import opened Strings
  import opened AppErrors
  import opened Casts
  import opened Http
  import opened GuestsModel
  import ApiTranslation
  import Coercions

  /**
   * The condition `findOne({ email: req.body.email })` puts on the email,
   * cast through the path's `trim` and `lowercase` setters: none for a
   * missing email, one value, any item of a list, or a `CastError` for a
   * plain object.
   */
  function EmailFilter(v: Option<Value>): (c: StringCondition)
    ensures v.None? <==> c == AnyValue
    ensures v.Some? && v.value.Str? ==> c == OneOf([Some(ToLower(Trim(v.value.s)))])
    ensures v == Some(Null) ==> c == OneOf([None])
    ensures v.Some? && v.value.Obj? && DocumentId(v.value.fields).None? ==> c == Uncastable(CastError("email", Coercions.Stringify(v.value)))
  {
    StringQuery(v, "email", TrimLower)
  }

  /** The first stored guest whose email meets the condition. */
  function FindGuest(gs: seq<Guest>, c: StringCondition): (r: Option<nat>)
    ensures r.None? <==> forall i :: 0 <= i < |gs| ==> !Meets(gs[i].email, c)
    ensures r.Some? ==> r.value < |gs| && Meets(gs[r.value].email, c)
    ensures r.Some? ==> forall i :: 0 <= i < r.value ==> !Meets(gs[i].email, c)
  {
    if gs == [] then None
    else if Meets(gs[0].email, c) then Some(0)
    else match FindGuest(gs[1..], c)
      case None => None
      case Some(i) => Some(i + 1)
  }

  /** `stored !== sent` for one field, the stored side read from the document. */
  predicate Differs(stored: Option<string>, sent: Option<Value>) {
    if stored.None? then sent.Some? else sent != Some(Str(stored.value))
  }

  /** The identity check of `createGuest`: the full name, national id and nationality as submitted. */
  predicate IdentityMismatch(g: Guest, body: Fields) {
    Differs(g.fullName, Get(body, "fullName")) || Differs(g.nationalId, Get(body, "nationalId"))
    || Differs(g.nationality, Get(body, "nationality"))
  }

  /** The object behind `req.body`; a body that is not an object has no keys. */
  function BodyFields(req: Request): Fields {
    if req.body.Obj? then req.body.fields else []
  }

  function GuestBody(g: Guest, withLowerCase: bool): Value {
    Envelope("success", Obj([("guest", GuestJson(g, withLowerCase))]))
  }

  /** `createGuest`, with the collection before the request. */
  function CreateGuestReply(tr: ApiTranslation.ApiTranslation, gs: seq<Guest>, req: Request, id: string,
                            isEmail: string -> bool): (r: (Reply, seq<Guest>))
    ensures var c := EmailFilter(Get(BodyFields(req), "email"));
      c.Uncastable? ==> r == (NextError(c.err), gs)
    ensures var body := BodyFields(req);
      var found := FindGuest(gs, EmailFilter(Get(body, "email")));
      found.Some? ==>
        found.value < |gs| && r.1 == gs
        && (IdentityMismatch(gs[found.value], body) ==> r.0 == Refuse(tr, req.Lang(), "guestNotMatch", 403))
        && (!IdentityMismatch(gs[found.value], body) ==> r.0 == Respond(200, GuestBody(gs[found.value], false)))
    ensures var body := BodyFields(req);
      var made := CreateOutcome(gs, body, id, isEmail);
      !EmailFilter(Get(body, "email")).Uncastable? && FindGuest(gs, EmailFilter(Get(body, "email"))).None? ==>
        (made.Rejected? ==> r == (NextError(CreateError(made.failure, isEmail)), gs))
        && (made.Created? ==> r == (Respond(201, GuestBody(made.guest, true)), gs + [made.guest]))
  {
    var body := BodyFields(req);
    if EmailFilter(Get(body, "email")).Uncastable? then (NextError(EmailFilter(Get(body, "email")).err), gs)
    else match FindGuest(gs, EmailFilter(Get(body, "email")))
    case Some(i) =>
      if IdentityMismatch(gs[i], body) then (Refuse(tr, req.Lang(), "guestNotMatch", 403), gs)
      else (Respond(200, GuestBody(gs[i], false)), gs)
    case None =>
      match CreateOutcome(gs, body, id, isEmail)
      case Rejected(f) => (NextError(CreateError(f, isEmail)), gs)
      case Created(g) => (Respond(201, GuestBody(g, true)), gs + [g])
  }

  /** `createGuest`. */
  method CreateGuest(tr: ApiTranslation.ApiTranslation, table: GuestsTable, req: Request, id: string)
    returns (reply: Reply)
    requires table.Valid()
    modifies table`guests
    ensures table.Valid()
    ensures (reply, table.guests) == CreateGuestReply(tr, old(table.guests), req, id, table.isEmail)
  {
    var body := BodyFields(req);
    var filter := EmailFilter(Get(body, "email"));
    if filter.Uncastable? {
      return NextError(filter.err);
    }
    var found := FindGuest(table.guests, filter);
    if found.Some? {
      var guest := table.guests[found.value];
      if IdentityMismatch(guest, body) {
        return Refuse(tr, req.Lang(), "guestNotMatch", 403);
      }
      return Respond(200, GuestBody(guest, false));
    }
    var r := table.Create(body, id);
    match r
    case Rejected(f) => reply := NextError(CreateError(f, table.isEmail));
    case Created(g) => reply := Respond(201, GuestBody(g, true));
  }

  /** A known email with the same three identifying fields returns the stored guest and writes nothing. */
  lemma ReturningGuestFound(tr: ApiTranslation.ApiTranslation, gs: seq<Guest>, req: Request, id: string,
                            isEmail: string -> bool, i: nat)
    requires FindGuest(gs, EmailFilter(Get(BodyFields(req), "email"))) == Some(i)
    requires !IdentityMismatch(gs[i], BodyFields(req))
    ensures CreateGuestReply(tr, gs, req, id, isEmail) == (Respond(200, GuestBody(gs[i], false)), gs)
  {
  }

  /** Any differing identifying field is refused with 403 and writes nothing, so an email never reveals another person's record. */
  lemma ImpostorRefused(tr: ApiTranslation.ApiTranslation, gs: seq<Guest>, req: Request, id: string,
                        isEmail: string -> bool)
    requires FindGuest(gs, EmailFilter(Get(BodyFields(req), "email"))).Some?
    requires IdentityMismatch(gs[FindGuest(gs, EmailFilter(Get(BodyFields(req), "email"))).value], BodyFields(req))
    ensures CreateGuestReply(tr, gs, req, id, isEmail).1 == gs
    ensures CreateGuestReply(tr, gs, req, id, isEmail).0.NextError?
    ensures CreateGuestReply(tr, gs, req, id, isEmail).0.err.statusCode == Some(403)
  {
  }

  /**
   * The nationality is compared as submitted with the stored value, which
   * was lowercased: the same guest submitting "Turkish" again is refused.
   */
  lemma NationalityCaseMatters(g: Guest, body: Fields)
    requires g.nationality == Some("turkish")
    requires Get(body, "nationality") == Some(Str("Turkish"))
    ensures IdentityMismatch(g, body)
  {
    assert Str("Turkish") != Str("turkish") by {
      assert "Turkish"[0] != "turkish"[0];
    }
  }

  /** An email sent as a plain object is a `CastError`: nothing is looked up or written. */
  lemma EmailObjectRefused(tr: ApiTranslation.ApiTranslation, gs: seq<Guest>, req: Request, id: string,
                           isEmail: string -> bool, fields: Fields)
    requires Get(BodyFields(req), "email") == Some(Obj(fields)) && DocumentId(fields).None?
    ensures CreateGuestReply(tr, gs, req, id, isEmail) == (NextError(CastError("email", Coercions.Stringify(Obj(fields)))), gs)
  {
  }

  /** An email sent as a list finds a guest holding any of its items, trimmed and lowercased. */
  lemma EmailListFindsAny(gs: seq<Guest>, a: string, b: string, i: nat)
    requires i < |gs| && gs[i].email == Some(ToLower(Trim(b)))
    ensures FindGuest(gs, EmailFilter(Some(Arr([Str(a), Str(b)])))).Some?
  {
    var c := EmailFilter(Some(Arr([Str(a), Str(b)])));
    assert FirstRefused([Str(a), Str(b)]).None?;
    assert c.values[1] == Some(ToLower(Trim(b)));
    assert Meets(gs[i].email, c);
  }

  /** A body without an email selects the first stored guest, whatever its email. */
  lemma MissingEmailSelectsFirstGuest(gs: seq<Guest>, body: Fields)
    requires gs != [] && Get(body, "email").None?
    ensures FindGuest(gs, EmailFilter(Get(body, "email"))) == Some(0)
  {
  }

  // ------------------------------------------------------------- restore

  /** Every document of the dataset cast, as `create(dataset)` builds them. */
  function CastAll(bodies: seq<Fields>, ids: nat -> string): (cs: seq<Option<Guest>>)
    ensures |cs| == |bodies|
    ensures forall i :: 0 <= i < |bodies| ==> cs[i] == CastGuest(bodies[i], ids(i))
  {
    seq(|bodies|, i requires 0 <= i < |bodies| => CastGuest(bodies[i], ids(i)))
  }

  /** The cast documents admitted one after another into an emptied collection: the store built and the first refusal. */
  function RestoreAll(casts: seq<Option<Guest>>, isEmail: string -> bool): (r: (seq<Guest>, Option<CreateFailure>))
    ensures |r.0| <= |casts|
  {
    if casts == [] then ([], None)
    else
      var (gs, failed) := RestoreAll(casts[..|casts| - 1], isEmail);
      if failed.Some? then (gs, failed)
      else match Admit(gs, casts[|casts| - 1], isEmail)
        case Created(g) => (gs + [g], None)
        case Rejected(f) => (gs, Some(f))
  }

  /** `create(dataset)` on an emptied collection. */
  function Restored(bodies: seq<Fields>, ids: nat -> string, isEmail: string -> bool): (r: (seq<Guest>, Option<CreateFailure>))
    ensures |r.0| <= |bodies|
    ensures r.1.None? ==> |r.0| == |bodies| && forall i :: 0 <= i < |bodies| ==> CastGuest(bodies[i], ids(i)) == Some(r.0[i])
  {
    var casts := CastAll(bodies, ids);
    if RestoreAll(casts, isEmail).1.None? then
      RestoreAllIsCasts(casts, isEmail);
      RestoreAll(casts, isEmail)
    else RestoreAll(casts, isEmail)
  }

  /** A restore that meets no refusal stores every document, in order. */
  lemma {:induction false} RestoreAllIsCasts(casts: seq<Option<Guest>>, isEmail: string -> bool)
    requires RestoreAll(casts, isEmail).1.None?
    ensures var gs := RestoreAll(casts, isEmail).0;
      |gs| == |casts| && forall i :: 0 <= i < |casts| ==> casts[i] == Some(gs[i])
  {
    if casts != [] {
      var n := |casts| - 1;
      var pre := casts[..n];
      RestoreAllIsCasts(pre, isEmail);
      var gs := RestoreAll(pre, isEmail).0;
      forall i | 0 <= i < n ensures casts[i] == Some(gs[i]) {
        assert casts[i] == pre[i];
      }
    }
  }

  /** A restore that meets no refusal leaves exactly the dataset, cast, in dataset order. */
  lemma RestoredIsDataset(bodies: seq<Fields>, ids: nat -> string, isEmail: string -> bool)
    requires Restored(bodies, ids, isEmail).1.None?
    ensures var gs := Restored(bodies, ids, isEmail).0;
      |gs| == |bodies| && forall i :: 0 <= i < |bodies| ==> Some(gs[i]) == CastGuest(bodies[i], ids(i))
  {
    RestoreAllIsCasts(CastAll(bodies, ids), isEmail);
  }

  /** Every restored collection is consistent: all documents valid, no email twice. */
  lemma {:induction false} RestoreAllConsistent(casts: seq<Option<Guest>>, isEmail: string -> bool)
    ensures GuestsConsistent(RestoreAll(casts, isEmail).0, isEmail)
  {
    if casts != [] {
      var n := |casts| - 1;
      RestoreAllConsistent(casts[..n], isEmail);
      AdmitKeepsConsistent(RestoreAll(casts[..n], isEmail).0, casts[n], isEmail);
    }
  }

  /** Once a document is refused, the later ones are not attempted. */
  lemma {:induction false} RestoreAllStops(casts: seq<Option<Guest>>, isEmail: string -> bool, k: nat)
    requires k <= |casts| && RestoreAll(casts[..k], isEmail).1.Some?
    ensures RestoreAll(casts, isEmail) == RestoreAll(casts[..k], isEmail)
    decreases |casts| - k
  {
    if k < |casts| {
      assert casts[..k + 1][..k] == casts[..k];
      RestoreAllStops(casts, isEmail, k + 1);
    } else {
      assert casts[..k] == casts;
    }
  }

  /** One step of the restore: admitting document `i` extends the store, or ends the restore with that refusal. */
  lemma RestoreAllStep(casts: seq<Option<Guest>>, isEmail: string -> bool, i: nat, gs: seq<Guest>, r: CreateResult)
    requires i < |casts| && RestoreAll(casts[..i], isEmail) == (gs, None) && r == Admit(gs, casts[i], isEmail)
    ensures r.Created? ==> RestoreAll(casts[..i + 1], isEmail) == (gs + [r.guest], None)
    ensures r.Rejected? ==> RestoreAll(casts, isEmail) == (gs, Some(r.failure))
  {
    assert casts[..i + 1][..i] == casts[..i];
    if r.Rejected? {
      RestoreAllStops(casts, isEmail, i + 1);
    }
  }

  const GuestsReloaded: Value := Obj([("status", Str("success")), ("message", Str("Guests reloaded!"))])

  /** `reloadGuestsData`: `deleteMany({})`, then `create(dataset)`; 201 when every document was created. */
  method ReloadGuestsData(table: GuestsTable, dataset: seq<Fields>, ids: nat -> string) returns (reply: Reply)
    requires table.Valid()
    modifies table`guests
    ensures table.Valid()
    ensures table.guests == Restored(dataset, ids, table.isEmail).0
    ensures match Restored(dataset, ids, table.isEmail).1
      case Some(f) => reply == NextError(CreateError(f, table.isEmail))
      case None => reply == Respond(201, GuestsReloaded)
  {
    table.DeleteAll();
    ghost var casts := CastAll(dataset, ids);
    var i := 0;
    while i < |dataset|
      invariant 0 <= i <= |dataset|
      invariant table.Valid()
      invariant RestoreAll(casts[..i], table.isEmail) == (table.guests, None)
    {
      ghost var before := table.guests;
      var r := table.Create(dataset[i], ids(i));
      RestoreAllStep(casts, table.isEmail, i, before, r);
      if r.Rejected? {
        return NextError(CreateError(r.failure, table.isEmail));
      }
      i := i + 1;
    }
    assert casts[..i] == casts;
    reply := Respond(201, GuestsReloaded);
  }
}
