/**
 * The guests schema: trimmed and bounded names and identity numbers, an email
 * that is trimmed, lowercased, unique and accepted by the email predicate, a
 * nationality that is trimmed and lowercased, and `fullNameLowerCase`
 * defaulting to the lowercase of the full name.
 */
module GuestsModel {
  import opened Wrappers
  import opened Json
  import opened Strings
  import opened AppErrors
  import opened Casts

  /**
   * A guest document after casting, setters and defaults; `None` is a path
   * left `undefined`, set to `null`, or whose cast failed. `castErrors` are
   * the cast errors the document recorded.
   */
  datatype Guest = Guest(
    id: string,
    fullName: Option<string>,
    fullNameLowerCase: Option<string>,
    email: Option<string>,
    nationalId: Option<string>,
    nationality: Option<string>,
    countryFlag: Option<string>,
    castErrors: seq<CastFailure>)

  predicate AtMost(s: Option<string>, n: nat) {
    s.None? || Utf16Length(s.value) <= n
  }

  /** What the validators of the schema check together, on a guest that recorded no cast error; `isEmail` is the validator library's predicate. */
  predicate AdmissibleGuest(g: Guest, isEmail: string -> bool) {
    g.castErrors == []
    && Present(g.fullName) && AtMost(g.fullName, 50) && Present(g.fullNameLowerCase)
    && Present(g.email) && isEmail(g.email.value)
    && Present(g.nationalId) && AtMost(g.nationalId, 30)
    && Present(g.nationality) && AtMost(g.nationality, 50)
  }

  /**
   * The messages of a failed validation: the recorded cast errors first,
   * then the first failing validator of each path, skipping the paths whose
   * cast failed. The paths are listed in schema order, not in the order
   * Mongoose runs their validators.
   */
  function GuestValidationMessages(g: Guest, isEmail: string -> bool): (ms: seq<string>)
    ensures ms == [] <==> AdmissibleGuest(g, isEmail)
    ensures |ms| >= |g.castErrors| && ms[..|g.castErrors|] == FailureMessages(g.castErrors)
  {
    var r := FailureMessages(g.castErrors) + NameMessages(g) + IdentityMessages(g, isEmail);
    assert r[..|g.castErrors|] == FailureMessages(g.castErrors);
    r
  }

  /** The paths `fullName` and `fullNameLowerCase`. */
  function NameMessages(g: Guest): (ms: seq<string>)
    ensures g.castErrors == [] ==> (ms == [] <==> Present(g.fullName) && AtMost(g.fullName, 50) && Present(g.fullNameLowerCase))
  {
    Unless(g.castErrors, "fullName", if !Present(g.fullName) then ["A guest must has a fullname."]
                                     else Check(AtMost(g.fullName, 50), "A fullname can not exceed 50 characters."))
    + Unless(g.castErrors, "fullNameLowerCase", Check(Present(g.fullNameLowerCase), "Plese submit lowercase of the fullname."))
  }

  /** The paths `email`, `nationalId` and `nationality`. */
  function IdentityMessages(g: Guest, isEmail: string -> bool): (ms: seq<string>)
    ensures g.castErrors == [] ==> (ms == [] <==>
      Present(g.email) && isEmail(g.email.value) && Present(g.nationalId) && AtMost(g.nationalId, 30)
      && Present(g.nationality) && AtMost(g.nationality, 50))
  {
    Unless(g.castErrors, "email", if !Present(g.email) then ["A guest must has an email."]
                                  else Check(isEmail(g.email.value), "Please submit a valid email address."))
    + Unless(g.castErrors, "nationalId", if !Present(g.nationalId) then ["A guest must has a national id number."]
                                         else Check(AtMost(g.nationalId, 30), "A national Id number can not exceed 30 characters."))
    + Unless(g.castErrors, "nationality", if !Present(g.nationality) then ["A guest must has a nationality."]
                                          else Check(AtMost(g.nationality, 50), "A nationality can not exceed 50 characters."))
  }

  /** The cast errors `new Guests(body)` records, in schema order. */
  function GuestCastErrors(body: Fields): (r: seq<CastFailure>)
    ensures r == [] <==>
      !StringFails(Get(body, "fullName")) && !StringFails(Get(body, "fullNameLowerCase")) && !StringFails(Get(body, "email"))
      && !StringFails(Get(body, "nationalId")) && !StringFails(Get(body, "nationality")) && !StringFails(Get(body, "countryFlag"))
  {
    StringFailure(Get(body, "fullName"), "fullName") + StringFailure(Get(body, "fullNameLowerCase"), "fullNameLowerCase")
    + StringFailure(Get(body, "email"), "email") + StringFailure(Get(body, "nationalId"), "nationalId")
    + StringFailure(Get(body, "nationality"), "nationality") + StringFailure(Get(body, "countryFlag"), "countryFlag")
  }

  /**
   * `new Guests(body)`: every path cast and passed through its setters, and
   * every value that does not cast recorded. The default of
   * `fullNameLowerCase` applies when that path is still unset after the
   * casts; it reads `this.fullName.toLowerCase()` and throws when there is
   * no full name.
   */
  function CastGuest(body: Fields, id: string): (r: Option<Guest>)
    ensures var given := Get(body, "fullNameLowerCase");
      r.None? <==> (given.None? || StringFails(given)) && CastString(Get(body, "fullName")).None?
    ensures r.Some? ==> r.value.id == id && r.value.castErrors == GuestCastErrors(body)
    ensures r.Some? ==> r.value.fullName == Trimmed(CastString(Get(body, "fullName")))
    ensures r.Some? ==> r.value.email == TrimmedLower(CastString(Get(body, "email")))
    ensures r.Some? ==> r.value.nationalId == Trimmed(CastString(Get(body, "nationalId")))
    ensures r.Some? ==> r.value.nationality == TrimmedLower(CastString(Get(body, "nationality")))
    ensures r.Some? && Get(body, "fullNameLowerCase").None? ==> r.value.fullNameLowerCase == Lowered(r.value.fullName)
  {
    var fullName := Trimmed(CastString(Get(body, "fullName")));
    var given := Get(body, "fullNameLowerCase");
    var unset := given.None? || StringFails(given);
    if unset && fullName.None? then None
    else
      var lower := if unset then Lowered(fullName) else Trimmed(CastString(given));
      Some(Guest(id, fullName, lower,
                 TrimmedLower(CastString(Get(body, "email"))),
                 Trimmed(CastString(Get(body, "nationalId"))),
                 TrimmedLower(CastString(Get(body, "nationality"))),
                 CastString(Get(body, "countryFlag")),
                 GuestCastErrors(body)))
  }

  /** An email sent as a list does not cast: the guest is refused with that cast error first. */
  lemma EmailListRefused(body: Fields, id: string, isEmail: string -> bool, items: seq<Value>)
    requires Get(body, "email") == Some(Arr(items))
    requires CastGuest(body, id).Some?
    ensures var g := CastGuest(body, id).value;
      !AdmissibleGuest(g, isEmail)
      && CastMessage("string", Arr(items), "email", None) in GuestValidationMessages(g, isEmail)
  {
    var g := CastGuest(body, id).value;
    var pre := StringFailure(Get(body, "fullName"), "fullName") + StringFailure(Get(body, "fullNameLowerCase"), "fullNameLowerCase");
    assert g.castErrors[|pre|].message == CastMessage("string", Arr(items), "email", None);
    assert FailureMessages(g.castErrors)[|pre|] == g.castErrors[|pre|].message;
    assert GuestValidationMessages(g, isEmail)[..|g.castErrors|] == FailureMessages(g.castErrors);
    assert GuestValidationMessages(g, isEmail)[|pre|] == FailureMessages(g.castErrors)[|pre|];
  }

  /** Why a create was refused. */
  datatype CreateFailure =
    | NoFullName                  // the default of `fullNameLowerCase` threw
    | InvalidGuest(doc: Guest)    // a validator failed
    | DuplicateEmail              // the unique index on `email`

  datatype CreateResult = Created(guest: Guest) | Rejected(failure: CreateFailure)

  /** The error `create` rejects with. */
  function CreateError(f: CreateFailure, isEmail: string -> bool): (e: Err)
    ensures f.InvalidGuest? ==> e == ValidationError(GuestValidationMessages(f.doc, isEmail))
    ensures f.DuplicateEmail? ==> e == DuplicateKeyError(["email"])
    ensures f.NoFullName? ==> e.name == "TypeError"
  {
    match f
    case NoFullName => LowerCaseOfUndefined
    case InvalidGuest(doc) => ValidationError(GuestValidationMessages(doc, isEmail))
    case DuplicateEmail => DuplicateKeyError(["email"])
  }

  predicate EmailTaken(gs: seq<Guest>, email: Option<string>) {
    exists i :: 0 <= i < |gs| && gs[i].email == email
  }

  /** Validation and the unique index applied to a cast document (`None` when its defaults threw). */
  function Admit(gs: seq<Guest>, cast: Option<Guest>, isEmail: string -> bool): (r: CreateResult)
    ensures r.Created? <==> cast.Some? && AdmissibleGuest(cast.value, isEmail) && !EmailTaken(gs, cast.value.email)
    ensures r.Created? ==> r.guest == cast.value
    ensures cast.None? ==> r == Rejected(NoFullName)
  {
    match cast
    case None => Rejected(NoFullName)
    case Some(g) =>
      if !AdmissibleGuest(g, isEmail) then Rejected(InvalidGuest(g))
      else if EmailTaken(gs, g.email) then Rejected(DuplicateEmail)
      else Created(g)
  }

  /** `Guests.create(body)` on the collection `gs`. */
  function CreateOutcome(gs: seq<Guest>, body: Fields, id: string, isEmail: string -> bool): (r: CreateResult)
    ensures r.Created? ==> CastGuest(body, id) == Some(r.guest) && AdmissibleGuest(r.guest, isEmail)
                           && !EmailTaken(gs, r.guest.email)
    ensures CastGuest(body, id).None? ==> r == Rejected(NoFullName)
  {
    Admit(gs, CastGuest(body, id), isEmail)
  }

  /** Every stored guest passed validation and no two share an email. */
  ghost predicate GuestsConsistent(gs: seq<Guest>, isEmail: string -> bool) {
    (forall i :: 0 <= i < |gs| ==> AdmissibleGuest(gs[i], isEmail))
    && forall i, j :: 0 <= i < |gs| && 0 <= j < |gs| && i != j ==> gs[i].email != gs[j].email
  }

  /** Admitting a document keeps the collection consistent. */
  lemma AdmitKeepsConsistent(gs: seq<Guest>, cast: Option<Guest>, isEmail: string -> bool)
    requires GuestsConsistent(gs, isEmail)
    ensures var r := Admit(gs, cast, isEmail);
      r.Created? ==> GuestsConsistent(gs + [r.guest], isEmail)
  {
    var r := Admit(gs, cast, isEmail);
    if r.Created? {
      var gs' := gs + [r.guest];
      forall i, j | 0 <= i < |gs'| && 0 <= j < |gs'| && i != j ensures gs'[i].email != gs'[j].email {
        if i == |gs| {
          assert gs'[j] == gs[j];
        } else if j == |gs| {
          assert gs'[i] == gs[i];
        } else {
          assert gs'[i] == gs[i] && gs'[j] == gs[j];
        }
      }
    }
  }

  /** A successful create keeps the collection consistent. */
  lemma CreateKeepsConsistent(gs: seq<Guest>, body: Fields, id: string, isEmail: string -> bool)
    requires GuestsConsistent(gs, isEmail)
    ensures var r := CreateOutcome(gs, body, id, isEmail);
      r.Created? ==> GuestsConsistent(gs + [r.guest], isEmail)
  {
    AdmitKeepsConsistent(gs, CastGuest(body, id), isEmail);
  }

  /** A stored full name, email, identity number and nationality never carry surrounding white space, and email and nationality are lowercase. */
  lemma CreatedGuestNormalised(gs: seq<Guest>, body: Fields, id: string, isEmail: string -> bool)
    requires CreateOutcome(gs, body, id, isEmail).Created?
    ensures var g := CreateOutcome(gs, body, id, isEmail).guest;
      Trim(g.fullName.value) == g.fullName.value && Trim(g.nationalId.value) == g.nationalId.value
      && ToLower(g.email.value) == g.email.value && ToLower(g.nationality.value) == g.nationality.value
  {
    var g := CreateOutcome(gs, body, id, isEmail).guest;
    TrimIdempotent(CastString(Get(body, "fullName")).value);
    TrimIdempotent(CastString(Get(body, "nationalId")).value);
    ToLowerIdempotent(Trim(CastString(Get(body, "email")).value));
    ToLowerIdempotent(Trim(CastString(Get(body, "nationality")).value));
  }

  /** Without a `fullNameLowerCase` in the body, the stored one is the lowercase of the stored full name. */
  lemma DefaultLowerCaseName(gs: seq<Guest>, body: Fields, id: string, isEmail: string -> bool)
    requires Get(body, "fullNameLowerCase").None?
    requires CreateOutcome(gs, body, id, isEmail).Created?
    ensures var g := CreateOutcome(gs, body, id, isEmail).guest;
      g.fullNameLowerCase == Some(ToLower(g.fullName.value))
  {
  }

  class GuestsTable {
    var guests: seq<Guest>
    /** The validator library's email predicate. */
    const isEmail: string -> bool

    ghost predicate Valid()
      reads this
    {
      GuestsConsistent(guests, isEmail)
    }

    constructor(isEmail: string -> bool)
      ensures guests == [] && this.isEmail == isEmail && Valid()
    {
      guests := [];
      this.isEmail := isEmail;
    }

    /** `Guests.create(body)`: cast, validate, insert; a refused create writes nothing. */
    method Create(body: Fields, id: string) returns (r: CreateResult)
      requires Valid()
      modifies this`guests
      ensures Valid()
      ensures r == CreateOutcome(old(guests), body, id, isEmail)
      ensures r.Created? ==> guests == old(guests) + [r.guest]
      ensures r.Rejected? ==> guests == old(guests)
    {
      var cast := CastGuest(body, id);
      if cast.None? {
        return Rejected(NoFullName);
      }
      var g := cast.value;
      if !AdmissibleGuest(g, isEmail) {
        return Rejected(InvalidGuest(g));
      }
      if EmailTaken(guests, g.email) {
        return Rejected(DuplicateEmail);
      }
      CreateKeepsConsistent(guests, body, id, isEmail);
      guests := guests + [g];
      r := Created(g);
    }

    /** `deleteMany({})`. */
    method DeleteAll()
      modifies this`guests
      ensures guests == [] && Valid()
    {
      guests := [];
    }
  }

  /** The paths of a guest in schema order. */
  const GuestPaths: seq<string> := ["_id", "fullName", "fullNameLowerCase", "email", "nationalId", "nationality",
    "countryFlag"]

  lemma GuestPathsDistinct()
    ensures Distinct(GuestPaths)
  {
  }

  function GuestValues(g: Guest, withLowerCase: bool): (vs: seq<Option<Value>>)
    ensures |vs| == |GuestPaths|
  {
    [Some(Str(g.id)), StrOf(g.fullName), if withLowerCase then StrOf(g.fullNameLowerCase) else None, StrOf(g.email),
     StrOf(g.nationalId), StrOf(g.nationality), StrOf(g.countryFlag)]
  }

  /** Each path of a guest document reads as its value. */
  lemma GuestReads(vs: seq<Option<Value>>)
    requires |vs| == |GuestPaths|
    ensures var fs := Document(GuestPaths, vs);
      && Get(fs, "_id") == vs[0] && Get(fs, "fullName") == vs[1] && Get(fs, "fullNameLowerCase") == vs[2]
      && Get(fs, "email") == vs[3] && Get(fs, "nationalId") == vs[4] && Get(fs, "nationality") == vs[5]
      && Get(fs, "countryFlag") == vs[6]
  {
    GuestPathsDistinct();
    DocumentGet(GuestPaths, vs, 0);
    DocumentGet(GuestPaths, vs, 1);
    DocumentGet(GuestPaths, vs, 2);
    DocumentGet(GuestPaths, vs, 3);
    DocumentGet(GuestPaths, vs, 4);
    DocumentGet(GuestPaths, vs, 5);
    DocumentGet(GuestPaths, vs, 6);
  }

  /** A guest as the response shows it; `fullNameLowerCase` is deselected on reads and shown only for a new document. */
  function GuestJson(g: Guest, withLowerCase: bool): (v: Value)
    ensures v.Obj? && Get(v.fields, "_id") == Some(Str(g.id))
  {
    var vs := GuestValues(g, withLowerCase);
    Obj(Entry("_id", vs[0]) + (Entry("fullName", vs[1]) + (Entry("fullNameLowerCase", vs[2]) + (
        Entry("email", vs[3]) + (Entry("nationalId", vs[4]) + (Entry("nationality", vs[5]) + (
        Entry("countryFlag", vs[6]))))))))
  }

  lemma GuestJsonIsDocument(g: Guest, withLowerCase: bool)
    ensures GuestJson(g, withLowerCase) == Obj(Document(GuestPaths, GuestValues(g, withLowerCase)))
  {
    DocumentOf7(GuestPaths, GuestValues(g, withLowerCase));
  }

  /** Every path of a guest is shown as stored; the lowercase name only when asked for; nothing else is shown. */
  lemma GuestJsonShowsEachPath(g: Guest, withLowerCase: bool)
    ensures var fs := GuestJson(g, withLowerCase).fields;
      && Get(fs, "fullName") == StrOf(g.fullName)
      && Get(fs, "fullNameLowerCase") == (if withLowerCase then StrOf(g.fullNameLowerCase) else None)
      && Get(fs, "email") == StrOf(g.email)
      && Get(fs, "nationalId") == StrOf(g.nationalId)
      && Get(fs, "nationality") == StrOf(g.nationality)
      && Get(fs, "countryFlag") == StrOf(g.countryFlag)
    ensures forall k :: k !in GuestPaths ==> Get(GuestJson(g, withLowerCase).fields, k).None?
  {
    var vs := GuestValues(g, withLowerCase);
    GuestJsonIsDocument(g, withLowerCase);
    GuestReads(vs);
    OnlySchemaPaths(GuestPaths, vs);
  }
}
