/**
 * The booking handlers: creating a booking from a request body (with the
 * compensating delete when the confirmation email fails), the self-service
 * lookup by PNR code, the occupied days of a cabin, and the restore that
 * rebuilds the collection from a dataset of seed records.
 */
module BookingsController {
  import opened Wrappers
  import opened Json
  import opened Strings
  import opened AppErrors
  import opened Casts
  import opened Http
  import opened TzHelpers
  import opened BookingsModel
  import GuestsModel
  import ApiControllers
  import ApiTranslation
  import Coercions

  /** What the handlers take from their surroundings: fresh ids and PNR codes, the date parser, the ObjectId test, and the price lookups of the pre-save hook. */
  datatype Env = Env(
    ids: nat -> string,                      // the ObjectId given to the n-th new document
    pnrs: nat -> string,                     // the n-th value of the PNR generator
    parseDate: string -> Option<int>,        // Mongoose's cast of a string to a Date
    isObjectId: string -> bool,              // the BSON library's test of an ObjectId string
    rates: string -> Option<CabinRates>,     // `Cabins.findById(id)`
    guests: string -> Option<GuestsModel.Guest>,  // `Guests.findById(id)`
    breakfastPrice: Option<Option<int>>)     // the active settings record and its breakfast price

  /** The cabin the pre-save hook reads for a booking. */
  function CabinOf(env: Env, b: Booking): Option<CabinRates> {
    if b.cabinId.Some? then env.rates(b.cabinId.value) else None
  }

  /**
   * The cast errors `new Bookings(fields)` records, in schema order. The end
   * date is left out: the pre-validate hook overwrites whatever was sent.
   */
  function BookingCastErrors(fs: Fields, parseDate: string -> Option<int>, isObjectId: string -> bool): (r: seq<CastFailure>)
    ensures r == [] <==>
      !DateFails(Get(fs, "startDateUtc"), parseDate) && !NumberFails(Get(fs, "numNights"))
      && !StringFails(Get(fs, "hotelTimeZone")) && !NumberFails(Get(fs, "numGuests"))
      && !DecimalFails(Get(fs, "cabinPrice")) && !DecimalFails(Get(fs, "extraPrice")) && !DecimalFails(Get(fs, "totalPrice"))
      && !StringFails(Get(fs, "status")) && !BoolFails(Get(fs, "hasBreakfast")) && !BoolFails(Get(fs, "isPaid"))
      && !StringFails(Get(fs, "pnrCode")) && !StringFails(Get(fs, "observations"))
      && !ObjectIdFails(Get(fs, "cabinId"), isObjectId) && !ObjectIdFails(Get(fs, "guestId"), isObjectId)
  {
    DateFailure(Get(fs, "startDateUtc"), "startDateUtc", parseDate)
    + NumberFailure(Get(fs, "numNights"), "numNights")
    + StringFailure(Get(fs, "hotelTimeZone"), "hotelTimeZone")
    + NumberFailure(Get(fs, "numGuests"), "numGuests")
    + DecimalFailure(Get(fs, "cabinPrice"), "cabinPrice")
    + DecimalFailure(Get(fs, "extraPrice"), "extraPrice")
    + DecimalFailure(Get(fs, "totalPrice"), "totalPrice")
    + StringFailure(Get(fs, "status"), "status")
    + BoolFailure(Get(fs, "hasBreakfast"), "hasBreakfast")
    + BoolFailure(Get(fs, "isPaid"), "isPaid")
    + StringFailure(Get(fs, "pnrCode"), "pnrCode")
    + StringFailure(Get(fs, "observations"), "observations")
    + ObjectIdFailure(Get(fs, "cabinId"), "cabinId", isObjectId)
    + ObjectIdFailure(Get(fs, "guestId"), "guestId", isObjectId)
  }

  /** The `status` path of a new booking: the default "unconfirmed" unless a value that casts replaces it, lowercased. */
  function StatusOf(v: Option<Value>): (r: Option<string>)
    ensures v.None? || StringFails(v) ==> r == Some(ToLower("unconfirmed"))
    ensures v.Some? && v.value.Str? ==> r == Some(ToLower(v.value.s))
    ensures v == Some(Null) ==> r.None?
  {
    if v.None? || StringFails(v) then Lowered(Some("unconfirmed")) else Lowered(CastString(v))
  }

  /** The `pnrCode` path: a value that casts, else a fresh code from the generator. */
  function PnrOf(v: Option<Value>, pnr: string): (r: string)
    ensures v.None? || StringFails(v) ==> r == pnr
    ensures v.Some? && v.value.Str? ==> r == v.value.s
  {
    if v.None? || StringFails(v) then pnr else CastString(v).GetOr("")
  }

  /**
   * `new Bookings(fields)`: every path cast to its type. The defaults are
   * set first, so a value that does not cast leaves `status` "unconfirmed"
   * and `hasBreakfast` and `isPaid` false; a PNR code comes from the
   * generator when none casts; observations are trimmed; every value that
   * does not cast is recorded.
   */
  function CastBooking(fs: Fields, id: string, pnr: string, parseDate: string -> Option<int>,
                       isObjectId: string -> bool): (b: Booking)
    ensures b.id == id && b.castErrors == BookingCastErrors(fs, parseDate, isObjectId)
    ensures b.status == StatusOf(Get(fs, "status"))
    ensures b.pnrCode == PnrOf(Get(fs, "pnrCode"), pnr)
    ensures b.startDateUtc == CastDate(Get(fs, "startDateUtc"), parseDate)
    ensures b.numNights == CastNumber(Get(fs, "numNights")) && b.numGuests == CastNumber(Get(fs, "numGuests"))
    ensures b.hasBreakfast == CastBool(Get(fs, "hasBreakfast"), false) && b.isPaid == CastBool(Get(fs, "isPaid"), false)
    ensures b.cabinId == CastObjectId(Get(fs, "cabinId"), isObjectId)
    ensures b.guestId == CastObjectId(Get(fs, "guestId"), isObjectId)
  {
    Booking(id,
            CastDate(Get(fs, "startDateUtc"), parseDate),
            CastNumber(Get(fs, "numNights")),
            CastString(Get(fs, "hotelTimeZone")),
            CastDate(Get(fs, "endDateUtc"), parseDate),
            CastNumber(Get(fs, "numGuests")),
            DecimalOf(CastDecimal(Get(fs, "cabinPrice"))),
            DecimalOf(CastDecimal(Get(fs, "extraPrice"))),
            DecimalOf(CastDecimal(Get(fs, "totalPrice"))),
            StatusOf(Get(fs, "status")),
            CastBool(Get(fs, "hasBreakfast"), false),
            CastBool(Get(fs, "isPaid"), false),
            PnrOf(Get(fs, "pnrCode"), pnr),
            Trimmed(CastString(Get(fs, "observations"))),
            CastObjectId(Get(fs, "cabinId"), isObjectId),
            CastObjectId(Get(fs, "guestId"), isObjectId),
            BookingCastErrors(fs, parseDate, isObjectId))
  }

  /** A party size sent as text casts like the number itself and records no error on that path. */
  lemma GuestCountAsText(fs: Fields, n: int, id: string, pnr: string, parseDate: string -> Option<int>,
                         isObjectId: string -> bool)
    requires Get(fs, "numGuests") == Some(Str(IntToString(n)))
    ensures CastBooking(fs, id, pnr, parseDate, isObjectId).numGuests == Some(n)
    ensures !NumberFails(Get(fs, "numGuests"))
  {
    CastNumberOfRendering(n);
  }

  /** A flag that does not cast keeps the default: the booking is not paid, and the save reports the cast error. */
  lemma UncastPaidFlag(fs: Fields, id: string, pnr: string, parseDate: string -> Option<int>, isObjectId: string -> bool,
                       x: Value)
    requires Get(fs, "isPaid") == Some(x) && BoolFails(Some(x))
    ensures var b := CastBooking(fs, id, pnr, parseDate, isObjectId);
      b.isPaid == Some(false) && !Admissible(b)
      && CastMessage("Boolean", x, "isPaid", Some("CastError")) in ValidationMessages(b)
  {
    var b := CastBooking(fs, id, pnr, parseDate, isObjectId);
    var i := PaidFailureRecorded(fs, parseDate, isObjectId, x);
    FailureReported(b, i);
  }

  /** Where the cast error of an `isPaid` that does not cast sits among the recorded ones. */
  lemma PaidFailureRecorded(fs: Fields, parseDate: string -> Option<int>, isObjectId: string -> bool, x: Value)
    returns (i: nat)
    requires Get(fs, "isPaid") == Some(x) && BoolFails(Some(x))
    ensures i < |BookingCastErrors(fs, parseDate, isObjectId)|
    ensures BookingCastErrors(fs, parseDate, isObjectId)[i] == CastFailure("isPaid", CastMessage("Boolean", x, "isPaid", Some("CastError")))
  {
    var pre := DateFailure(Get(fs, "startDateUtc"), "startDateUtc", parseDate)
      + NumberFailure(Get(fs, "numNights"), "numNights")
      + StringFailure(Get(fs, "hotelTimeZone"), "hotelTimeZone")
      + NumberFailure(Get(fs, "numGuests"), "numGuests")
      + DecimalFailure(Get(fs, "cabinPrice"), "cabinPrice")
      + DecimalFailure(Get(fs, "extraPrice"), "extraPrice")
      + DecimalFailure(Get(fs, "totalPrice"), "totalPrice")
      + StringFailure(Get(fs, "status"), "status")
      + BoolFailure(Get(fs, "hasBreakfast"), "hasBreakfast");
    var e := CastFailure("isPaid", CastMessage("Boolean", x, "isPaid", Some("CastError")));
    assert BoolFailure(Get(fs, "isPaid"), "isPaid") == [e];
    i := |pre|;
    // Appending keeps the item at position `i`, one part at a time.
    var errors := pre + BoolFailure(Get(fs, "isPaid"), "isPaid");
    assert errors[i] == e;
    errors := errors + StringFailure(Get(fs, "pnrCode"), "pnrCode");
    assert errors[i] == e;
    errors := errors + StringFailure(Get(fs, "observations"), "observations");
    assert errors[i] == e;
    errors := errors + ObjectIdFailure(Get(fs, "cabinId"), "cabinId", isObjectId);
    assert errors[i] == e;
    errors := errors + ObjectIdFailure(Get(fs, "guestId"), "guestId", isObjectId);
    assert errors == BookingCastErrors(fs, parseDate, isObjectId);
  }

  /** The n-th document of a create, cast with its fresh id and PNR code. */
  function CastEach(docs: seq<Fields>, env: Env): (bs: seq<Booking>)
    ensures |bs| == |docs|
    ensures forall i :: 0 <= i < |docs| ==> bs[i] == CastBooking(docs[i], env.ids(i), env.pnrs(i), env.parseDate, env.isObjectId)
  {
    seq(|docs|, i requires 0 <= i < |docs| => CastBooking(docs[i], env.ids(i), env.pnrs(i), env.parseDate, env.isObjectId))
  }

  /** A Decimal128 price as `convertDecimal128Fields` leaves it: a plain number. */
  function AmountOf(p: Option<Price>): (r: Option<Value>)
    ensures r.Some? <==> p.Some?
    ensures p.Some? ==> r.value == Num(p.value.amount)
  {
    if p.Some? then Some(Num(p.value.amount)) else None
  }

  /** The paths of a booking in the order `toJSON` lists them. */
  const BookingPaths: seq<string> := ["_id", "startDateUtc", "numNights", "hotelTimeZone", "endDateUtc", "numGuests",
    "cabinPrice", "extraPrice", "totalPrice", "status", "hasBreakfast", "isPaid", "pnrCode", "observations",
    "cabinId", "guestId"]

  lemma BookingPathsDistinct()
    ensures Distinct(BookingPaths)
  {
  }

  /** The value of each path of `BookingPaths`; `guest` replaces the guest id when populated. */
  function BookingValues(b: Booking, guest: Option<Value>): (vs: seq<Option<Value>>)
    ensures |vs| == |BookingPaths|
  {
    [Some(Str(b.id)), NumOf(b.startDateUtc), NumOf(b.numNights), StrOf(b.hotelTimeZone), NumOf(b.endDateUtc),
     NumOf(b.numGuests), AmountOf(b.cabinPrice), AmountOf(b.extraPrice), AmountOf(b.totalPrice), StrOf(b.status),
     BoolOf(b.hasBreakfast), BoolOf(b.isPaid), Some(Str(b.pnrCode)), StrOf(b.observations),
     StrOf(b.cabinId), GuestValue(b, guest)]
  }

  /** What `guestId` shows: the populated guest, or else the stored id. */
  function GuestValue(b: Booking, guest: Option<Value>): (r: Option<Value>)
    ensures guest.Some? ==> r == guest
    ensures guest.None? ==> r == StrOf(b.guestId)
  {
    if guest.Some? then guest else StrOf(b.guestId)
  }

  /** Each path of a booking document reads as its value. */
  lemma BookingReads(vs: seq<Option<Value>>)
    requires |vs| == |BookingPaths|
    ensures var fs := Document(BookingPaths, vs);
      && Get(fs, "_id") == vs[0] && Get(fs, "startDateUtc") == vs[1] && Get(fs, "numNights") == vs[2]
      && Get(fs, "hotelTimeZone") == vs[3] && Get(fs, "endDateUtc") == vs[4] && Get(fs, "numGuests") == vs[5]
      && Get(fs, "cabinPrice") == vs[6] && Get(fs, "extraPrice") == vs[7] && Get(fs, "totalPrice") == vs[8]
      && Get(fs, "status") == vs[9] && Get(fs, "hasBreakfast") == vs[10] && Get(fs, "isPaid") == vs[11]
      && Get(fs, "pnrCode") == vs[12] && Get(fs, "observations") == vs[13] && Get(fs, "cabinId") == vs[14]
      && Get(fs, "guestId") == vs[15]
  {
    BookingPathsDistinct();
    DocumentGet(BookingPaths, vs, 0);
    DocumentGet(BookingPaths, vs, 1);
    DocumentGet(BookingPaths, vs, 2);
    DocumentGet(BookingPaths, vs, 3);
    DocumentGet(BookingPaths, vs, 4);
    DocumentGet(BookingPaths, vs, 5);
    DocumentGet(BookingPaths, vs, 6);
    DocumentGet(BookingPaths, vs, 7);
    DocumentGet(BookingPaths, vs, 8);
    DocumentGet(BookingPaths, vs, 9);
    DocumentGet(BookingPaths, vs, 10);
    DocumentGet(BookingPaths, vs, 11);
    DocumentGet(BookingPaths, vs, 12);
    DocumentGet(BookingPaths, vs, 13);
    DocumentGet(BookingPaths, vs, 14);
    DocumentGet(BookingPaths, vs, 15);
  }

  /** A booking as a response shows it; `guest` is the populated guest document, if any. */
  function BookingJson(b: Booking, guest: Option<Value>): (v: Value)
    ensures v.Obj? && Get(v.fields, "_id") == Some(Str(b.id))
  {
    var vs := BookingValues(b, guest);
    Obj(Entry("_id", vs[0]) + (Entry("startDateUtc", vs[1]) + (Entry("numNights", vs[2]) + (
        Entry("hotelTimeZone", vs[3]) + (Entry("endDateUtc", vs[4]) + (Entry("numGuests", vs[5]) + (
        Entry("cabinPrice", vs[6]) + (Entry("extraPrice", vs[7]) + (Entry("totalPrice", vs[8]) + (
        Entry("status", vs[9]) + (Entry("hasBreakfast", vs[10]) + (Entry("isPaid", vs[11]) + (
        Entry("pnrCode", vs[12]) + (Entry("observations", vs[13]) + (Entry("cabinId", vs[14]) + (
        Entry("guestId", vs[15])))))))))))))))))
  }

  lemma BookingJsonIsDocument(b: Booking, guest: Option<Value>)
    ensures BookingJson(b, guest) == Obj(Document(BookingPaths, BookingValues(b, guest)))
  {
    DocumentOf16(BookingPaths, BookingValues(b, guest));
  }

  /** A booking shows its dates, length of stay, time zone and party size as they are stored. */
  lemma BookingJsonShowsStay(b: Booking, guest: Option<Value>)
    ensures var fs := BookingJson(b, guest).fields;
      && Get(fs, "startDateUtc") == NumOf(b.startDateUtc)
      && Get(fs, "numNights") == NumOf(b.numNights)
      && Get(fs, "hotelTimeZone") == StrOf(b.hotelTimeZone)
      && Get(fs, "endDateUtc") == NumOf(b.endDateUtc)
      && Get(fs, "numGuests") == NumOf(b.numGuests)
  {
    BookingJsonIsDocument(b, guest);
    BookingReads(BookingValues(b, guest));
  }

  /** A booking shows each Decimal128 price as a plain number. */
  lemma BookingJsonShowsPrices(b: Booking, guest: Option<Value>)
    ensures var fs := BookingJson(b, guest).fields;
      && Get(fs, "cabinPrice") == AmountOf(b.cabinPrice)
      && Get(fs, "extraPrice") == AmountOf(b.extraPrice)
      && Get(fs, "totalPrice") == AmountOf(b.totalPrice)
  {
    BookingJsonIsDocument(b, guest);
    BookingReads(BookingValues(b, guest));
  }

  /** A booking shows its state, its PNR code and the notes and cabin it carries. */
  lemma BookingJsonShowsState(b: Booking, guest: Option<Value>)
    ensures var fs := BookingJson(b, guest).fields;
      && Get(fs, "status") == StrOf(b.status)
      && Get(fs, "hasBreakfast") == BoolOf(b.hasBreakfast)
      && Get(fs, "isPaid") == BoolOf(b.isPaid)
      && Get(fs, "pnrCode") == Some(Str(b.pnrCode))
      && Get(fs, "observations") == StrOf(b.observations)
      && Get(fs, "cabinId") == StrOf(b.cabinId)
  {
    BookingJsonIsDocument(b, guest);
    BookingReads(BookingValues(b, guest));
  }

  /** A populated guest takes the place of the guest id. */
  lemma BookingJsonShowsGuest(b: Booking, guest: Option<Value>)
    ensures Get(BookingJson(b, guest).fields, "guestId") == if guest.Some? then guest else StrOf(b.guestId)
  {
    var vs := BookingValues(b, guest);
    BookingJsonIsDocument(b, guest);
    BookingReads(vs);
    assert Get(BookingJson(b, guest).fields, "guestId") == vs[15];
  }

  /** A booking shows no path outside its schema. */
  lemma BookingJsonShowsNothingElse(b: Booking, guest: Option<Value>, k: string)
    requires k !in BookingPaths
    ensures Get(BookingJson(b, guest).fields, k).None?
  {
    BookingJsonIsDocument(b, guest);
    DocumentKeys(BookingPaths, BookingValues(b, guest), k);
  }

  // ------------------------------------------------------------ saving in turn

  /** `Model.create(docs)` on the collection `bs`, one document after another: the collection after it and the first failure. */
  function SaveEach(bs: seq<Booking>, docs: seq<Booking>, env: Env): (r: (seq<Booking>, Option<SaveFailure>))
    ensures |bs| <= |r.0| <= |bs| + |docs|
    ensures docs == [] ==> r == (bs, None)
  {
    if docs == [] then (bs, None)
    else
      var (cur, failed) := SaveEach(bs, docs[..|docs| - 1], env);
      var d := docs[|docs| - 1];
      if failed.Some? then (cur, failed)
      else match SaveOutcome(cur, d, CabinOf(env, d), env.breakfastPrice)
        case Saved(s) => (Upsert(cur, s), None)
        case Refused(f) => (cur, Some(f))
  }

  /** Saving in turn keeps the collection consistent, whatever fails. */
  lemma {:induction false} SaveEachConsistent(bs: seq<Booking>, docs: seq<Booking>, env: Env)
    requires Consistent(bs)
    ensures Consistent(SaveEach(bs, docs, env).0)
  {
    if docs != [] {
      var n := |docs| - 1;
      SaveEachConsistent(bs, docs[..n], env);
      var cur := SaveEach(bs, docs[..n], env).0;
      SaveKeepsConsistent(cur, docs[n], CabinOf(env, docs[n]), env.breakfastPrice);
    }
  }

  /** Once a document is refused, the later ones are not attempted. */
  lemma {:induction false} SaveEachStops(bs: seq<Booking>, docs: seq<Booking>, env: Env, k: nat)
    requires k <= |docs| && SaveEach(bs, docs[..k], env).1.Some?
    ensures SaveEach(bs, docs, env) == SaveEach(bs, docs[..k], env)
    decreases |docs| - k
  {
    if k < |docs| {
      assert docs[..k + 1][..k] == docs[..k];
      SaveEachStops(bs, docs, env, k + 1);
    } else {
      assert docs[..k] == docs;
    }
  }

  /** One step of saving in turn. */
  lemma SaveEachStep(bs: seq<Booking>, docs: seq<Booking>, env: Env, i: nat, cur: seq<Booking>, r: SaveResult)
    requires i < |docs| && SaveEach(bs, docs[..i], env) == (cur, None)
    requires r == SaveOutcome(cur, docs[i], CabinOf(env, docs[i]), env.breakfastPrice)
    ensures r.Saved? ==> SaveEach(bs, docs[..i + 1], env) == (Upsert(cur, r.value), None)
    ensures r.Refused? ==> SaveEach(bs, docs, env) == (cur, Some(r.failure))
  {
    assert docs[..i + 1][..i] == docs[..i];
    if r.Refused? {
      SaveEachStops(bs, docs, env, i + 1);
    }
  }

  /** `Model.create(docs)` on the table, in turn. */
  method SaveAll(table: BookingsTable, docs: seq<Booking>, env: Env) returns (failed: Option<SaveFailure>)
    requires table.Valid()
    modifies table
    ensures table.Valid()
    ensures (table.bookings, failed) == SaveEach(old(table.bookings), docs, env)
  {
    ghost var start := table.bookings;
    var i := 0;
    while i < |docs|
      invariant 0 <= i <= |docs|
      invariant table.Valid()
      invariant SaveEach(start, docs[..i], env) == (table.bookings, None)
    {
      ghost var cur := table.bookings;
      ghost var outcome := SaveOutcome(cur, docs[i], CabinOf(env, docs[i]), env.breakfastPrice);
      var r := table.Save(docs[i], CabinOf(env, docs[i]), env.breakfastPrice);
      SaveEachStep(start, docs, env, i, cur, outcome);
      if r.Refused? {
        return Some(r.failure);
      }
      i := i + 1;
    }
    assert docs[..i] == docs;
    failed := None;
  }

  // --------------------------------------------------------- createNewBooking

  /** `{ ...req.body, ...nested }` with `status` then forced to "unconfirmed". */
  function ObjectBody(body: Value, nested: Option<Fields>): (r: Fields)
    ensures Get(r, "status") == Some(Str("unconfirmed"))
  {
    Set(ApiControllers.CreateFields(body, nested), "status", Str("unconfirmed"))
  }

  /** Every other path of the body is as the client and the nested route sent it. */
  lemma ObjectBodyKeeps(body: Value, nested: Option<Fields>, k: string)
    requires k != "status"
    ensures Get(ObjectBody(body, nested), k) == Get(ApiControllers.CreateFields(body, nested), k)
  {
  }

  /** What an array body meets after it was created: `populate` is not a method of an array. */
  const PopulateOnArray: Err := TypeError("newBooking.populate is not a function")

  /**
   * `newBooking.populate({ path: "guestId", select: "email nationalId" })`:
   * the guest's id, email and national id in place of the reference, `null`
   * when no guest has that id, nothing when the booking names no guest.
   */
  function PopulatedGuest(b: Booking, find: string -> Option<GuestsModel.Guest>): (r: Option<Value>)
    ensures b.guestId.None? ==> r.None?
    ensures b.guestId.Some? && find(b.guestId.value).None? ==> r == Some(Null)
    ensures b.guestId.Some? && find(b.guestId.value).Some? ==>
      var g := find(b.guestId.value).value;
      r.Some? && r.value.Obj? && Get(r.value.fields, "_id") == Some(Str(g.id))
      && Get(r.value.fields, "email") == StrOf(g.email) && Get(r.value.fields, "nationalId") == StrOf(g.nationalId)
      && Get(r.value.fields, "fullName").None?
  {
    if b.guestId.None? then None
    else match find(b.guestId.value)
      case None => Some(Null)
      case Some(g) => Some(Obj([("_id", Str(g.id))] + Entry("email", StrOf(g.email)) + Entry("nationalId", StrOf(g.nationalId))))
  }

  /** The 201 answer to a created booking: the booking with its guest populated, under a status spelt "succes". */
  function CreatedReply(b: Booking, find: string -> Option<GuestsModel.Guest>): (r: Reply)
    ensures r.Respond? && r.status == 201
    ensures r.body == Envelope("succes", Obj([("populatedNewBooking", BookingJson(b, PopulatedGuest(b, find)))]))
  {
    Respond(201, Envelope("succes", Obj([("populatedNewBooking", BookingJson(b, PopulatedGuest(b, find)))])))
  }

  /** `createNewBooking` with an array body: every element is created, then `populate` throws. */
  function ArrayCreate(nested: Option<Fields>, bs: seq<Booking>, body: Value, env: Env): (r: (Reply, seq<Booking>))
    requires body.Arr?
    ensures r.0.NextError? && |bs| <= |r.1| <= |bs| + |body.items|
    ensures var saved := SaveEach(bs, CastEach(ApiControllers.CreateBodies(body, nested), env), env);
      r.1 == saved.0 && (saved.1.None? ==> r.0.err == PopulateOnArray)
  {
    var saved := SaveEach(bs, CastEach(ApiControllers.CreateBodies(body, nested), env), env);
    (NextError(if saved.1.Some? then SaveError(saved.1.value) else PopulateOnArray), saved.0)
  }

  /** `createNewBooking` with an object body; `emailSent` says whether the confirmation email went out. */
  function ObjectCreate(tr: ApiTranslation.ApiTranslation, lang: Option<Value>, nested: Option<Fields>,
                        bs: seq<Booking>, body: Value, env: Env, emailSent: bool): (r: (Reply, seq<Booking>))
    ensures var b := CastBooking(ObjectBody(body, nested), env.ids(0), env.pnrs(0), env.parseDate, env.isObjectId);
      var o := SaveOutcome(bs, b, CabinOf(env, b), env.breakfastPrice);
      && (o.Saved? && emailSent && GuestFound(o.value, env.guests) ==>
            r.0.Respond? && r.0.status == 201 && r.1 == Upsert(bs, o.value))
      && (o.Saved? && !(emailSent && GuestFound(o.value, env.guests)) ==>
            r.0.NextError? && r.0.err.statusCode == Some(500))
      && (o.Refused? ==> r == (NextError(SaveError(o.failure)), bs))
  {
    var b := CastBooking(ObjectBody(body, nested), env.ids(0), env.pnrs(0), env.parseDate, env.isObjectId);
    AfterSave(tr, lang, bs, SaveOutcome(bs, b, CabinOf(env, b), env.breakfastPrice), env.guests, emailSent)
  }

  /** `Guests.findById(guestId)` finds the guest; `new Email(null, ...)` throws otherwise. */
  predicate GuestFound(b: Booking, find: string -> Option<GuestsModel.Guest>) {
    b.guestId.Some? && find(b.guestId.value).Some?
  }

  /**
   * What follows the save of one booking: the refusal; or the email to the
   * guest and the 201; or, when the guest is not found (the email cannot be
   * built) or the email fails, the compensating delete and a 500.
   */
  function AfterSave(tr: ApiTranslation.ApiTranslation, lang: Option<Value>, bs: seq<Booking>, o: SaveResult,
                     find: string -> Option<GuestsModel.Guest>, emailSent: bool): (r: (Reply, seq<Booking>))
    ensures o.Refused? ==> r == (NextError(SaveError(o.failure)), bs)
    ensures o.Saved? && emailSent && GuestFound(o.value, find) ==>
              r.0 == CreatedReply(Converted(o.value), find) && r.1 == Upsert(bs, o.value)
    ensures o.Saved? && !(emailSent && GuestFound(o.value, find)) ==>
              r.0 == Refuse(tr, lang, "emailSendError", 500) && r.1 == RemoveId(Upsert(bs, o.value), o.value.id)
  {
    match o
    case Refused(f) => (NextError(SaveError(f)), bs)
    case Saved(s) =>
      if emailSent && GuestFound(s, find) then (CreatedReply(Converted(s), find), Upsert(bs, s))
      else (Refuse(tr, lang, "emailSendError", 500), RemoveId(Upsert(bs, s), s.id))
  }

  /** `createNewBooking` on the collection `bs`. */
  function NewBookingReply(tr: ApiTranslation.ApiTranslation, nested: Option<Fields>, bs: seq<Booking>,
                           req: Request, env: Env, emailSent: bool): (r: (Reply, seq<Booking>))
  {
    if req.body.Arr? then ArrayCreate(nested, bs, req.body, env)
    else ObjectCreate(tr, req.Lang(), nested, bs, req.body, env, emailSent)
  }

  /** `createNewBooking`. */
  method CreateNewBooking(c: ApiControllers.ApiController, table: BookingsTable, req: Request, env: Env,
                          emailSent: bool) returns (reply: Reply)
    requires table.Valid()
    modifies table
    ensures table.Valid()
    ensures (reply, table.bookings) == NewBookingReply(c.translation, c.nestedRouteFilter, old(table.bookings), req, env, emailSent)
  {
    if req.body.Arr? {
      reply := CreateFromArray(c.nestedRouteFilter, table, req.body, env);
    } else {
      var b := CastBooking(ObjectBody(req.body, c.nestedRouteFilter), env.ids(0), env.pnrs(0), env.parseDate, env.isObjectId);
      reply := CreateFromObject(c.translation, req.Lang(), table, b, env, emailSent);
    }
  }

  method CreateFromArray(nested: Option<Fields>, table: BookingsTable, body: Value, env: Env) returns (reply: Reply)
    requires table.Valid() && body.Arr?
    modifies table
    ensures table.Valid()
    ensures (reply, table.bookings) == ArrayCreate(nested, old(table.bookings), body, env)
  {
    var docs := CastEach(ApiControllers.CreateBodies(body, nested), env);
    var failed := SaveAll(table, docs, env);
    if failed.Some? {
      return NextError(SaveError(failed.value));
    }
    reply := NextError(PopulateOnArray);
  }

  method CreateFromObject(tr: ApiTranslation.ApiTranslation, lang: Option<Value>, table: BookingsTable, b: Booking,
                          env: Env, emailSent: bool) returns (reply: Reply)
    requires table.Valid()
    modifies table
    ensures table.Valid()
    ensures (reply, table.bookings)
            == AfterSave(tr, lang, old(table.bookings), SaveOutcome(old(table.bookings), b, CabinOf(env, b), env.breakfastPrice), env.guests, emailSent)
  {
    ghost var before := table.bookings;
    ghost var o := SaveOutcome(before, b, CabinOf(env, b), env.breakfastPrice);
    var r := table.Save(b, CabinOf(env, b), env.breakfastPrice);
    if r.Refused? {
      assert o == r;
      return NextError(SaveError(r.failure));
    }
    assert o.Saved? && r.value == Converted(o.value) && table.bookings == Upsert(before, o.value);
    if emailSent && GuestFound(r.value, env.guests) {
      return CreatedReply(r.value, env.guests);
    }
    table.DeleteById(r.value.id);
    reply := Refuse(tr, lang, "emailSendError", 500);
  }

  /** A single booking is created as "unconfirmed", whatever status the client sent. */
  lemma ObjectBodyUnconfirmed(body: Value, nested: Option<Fields>, id: string, pnr: string,
                              parseDate: string -> Option<int>, isObjectId: string -> bool)
    ensures CastBooking(ObjectBody(body, nested), id, pnr, parseDate, isObjectId).status == Some("unconfirmed")
  {
    var fs := ObjectBody(body, nested);
    assert Get(fs, "status") == Some(Str("unconfirmed"));
    AsciiLowerUnchanged("unconfirmed");
  }

  /**
   * For an array body the forced status lands on the array, not on its
   * elements: an element keeps the status the client sent, lowercased.
   */
  lemma ArrayElementKeepsStatus(item: Fields, nested: Option<Fields>, s: string, id: string, pnr: string,
                                parseDate: string -> Option<int>, isObjectId: string -> bool)
    requires Get(item, "status") == Some(Str(s))
    requires nested.None? || (UniqueKeys(nested.value) && "status" !in Keys(nested.value))
    ensures CastBooking(ApiControllers.CreateFields(Obj(item), nested), id, pnr, parseDate, isObjectId).status == Some(ToLower(s))
  {
    if nested.Some? {
      ApiControllers.NestedOverridesClient(item, nested.value, "status");
    }
  }

  /** An array body is stored document by document but always answered with an error. */
  lemma ArrayBodyNeverSucceeds(tr: ApiTranslation.ApiTranslation, nested: Option<Fields>, bs: seq<Booking>,
                               req: Request, env: Env, emailSent: bool)
    requires req.body.Arr?
    ensures var r := NewBookingReply(tr, nested, bs, req, env, emailSent);
      r.0.NextError? && r.1 == SaveEach(bs, CastEach(ApiControllers.CreateBodies(req.body, nested), env), env).0
  {
  }

  /** When the email fails, the booking just created is deleted again and the collection is as before. */
  lemma EmailFailureUndoesCreate(tr: ApiTranslation.ApiTranslation, nested: Option<Fields>, bs: seq<Booking>,
                                 req: Request, env: Env)
    requires !req.body.Arr? && IndexOfId(bs, env.ids(0)).None?
    ensures var r := NewBookingReply(tr, nested, bs, req, env, false);
      r.1 == bs && r.0.NextError?
  {
    var b := CastBooking(ObjectBody(req.body, nested), env.ids(0), env.pnrs(0), env.parseDate, env.isObjectId);
    var o := SaveOutcome(bs, b, CabinOf(env, b), env.breakfastPrice);
    if o.Saved? {
      assert o.value.id == b.id;
      RemoveInserted(bs, o.value);
    }
  }

  /**
   * A create whose email goes out appends the new booking and answers 201;
   * one naming a guest nobody has is saved, deleted again and answered 500.
   */
  lemma CreateAppends(tr: ApiTranslation.ApiTranslation, nested: Option<Fields>, bs: seq<Booking>,
                      req: Request, env: Env)
    requires !req.body.Arr? && IndexOfId(bs, env.ids(0)).None?
    ensures var r := NewBookingReply(tr, nested, bs, req, env, true);
      var b := CastBooking(ObjectBody(req.body, nested), env.ids(0), env.pnrs(0), env.parseDate, env.isObjectId);
      var o := SaveOutcome(bs, b, CabinOf(env, b), env.breakfastPrice);
      (o.Saved? && GuestFound(o.value, env.guests) ==> r.1 == bs + [o.value] && r.0.Respond? && r.0.status == 201)
      && (o.Saved? && !GuestFound(o.value, env.guests) ==> r.1 == bs && r.0.NextError? && r.0.err.statusCode == Some(500))
      && (o.Refused? ==> r.1 == bs && r.0.NextError?)
  {
    var b := CastBooking(ObjectBody(req.body, nested), env.ids(0), env.pnrs(0), env.parseDate, env.isObjectId);
    var o := SaveOutcome(bs, b, CabinOf(env, b), env.breakfastPrice);
    if o.Saved? {
      assert o.value.id == b.id;
      RemoveInserted(bs, o.value);
    }
  }

  // -------------------------------------------------------- getBookingFromPnr

  /** `findOne({ pnrCode: c })`: the first booking whose code meets the cast condition. */
  function BookingByPnr(bs: seq<Booking>, c: StringCondition): (r: Option<nat>)
    ensures r.Some? ==> r.value < |bs| && Meets(Some(bs[r.value].pnrCode), c)
    ensures r.Some? ==> forall k :: 0 <= k < r.value ==> !Meets(Some(bs[k].pnrCode), c)
    ensures r.None? <==> forall i :: 0 <= i < |bs| ==> !Meets(Some(bs[i].pnrCode), c)
  {
    if bs == [] then None
    else if Meets(Some(bs[0].pnrCode), c) then Some(0)
    else match BookingByPnr(bs[1..], c)
      case None => None
      case Some(i) => Some(i + 1)
  }

  /** The first guest with this id. */
  function GuestById(gs: seq<GuestsModel.Guest>, id: Option<string>): (r: Option<nat>)
    ensures r.Some? ==> r.value < |gs| && id == Some(gs[r.value].id)
    ensures r.None? <==> forall i :: 0 <= i < |gs| ==> id != Some(gs[i].id)
  {
    if gs == [] then None
    else if id == Some(gs[0].id) then Some(0)
    else match GuestById(gs[1..], id)
      case None => None
      case Some(i) => Some(i + 1)
  }

  /** The populate with `match: { email, nationalId }`: the booking's guest, only when it meets both conditions. */
  function MatchedGuest(gs: seq<GuestsModel.Guest>, guestId: Option<string>, email: StringCondition,
                        nationalId: StringCondition): (r: Option<GuestsModel.Guest>)
    ensures r.Some? ==> r.value in gs && guestId == Some(r.value.id)
                        && Meets(r.value.email, email) && Meets(r.value.nationalId, nationalId)
    ensures r.None? && GuestById(gs, guestId).Some? ==>
              var g := gs[GuestById(gs, guestId).value]; !Meets(g.email, email) || !Meets(g.nationalId, nationalId)
  {
    match GuestById(gs, guestId)
    case None => None
    case Some(i) => if Meets(gs[i].email, email) && Meets(gs[i].nationalId, nationalId) then Some(gs[i]) else None
  }

  /** The condition the query's `pnrCode` puts on the bookings. */
  function PnrCondition(q: Fields): StringCondition {
    StringQuery(Get(q, "pnrCode"), "pnrCode", AsSent)
  }

  /** The conditions the query's `email` and `nationalId` put on the populated guest, through the guest schema's setters. */
  function EmailCondition(q: Fields): StringCondition {
    StringQuery(Get(q, "email"), "email", TrimLower)
  }

  function NationalIdCondition(q: Fields): StringCondition {
    StringQuery(Get(q, "nationalId"), "nationalId", Trim)
  }

  /** `new AppError(msg)` without a status code, which the error handler answers 500. */
  function NoBooking(tr: ApiTranslation.ApiTranslation, req: Request): (r: Reply)
    ensures r.NextError? && r.err.isOperational && r.err.statusCode.None? && r.err.status == Some("error")
    ensures r.err.message == Message(tr, req.Lang(), "noBooking")
  {
    NextError(NewAppError(Message(tr, req.Lang(), "noBooking"), None))
  }

  /** The 200 answer: the booking with its guest populated in full. */
  function PnrFound(b: Booking, g: GuestsModel.Guest): (r: Reply)
    ensures r.Respond? && r.status == 200
    ensures r.body == Envelope("success", Obj([("booking", BookingJson(Converted(b), Some(GuestsModel.GuestJson(g, false))))]))
  {
    Respond(200, Envelope("success", Obj([("booking", BookingJson(Converted(b), Some(GuestsModel.GuestJson(g, false))))])))
  }

  /**
   * `getBookingFromPnr`: a read-only lookup. A query value that is an array
   * asks for any of its items; one that is a plain object makes the query
   * reject with a `CastError` — the PNR code's when the booking is looked up,
   * the email's or the national id's when its guest is populated.
   */
  function PnrLookup(tr: ApiTranslation.ApiTranslation, bs: seq<Booking>, gs: seq<GuestsModel.Guest>,
                     req: Request): (r: Reply)
    ensures var q := req.query;
      !TruthyOpt(Get(q, "email")) || !TruthyOpt(Get(q, "pnrCode")) || !TruthyOpt(Get(q, "nationalId"))
      ==> r == NextError(NewAppError(Message(tr, req.Lang(), "bookingDataMissing"), None))
    ensures r.Respond? || r.NextError?
    ensures (PnrCondition(req.query).Uncastable? && TruthyOpt(Get(req.query, "email"))
             && TruthyOpt(Get(req.query, "nationalId"))) ==> r == NextError(PnrCondition(req.query).err)
    ensures r.Respond? ==> r.status == 200
    ensures r.Respond? ==> var q := req.query;
      exists i :: 0 <= i < |bs| && Meets(Some(bs[i].pnrCode), PnrCondition(q))
        && (exists j :: 0 <= j < |gs| && bs[i].guestId == Some(gs[j].id)
              && Meets(gs[j].email, EmailCondition(q)) && Meets(gs[j].nationalId, NationalIdCondition(q)))
  {
    var q := req.query;
    if !TruthyOpt(Get(q, "email")) || !TruthyOpt(Get(q, "pnrCode")) || !TruthyOpt(Get(q, "nationalId")) then
      NextError(NewAppError(Message(tr, req.Lang(), "bookingDataMissing"), None))
    else if PnrCondition(q).Uncastable? then NextError(PnrCondition(q).err)
    else match BookingByPnr(bs, PnrCondition(q))
      case None => NoBooking(tr, req)
      case Some(i) =>
        if EmailCondition(q).Uncastable? then NextError(EmailCondition(q).err)
        else if NationalIdCondition(q).Uncastable? then NextError(NationalIdCondition(q).err)
        else match MatchedGuest(gs, bs[i].guestId, EmailCondition(q), NationalIdCondition(q))
          case None => NoBooking(tr, req)
          case Some(g) => PnrFound(bs[i], g)
  }

  /** The booking with the PNR code is shown to whoever also sends its guest's email and national id. */
  lemma PnrLookupFinds(tr: ApiTranslation.ApiTranslation, bs: seq<Booking>, gs: seq<GuestsModel.Guest>,
                       req: Request, i: nat, j: nat, email: string, nationalId: string)
    requires email != "" && nationalId != ""
    requires Get(req.query, "email") == Some(Str(email)) && Get(req.query, "nationalId") == Some(Str(nationalId))
    requires i < |bs| && j < |gs|
    requires Get(req.query, "pnrCode") == Some(Str(bs[i].pnrCode)) && bs[i].pnrCode != ""
    requires forall k :: 0 <= k < i ==> bs[k].pnrCode != bs[i].pnrCode
    requires GuestById(gs, bs[i].guestId) == Some(j)
    requires gs[j].email == Some(ToLower(Trim(email))) && gs[j].nationalId == Some(Trim(nationalId))
    ensures PnrLookup(tr, bs, gs, req) == PnrFound(bs[i], gs[j])
  {
    StringMeetsItself(bs[i].pnrCode, "pnrCode", AsSent);
    StringMeetsItself(email, "email", TrimLower);
    StringMeetsItself(nationalId, "nationalId", Trim);
    FirstWithPnr(bs, bs[i].pnrCode, i);
    var q := req.query;
    assert MatchedGuest(gs, bs[i].guestId, EmailCondition(q), NationalIdCondition(q)) == Some(gs[j]);
    PnrLookupFound(tr, bs, gs, req, i, gs[j]);
  }

  /** The lookup of one PNR code finds the first booking holding it. */
  lemma FirstWithPnr(bs: seq<Booking>, pnr: string, i: nat)
    requires i < |bs| && bs[i].pnrCode == pnr
    requires forall k :: 0 <= k < i ==> bs[k].pnrCode != pnr
    ensures BookingByPnr(bs, OneOf([Some(pnr)])) == Some(i)
  {
    var r := BookingByPnr(bs, OneOf([Some(pnr)]));
    assert Meets(Some(bs[i].pnrCode), OneOf([Some(pnr)]));
    assert r.Some? && r.value <= i;
  }

  /** Past the guards, the booking the PNR code finds and the guest that meets both conditions are shown. */
  lemma PnrLookupFound(tr: ApiTranslation.ApiTranslation, bs: seq<Booking>, gs: seq<GuestsModel.Guest>,
                       req: Request, i: nat, g: GuestsModel.Guest)
    requires var q := req.query;
      TruthyOpt(Get(q, "email")) && TruthyOpt(Get(q, "pnrCode")) && TruthyOpt(Get(q, "nationalId"))
      && !PnrCondition(q).Uncastable? && !EmailCondition(q).Uncastable? && !NationalIdCondition(q).Uncastable?
    requires BookingByPnr(bs, PnrCondition(req.query)) == Some(i)
    requires MatchedGuest(gs, bs[i].guestId, EmailCondition(req.query), NationalIdCondition(req.query)) == Some(g)
    ensures PnrLookup(tr, bs, gs, req) == PnrFound(bs[i], g)
  {
  }

  /** A right PNR code with an email that is not its guest's never shows the booking. */
  lemma WrongEmailHidesBooking(tr: ApiTranslation.ApiTranslation, bs: seq<Booking>, gs: seq<GuestsModel.Guest>,
                               req: Request, i: nat)
    requires BookingByPnr(bs, PnrCondition(req.query)) == Some(i)
    requires forall j :: 0 <= j < |gs| && bs[i].guestId == Some(gs[j].id) ==> !Meets(gs[j].email, EmailCondition(req.query))
    requires forall k :: 0 <= k < |bs| && k != i ==> !Meets(Some(bs[k].pnrCode), PnrCondition(req.query))
    ensures !PnrLookup(tr, bs, gs, req).Respond?
  {
  }

  /** `?pnrCode[a]=b` is a plain object: the lookup rejects with a `CastError` on `pnrCode` before reading any booking. */
  lemma PnrObjectRefused(tr: ApiTranslation.ApiTranslation, bs: seq<Booking>, gs: seq<GuestsModel.Guest>,
                         req: Request, fields: Fields)
    requires TruthyOpt(Get(req.query, "email")) && TruthyOpt(Get(req.query, "nationalId"))
    requires Get(req.query, "pnrCode") == Some(Obj(fields)) && DocumentId(fields).None?
    ensures PnrLookup(tr, bs, gs, req) == NextError(CastError("pnrCode", Coercions.Stringify(Obj(fields))))
  {
  }

  /** `?pnrCode=a&pnrCode=b` looks up a booking holding either code. */
  lemma PnrListMatchesEither(bs: seq<Booking>, q: Fields, a: string, b: string)
    requires Get(q, "pnrCode") == Some(Arr([Str(a), Str(b)]))
    ensures forall k :: 0 <= k < |bs| ==> (Meets(Some(bs[k].pnrCode), PnrCondition(q)) <==> bs[k].pnrCode in {a, b})
  {
    var c := PnrCondition(q);
    assert FirstRefused([Str(a), Str(b)]).None?;
    assert c == OneOf([Some(a), Some(b)]);
  }

  // ----------------------------------------------------- getCabinOccupaidDays

  /** `find({ cabinId })`: the bookings of one cabin, in stored order. */
  function OfCabin(bs: seq<Booking>, cabinId: string): (r: seq<Booking>)
    ensures |r| <= |bs|
    ensures forall b :: b in r <==> b in bs && b.cabinId == Some(cabinId)
  {
    if bs == [] then []
    else (if bs[0].cabinId == Some(cabinId) then [bs[0]] else []) + OfCabin(bs[1..], cabinId)
  }

  /** `.select("startDateUtc numNights")`. */
  function StayJson(b: Booking): (v: Value)
    ensures v.Obj? && Get(v.fields, "_id") == Some(Str(b.id))
    ensures Get(v.fields, "startDateUtc") == NumOf(b.startDateUtc) && Get(v.fields, "numNights") == NumOf(b.numNights)
    ensures forall k :: k != "_id" && k != "startDateUtc" && k != "numNights" ==> Get(v.fields, k).None?
  {
    Obj([("_id", Str(b.id))] + NumEntry("startDateUtc", b.startDateUtc) + NumEntry("numNights", b.numNights))
  }

  function Stays(bs: seq<Booking>): (v: Value)
    ensures v.Arr? && |v.items| == |bs|
    ensures forall i :: 0 <= i < |bs| ==> v.items[i] == StayJson(bs[i])
  {
    Arr(seq(|bs|, i requires 0 <= i < |bs| => StayJson(bs[i])))
  }

  /** `getCabinOccupaidDays`: `isObjectId` is Mongoose's test of a string before it casts it to an ObjectId. */
  function OccupiedDays(bs: seq<Booking>, req: Request, isObjectId: string -> bool): (r: Reply)
    ensures var v := CastString(Get(req.params, "cabinId"));
      v.Some? && isObjectId(v.value) ==> r == Respond(200, Envelope("success", Stays(OfCabin(bs, v.value))))
    ensures var v := CastString(Get(req.params, "cabinId"));
      v.Some? && !isObjectId(v.value) ==> r == NextError(CastError("cabinId", v.value))
    ensures Get(req.params, "cabinId").None? ==> r == Respond(200, Envelope("success", Stays(bs)))
  {
    var v := Get(req.params, "cabinId");
    if v.None? then Respond(200, Envelope("success", Stays(bs)))
    else match CastString(v)
      case None => Respond(200, Envelope("success", Stays([])))
      case Some(s) =>
        if isObjectId(s) then Respond(200, Envelope("success", Stays(OfCabin(bs, s))))
        else NextError(CastError("cabinId", s))
  }

  // ------------------------------------------------------- reloadBookingsData

  /** A record of the restore dataset; `others` holds its remaining keys. */
  datatype Seed = Seed(startDateUtc: int, numNights: int, numGuests: int, cabinNo: int, guestNo: int, others: Fields)

  /** A cabin as `Cabins.find({})` lists it. */
  datatype CabinInfo = CabinInfo(id: string, maxCapacity: int)

  /** `xs.at(k)`: a negative index counts from the end. */
  function At<T>(xs: seq<T>, k: int): (r: Option<T>)
    ensures 0 <= k < |xs| ==> r == Some(xs[k])
    ensures -|xs| <= k < 0 ==> r == Some(xs[|xs| + k])
    ensures k >= |xs| || k < -|xs| ==> r.None?
  {
    if 0 <= k < |xs| then Some(xs[k]) else if -|xs| <= k < 0 then Some(xs[|xs| + k]) else None
  }

  /**
   * The status rules of the restore, applied in turn so that a later rule
   * overrides an earlier one: ended before today → checked-out and paid;
   * starting today or later → unconfirmed; started before today and ending
   * today or later → checked-in and paid. `None` is left `undefined`.
   */
  function RestoredStatus(start: int, nights: int, now: int, isToday: int -> bool): (r: (Option<string>, Option<bool>))
    ensures r.0 == Some("checked-in") || r.0 == Some("checked-out") ==> r.1 == Some(true)
    ensures r.0.None? ==> r.1.None?
    ensures r.0.None? || r.0.value in Statuses
  {
    var end := AddDays(start, nights);
    var first := if IsPastUtc(end, now) && !isToday(end) then (Some("checked-out"), Some(true)) else (None, None);
    var second := if IsFutureUtc(start, now) || isToday(start) then (Some("unconfirmed"), first.1) else first;
    if (IsFutureUtc(end, now) || isToday(end)) && IsPastUtc(start, now) && !isToday(start) then (Some("checked-in"), Some(true))
    else second
  }

  /** With "today" meaning the current UTC day, the status follows from where the stay lies relative to today. */
  lemma RestoredStatusByDay(start: int, nights: int, now: int, isToday: int -> bool)
    requires nights >= 1
    requires forall t :: isToday(t) == SameUtcDay(t, now)
    ensures var r := RestoredStatus(start, nights, now, isToday);
      var today, first, last := ToUtcMidnight(now), ToUtcMidnight(start), ToUtcMidnight(AddDays(start, nights));
      (today <= first ==> r == (Some("unconfirmed"), None))
      && (first < today <= last ==> r == (Some("checked-in"), Some(true)))
      && (last < today ==> r == (Some("checked-out"), Some(true)))
  {
    var end := AddDays(start, nights);
    PastFutureToday(start, now);
    PastFutureToday(end, now);
    MidnightShift(start, nights);
    MidnightUnique(start, ToUtcMidnight(start));
    if SameUtcDay(start, now) {
      MidnightUnique(start, ToUtcMidnight(now));
    }
    if SameUtcDay(end, now) {
      MidnightUnique(end, ToUtcMidnight(now));
    }
    if ToUtcMidnight(start) == ToUtcMidnight(now) {
      assert SameUtcDay(start, now);
    }
    if ToUtcMidnight(end) == ToUtcMidnight(now) {
      assert SameUtcDay(end, now);
    }
  }

  /** ... so every restored booking gets a status its validators accept, and checked-in or checked-out ones are paid. */
  lemma RestoredStatusValid(start: int, nights: int, now: int, isToday: int -> bool)
    requires nights >= 1
    requires forall t :: isToday(t) == SameUtcDay(t, now)
    ensures var r := RestoredStatus(start, nights, now, isToday);
      r.0.Some? && StatusMessages(r.0, Some(r.1.GetOr(false))) == []
  {
    RestoredStatusByDay(start, nights, now, isToday);
    assert "unconfirmed" in Statuses && "checked-in" in Statuses && "checked-out" in Statuses;
  }

  /** The restored number of guests: the seed's, cut down to the cabin's capacity. */
  function Clamp(numGuests: int, maxCapacity: int): (r: int)
    ensures r <= maxCapacity && r <= numGuests
    ensures r == numGuests || r == maxCapacity
  {
    if numGuests > maxCapacity then maxCapacity else numGuests
  }

  /** `{ ...fs, [k]: v }` where an `undefined` value leaves the key to its default. */
  function Put(fs: Fields, k: string, v: Option<Value>): (r: Fields)
    ensures Get(r, k) == v
    ensures forall j :: j != k ==> Get(r, j) == Get(fs, j)
  {
    if v.Some? then Set(fs, k, v.value) else Delete(fs, k)
  }

  function StrOpt(s: Option<string>): Option<Value> {
    if s.Some? then Some(Str(s.value)) else None
  }

  /** The cabin a seed names by its position: reading its capacity throws when there is none. */
  function SeedCabin(seed: Seed, cabins: seq<CabinInfo>): Option<CabinInfo> {
    At(cabins, seed.cabinNo - 1)
  }

  /**
   * The record the restore builds from one seed and its cabin. `reloadBookingsData`
   * finds the cabin again by the identity of its `_id`, which gives back the
   * cabin at that position of the list.
   */
  function SeedFields(seed: Seed, cabin: CabinInfo, guestIds: seq<string>, now: int, isToday: int -> bool): (r: Fields)
  {
    var (status, isPaid) := RestoredStatus(seed.startDateUtc, seed.numNights, now, isToday);
    var fs := Put(Put(seed.others, "startDateUtc", Some(Num(seed.startDateUtc))), "numNights", Some(Num(seed.numNights)));
    var fs := Put(Put(fs, "guestId", StrOpt(At(guestIds, seed.guestNo - 1))), "cabinId", Some(Str(cabin.id)));
    var fs := Put(fs, "numGuests", Some(Num(Clamp(seed.numGuests, cabin.maxCapacity))));
    Put(Put(fs, "status", StrOpt(status)), "isPaid", if isPaid.Some? then Some(Bool(isPaid.value)) else None)
  }

  /** The restored guest count never exceeds the capacity of the seed's cabin and is the seed's whenever it fits. */
  lemma SeedFieldsClampGuests(seed: Seed, cabin: CabinInfo, guestIds: seq<string>, now: int, isToday: int -> bool)
    ensures var n := Get(SeedFields(seed, cabin, guestIds, now, isToday), "numGuests");
      n.Some? && n.value.Num? && n.value.n <= cabin.maxCapacity
      && (seed.numGuests <= cabin.maxCapacity ==> n.value.n == seed.numGuests)
  {
  }

  /** The restored record names the seed's cabin and carries the status of its stay. */
  lemma SeedFieldsStatus(seed: Seed, cabin: CabinInfo, guestIds: seq<string>, now: int, isToday: int -> bool)
    ensures var fs := SeedFields(seed, cabin, guestIds, now, isToday);
      var st := RestoredStatus(seed.startDateUtc, seed.numNights, now, isToday);
      Get(fs, "cabinId") == Some(Str(cabin.id)) && Get(fs, "status") == StrOpt(st.0)
  {
  }

  /** A seed numbered 0 does not fail: `at(-1)` picks the last cabin of the list. */
  lemma CabinNumberZeroIsLastCabin(cabins: seq<CabinInfo>)
    requires cabins != []
    ensures At(cabins, 0 - 1) == Some(cabins[|cabins| - 1])
  {
  }

  /** Every seed mapped, or `None` when one of them names no cabin. */
  function MapSeeds(seeds: seq<Seed>, guestIds: seq<string>, cabins: seq<CabinInfo>, now: int,
                    isToday: int -> bool): (r: Option<seq<Fields>>)
    ensures r.None? <==> exists i :: 0 <= i < |seeds| && SeedCabin(seeds[i], cabins).None?
    ensures r.Some? ==> |r.value| == |seeds|
    ensures r.Some? ==> forall i :: 0 <= i < |seeds| ==>
      SeedCabin(seeds[i], cabins).Some? && r.value[i] == SeedFields(seeds[i], SeedCabin(seeds[i], cabins).value, guestIds, now, isToday)
  {
    if forall i :: 0 <= i < |seeds| ==> SeedCabin(seeds[i], cabins).Some? then
      Some(seq(|seeds|, i requires 0 <= i < |seeds| => SeedFields(seeds[i], SeedCabin(seeds[i], cabins).value, guestIds, now, isToday)))
    else None
  }

  const MaxCapacityThrew: Err := TypeError("Cannot read properties of undefined (reading 'maxCapacity')")

  const BookingsRestored: Value := Obj([("status", Str("success")), ("message", Str("Bookings restored."))])

  /**
   * `reloadBookingsData`: map every seed, then `deleteMany({})` and
   * `create(finalBookings)`. A seed without a cabin throws before anything is
   * deleted.
   */
  method ReloadBookingsData(table: BookingsTable, seeds: seq<Seed>, guestIds: seq<string>, cabins: seq<CabinInfo>,
                            now: int, isToday: int -> bool, env: Env) returns (reply: Reply)
    requires table.Valid()
    modifies table
    ensures table.Valid()
    ensures match MapSeeds(seeds, guestIds, cabins, now, isToday)
      case None => reply == NextError(MaxCapacityThrew) && table.bookings == old(table.bookings)
      case Some(docs) =>
        var saved := SaveEach([], CastEach(docs, env), env);
        table.bookings == saved.0
        && reply == (if saved.1.Some? then NextError(SaveError(saved.1.value)) else Respond(201, BookingsRestored))
  {
    var mapped := MapSeeds(seeds, guestIds, cabins, now, isToday);
    if mapped.None? {
      return NextError(MaxCapacityThrew);
    }
    table.DeleteAll();
    var failed := SaveAll(table, CastEach(mapped.value, env), env);
    if failed.Some? {
      return NextError(SaveError(failed.value));
    }
    reply := Respond(201, BookingsRestored);
  }
}
