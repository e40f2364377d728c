/**
 * The bookings schema and its hooks: the end date derived from the start and
 * the number of nights, the field validators, the availability check against
 * the other bookings of the same cabin (whole UTC days, half-open), the
 * prices filled in once and the total recomputed on every save, and the
 * conversion of stored decimals to plain numbers on the way out.
 *
 * Instants are milliseconds since the epoch; money is an exact integer in
 * minor currency units.
 */
module BookingsModel {
  import opened Wrappers
  import opened Strings
  import opened AppErrors
  import opened TzHelpers
  import opened Casts

  /** A price as stored (`Decimal128`), or the plain number `convertDecimal128Fields` puts in its place. */
  datatype Price = Decimal(amount: int) | Number(amount: int)

  /** A price cast from a request body: a `Decimal128` of the number sent. */
  function DecimalOf(n: Option<int>): (p: Option<Price>)
    ensures p.None? <==> n.None?
  {
    if n.Some? then Some(Decimal(n.value)) else None
  }

  /**
   * A booking document after Mongoose's casts and defaults; `None` is a path
   * left `undefined`, set to `null`, or whose cast failed without a default
   * to fall back on. `castErrors` are the cast errors the document recorded.
   */
  datatype Booking = Booking(
    id: string,
    startDateUtc: Option<int>,
    numNights: Option<int>,
    hotelTimeZone: Option<string>,
    endDateUtc: Option<int>,
    numGuests: Option<int>,
    cabinPrice: Option<Price>,
    extraPrice: Option<Price>,
    totalPrice: Option<Price>,
    status: Option<string>,
    hasBreakfast: Option<bool>,
    isPaid: Option<bool>,
    pnrCode: string,
    observations: Option<string>,
    cabinId: Option<string>,
    guestId: Option<string>,
    castErrors: seq<CastFailure>)

  /** `if (this.hasBreakfast)`: breakfast is charged only for `true`. */
  predicate Breakfast(b: Booking) {
    b.hasBreakfast == Some(true)
  }

  const Statuses: seq<string> := ["unconfirmed", "checked-in", "checked-out"]

  /**
   * `addDays(t, n)` on UTC instants: the time of day is kept, so the UTC
   * midnight of the result is `n` days after the UTC midnight of `t`.
   */
  function AddDays(t: int, n: int): (r: int)
    ensures ToUtcMidnight(r) == ToUtcMidnight(t) + n * DayMs
    ensures r - ToUtcMidnight(r) == t - ToUtcMidnight(t)
  {
    MidnightShift(t, n);
    t + n * DayMs
  }

  // ------------------------------------------------------------ end date

  /** `setEndDateUtc()`: start plus the nights when both make sense, otherwise `undefined`. */
  function SetEndDateUtc(b: Booking): (r: Option<int>)
    ensures r.Some? <==> b.startDateUtc.Some? && b.numNights.Some? && b.numNights.value > 0
    ensures r.Some? ==> r.value == b.startDateUtc.value + b.numNights.value * DayMs
  {
    if b.startDateUtc.Some? && b.numNights.Some? && b.numNights.value > 0 then
      Some(AddDays(b.startDateUtc.value, b.numNights.value))
    else None
  }

  /** The pre-validate hook: `endDateUtc` is always overwritten, whatever the client sent. */
  function PreValidate(b: Booking): (r: Booking)
    ensures r == b.(endDateUtc := SetEndDateUtc(b))
  {
    b.(endDateUtc := SetEndDateUtc(b))
  }

  // ---------------------------------------------------------- validators

  /** The custom validator of `endDateUtc`. */
  predicate EndDateValid(b: Booking) {
    b.startDateUtc.None? || b.endDateUtc.None? || b.endDateUtc.value > ToUtcMidnight(b.startDateUtc.value)
  }

  /** The custom validator of `status`: a checked-in or checked-out booking must be paid (`this.isPaid` truthy). */
  predicate StatusPaid(b: Booking) {
    b.status.Some? && (b.status.value == "checked-in" || b.status.value == "checked-out") ==> b.isPaid == Some(true)
  }

  /** The conditions the validators of the schema check together, on a booking that recorded no cast error. */
  predicate Admissible(b: Booking) {
    b.castErrors == []
    && b.startDateUtc.Some? && b.numNights.Some? && b.numNights.value >= 1 && Present(b.hotelTimeZone)
    && EndDateValid(b) && b.numGuests.Some? && Present(b.status) && b.status.value in Statuses
    && StatusPaid(b) && b.hasBreakfast.Some? && b.isPaid.Some? && b.pnrCode != ""
    && (b.observations.None? || Utf16Length(b.observations.value) <= 250)
    && b.cabinId.Some? && b.guestId.Some?
  }

  /**
   * The messages of a failed validation: the recorded cast errors first, then
   * one message per failing path, skipping the paths whose cast failed; none
   * exactly for an admissible booking. The paths are listed in schema order,
   * not in the order Mongoose runs their validators.
   */
  function ValidationMessages(b: Booking): (ms: seq<string>)
    ensures ms == [] <==> Admissible(b)
    ensures |ms| >= |b.castErrors| && ms[..|b.castErrors|] == FailureMessages(b.castErrors)
  {
    var r := FailureMessages(b.castErrors) + StayMessages(b) + RecordMessages(b);
    assert r[..|b.castErrors|] == FailureMessages(b.castErrors);
    r
  }

  /** Every recorded cast error is reported, and a booking that recorded one is refused. */
  lemma FailureReported(b: Booking, i: nat)
    requires i < |b.castErrors|
    ensures b.castErrors[i].message in ValidationMessages(b) && !Admissible(b)
  {
    var ms := ValidationMessages(b);
    assert ms[..|b.castErrors|][i] == FailureMessages(b.castErrors)[i];
  }

  /** The paths `startDateUtc`, `numNights`, `hotelTimeZone`, `endDateUtc` and `numGuests`. */
  function StayMessages(b: Booking): (ms: seq<string>)
    ensures b.castErrors == [] ==> (ms == [] <==>
      b.startDateUtc.Some? && b.numNights.Some? && b.numNights.value >= 1 && Present(b.hotelTimeZone)
      && EndDateValid(b) && b.numGuests.Some?)
  {
    var fs := b.castErrors;
    Unless(fs, "startDateUtc", Check(b.startDateUtc.Some?, "A booking must have a start date (UTC)."))
    + Unless(fs, "numNights", if b.numNights.None? then ["A booking must have a number of nights."]
                              else Check(b.numNights.value >= 1, "Number of nights must be at least 1."))
    + Unless(fs, "hotelTimeZone", Check(Present(b.hotelTimeZone), "Hotel time zone is required."))
    + Check(EndDateValid(b), "End date must be later than start date.")
    + Unless(fs, "numGuests", Check(b.numGuests.Some?, "A booking must have number of guests."))
  }

  /**
   * The paths `status` (required, then the enumeration, then the paid check),
   * `hasBreakfast`, `isPaid`, `pnrCode`, `observations`, `cabinId` and `guestId`.
   */
  function RecordMessages(b: Booking): (ms: seq<string>)
    ensures b.castErrors == [] ==> (ms == [] <==>
      Present(b.status) && b.status.value in Statuses && StatusPaid(b) && b.hasBreakfast.Some? && b.isPaid.Some?
      && b.pnrCode != "" && (b.observations.None? || Utf16Length(b.observations.value) <= 250)
      && b.cabinId.Some? && b.guestId.Some?)
  {
    var fs := b.castErrors;
    Unless(fs, "status", StatusMessages(b.status, b.isPaid))
    + Unless(fs, "hasBreakfast", Check(b.hasBreakfast.Some?, "Path `hasBreakfast` is required."))
    + Unless(fs, "isPaid", Check(b.isPaid.Some?, "Path `isPaid` is required."))
    + Unless(fs, "pnrCode", Check(b.pnrCode != "", "Path `pnrCode` is required."))
    + Unless(fs, "observations", Check(b.observations.None? || Utf16Length(b.observations.value) <= 250,
                                       "An observation can not exceed 250 characters."))
    + Unless(fs, "cabinId", Check(b.cabinId.Some?, "Path `cabinId` is required."))
    + Unless(fs, "guestId", Check(b.guestId.Some?, "Path `guestId` is required."))
  }

  /** The validators of `status` in the order Mongoose runs them; the first failure is the path's message. */
  function StatusMessages(status: Option<string>, isPaid: Option<bool>): (ms: seq<string>)
    ensures |ms| <= 1
    ensures ms == [] <==>
      Present(status) && status.value in Statuses
      && (status.value == "checked-in" || status.value == "checked-out" ==> isPaid == Some(true))
  {
    if !Present(status) then ["A booking must have a status."]
    else if status.value !in Statuses then ["Status is not valid."]
    else Check((status.value != "checked-in" && status.value != "checked-out") || isPaid == Some(true),
               "A checkedin or checkedout booking should be paid.")
  }

  /** After the pre-validate hook the end-date validator always passes: the derived end lies at least a night after the start's day. */
  lemma DerivedEndAlwaysValid(b: Booking)
    ensures EndDateValid(PreValidate(b))
  {
    var r := PreValidate(b);
    if r.startDateUtc.Some? && r.endDateUtc.Some? {
      assert r.endDateUtc.value >= r.startDateUtc.value + DayMs;
    }
  }

  /** A client-supplied end date has no effect: two requests that differ only in it are validated and stored alike. */
  lemma ClientEndIgnored(b: Booking, end: Option<int>)
    ensures PreValidate(b.(endDateUtc := end)) == PreValidate(b)
  {
  }

  // -------------------------------------------------------- availability

  /**
   * `checkAvalibilityofCabin`'s test for one other booking: both stays are
   * taken from the start of their UTC day for their number of nights, and
   * they clash unless one ends before or exactly when the other begins.
   */
  predicate Overlap(aStart: int, aNights: int, bStart: int, bNights: int)
    ensures aNights <= 0 && bNights <= 0 ==> !Overlap(aStart, aNights, bStart, bNights)
    ensures aNights >= 1 && bNights >= 1 && ToUtcMidnight(aStart) == ToUtcMidnight(bStart) ==> Overlap(aStart, aNights, bStart, bNights)
  {
    var cStart := ToUtcMidnight(aStart);
    var cEnd := AddDays(cStart, aNights);
    var bS := ToUtcMidnight(bStart);
    var bEnd := AddDays(bS, bNights);
    !(bEnd <= cStart || cEnd <= bS)
  }

  /** Another booking of the same cabin, not this document, whose stay clashes with `b`'s. */
  predicate ClashesWith(b: Booking, o: Booking)
    requires Admissible(b)
  {
    o.cabinId == b.cabinId && o.id != b.id
    && o.startDateUtc.Some? && o.numNights.Some?
    && Overlap(b.startDateUtc.value, b.numNights.value, o.startDateUtc.value, o.numNights.value)
  }

  /** `existing.some(...)` over `find({ cabinId, _id: { $ne: _id } })`. */
  predicate Unavailable(b: Booking, stored: seq<Booking>)
    requires Admissible(b)
  {
    exists i :: 0 <= i < |stored| && ClashesWith(b, stored[i])
  }

  /** The instant `t` lies in the stay of `nights` nights that starts on the UTC day of `start`. */
  predicate InStay(t: int, start: int, nights: int) {
    ToUtcMidnight(start) <= t < AddDays(ToUtcMidnight(start), nights)
  }

  /** Two stays of at least one night clash exactly when some instant lies in both of them (whole UTC days). */
  lemma OverlapMeansSharedInstant(aStart: int, aNights: int, bStart: int, bNights: int)
    requires aNights >= 1 && bNights >= 1
    ensures Overlap(aStart, aNights, bStart, bNights) <==>
      exists t :: InStay(t, aStart, aNights) && InStay(t, bStart, bNights)
  {
    var c, d := ToUtcMidnight(aStart), ToUtcMidnight(bStart);
    assert AddDays(c, aNights) >= c + DayMs && AddDays(d, bNights) >= d + DayMs;
    if Overlap(aStart, aNights, bStart, bNights) {
      var t := if c < d then d else c;
      assert InStay(t, aStart, aNights) && InStay(t, bStart, bNights);
    }
  }

  /** The test does not depend on which booking is the one being saved. */
  lemma OverlapSymmetric(aStart: int, aNights: int, bStart: int, bNights: int)
    ensures Overlap(aStart, aNights, bStart, bNights) == Overlap(bStart, bNights, aStart, aNights)
  {
  }

  /** A stay that starts on the day another one ends does not clash with it. */
  lemma AdjacentStaysDoNotClash(aStart: int, aNights: int, bNights: int)
    ensures !Overlap(aStart, aNights, AddDays(ToUtcMidnight(aStart), aNights), bNights)
  {
    MidnightUnique(AddDays(ToUtcMidnight(aStart), aNights), AddDays(ToUtcMidnight(aStart), aNights));
  }

  /** Only the day counts: moving the start within its UTC day changes nothing. */
  lemma SameDaySameVerdict(aStart: int, aStart': int, aNights: int, bStart: int, bNights: int)
    requires ToUtcMidnight(aStart) == ToUtcMidnight(aStart')
    ensures Overlap(aStart, aNights, bStart, bNights) == Overlap(aStart', aNights, bStart, bNights)
  {
  }

  /** The error of the pre-save hook for a stay that clashes with another booking of the cabin. */
  const CabinTaken: Err := NewAppError("The cabin is not avaliable for submitted days.", Some(409))

  /** No two stored bookings of the same cabin clash. */
  ghost predicate NoDoubleBooking(bs: seq<Booking>)
    requires forall i :: 0 <= i < |bs| ==> Admissible(bs[i])
  {
    forall i, j :: 0 <= i < |bs| && 0 <= j < |bs| && i != j ==> !ClashesWith(bs[i], bs[j])
  }

  // --------------------------------------------------------------- prices

  /** The fields `checkCabinPrice` reads from the booked cabin (`findById(...).lean()`); `None`: no such cabin. */
  datatype CabinRates = CabinRates(regularPrice: int, discount: Option<int>)

  function AmountOr0(p: Option<Price>): int {
    if p.Some? then p.value.amount else 0
  }

  /** `calculateTotalPrice()`: cabin and extra, an absent part counting as 0. */
  function TotalPrice(b: Booking): (t: int)
    ensures b.cabinPrice.None? && b.extraPrice.None? ==> t == 0
    ensures b.cabinPrice.Some? && b.extraPrice.None? ==> t == b.cabinPrice.value.amount
    ensures b.cabinPrice.None? && b.extraPrice.Some? ==> t == b.extraPrice.value.amount
    ensures b.cabinPrice.Some? && b.extraPrice.Some? ==> t == b.cabinPrice.value.amount + b.extraPrice.value.amount
  {
    AmountOr0(b.cabinPrice) + AmountOr0(b.extraPrice)
  }

  /**
   * What the price lookups of the pre-save hook found missing: the cabin, a
   * value read with `toString()` (the cabin's discount or the settings'
   * breakfast price), or the active settings record.
   */
  datatype Absent = NoCabin | NoAmount | NoActiveSettings

  /** The runtime error a missing part raises when the hook reads through it. */
  function Thrown(a: Absent): (e: Err)
    ensures e.name == "TypeError" && !e.isOperational && e.statusCode.None?
  {
    match a
    case NoCabin => TypeError("Cannot read properties of null (reading 'regularPrice')")
    case NoActiveSettings => TypeError("Cannot read properties of null (reading 'breakfastPrice')")
    case _ => TypeError("Cannot read properties of undefined (reading 'toString')")
  }

  /** The booking with its prices, or the part a lookup could not read. */
  datatype PriceResult = Done(value: Booking) | Threw(absent: Absent)

  /** `checkCabinPrice(numNights)`: the discounted nightly price times the nights. */
  function CabinCost(regularPrice: int, discount: int, nights: int): (c: int)
    ensures nights == 0 || discount == regularPrice ==> c == 0
    ensures 0 <= discount <= regularPrice && nights >= 0 ==> 0 <= c <= regularPrice * nights
  {
    (regularPrice - discount) * nights
  }

  /** `checkExtraPrice(numNights, numGuests)`: breakfast for every guest and every night. */
  function BreakfastCost(breakfastPrice: int, nights: int, guests: int): (c: int)
    ensures nights == 0 || guests == 0 ==> c == 0
    ensures breakfastPrice >= 0 && nights >= 0 && guests >= 0 ==> c >= 0
  {
    breakfastPrice * nights * guests
  }

  /**
   * The price part of the pre-save hook: `cabinPrice ??= (regular - discount)
   * * nights`, `extraPrice ??= breakfast * nights * guests` only with
   * breakfast (an existing extra price survives without breakfast), then the
   * total. A missing cabin, a cabin without a discount, or no active settings
   * record with a breakfast price make the lookup throw.
   */
  function Priced(b: Booking, cabin: Option<CabinRates>, breakfastPrice: Option<Option<int>>): (r: PriceResult)
    requires Admissible(b)
    ensures r.Done? ==> r.value == b.(cabinPrice := r.value.cabinPrice, extraPrice := r.value.extraPrice,
                                    totalPrice := Some(Decimal(TotalPrice(r.value))))
    ensures r.Done? && b.cabinPrice.Some? ==> r.value.cabinPrice == b.cabinPrice
    ensures r.Done? && b.extraPrice.Some? ==> r.value.extraPrice == b.extraPrice
    ensures r.Done? && !Breakfast(b) ==> r.value.extraPrice == b.extraPrice
  {
    if b.cabinPrice.None? && cabin.None? then
      Threw(NoCabin)
    else if b.cabinPrice.None? && cabin.value.discount.None? then
      Threw(NoAmount)
    else
      var cp := if b.cabinPrice.Some? then b.cabinPrice
                else Some(Decimal(CabinCost(cabin.value.regularPrice, cabin.value.discount.value, b.numNights.value)));
      if Breakfast(b) && b.extraPrice.None? && breakfastPrice.None? then
        Threw(NoActiveSettings)
      else if Breakfast(b) && b.extraPrice.None? && breakfastPrice.value.None? then
        Threw(NoAmount)
      else
        var ep := if Breakfast(b) && b.extraPrice.None?
                  then Some(Decimal(BreakfastCost(breakfastPrice.value.value, b.numNights.value, b.numGuests.value)))
                  else b.extraPrice;
        var priced := b.(cabinPrice := cp, extraPrice := ep);
        Done(priced.(totalPrice := Some(Decimal(TotalPrice(priced)))))
  }

  /** A first save fills the prices from the cabin and the settings. */
  lemma FirstSavePrices(b: Booking, reg: int, disc: int, breakfast: int)
    requires Admissible(b) && b.cabinPrice.None? && b.extraPrice.None?
    ensures var r := Priced(b, Some(CabinRates(reg, Some(disc))), Some(Some(breakfast)));
      r.Done? && r.value.cabinPrice == Some(Decimal(CabinCost(reg, disc, b.numNights.value)))
      && r.value.extraPrice == (if Breakfast(b)
                                then Some(Decimal(BreakfastCost(breakfast, b.numNights.value, b.numGuests.value)))
                                else None)
  {
  }

  /** Saving a booking that already carries its prices again changes neither price, whatever the cabin or the settings say now. */
  lemma ResavePricesStable(b: Booking, cabin: Option<CabinRates>, breakfast: Option<Option<int>>)
    requires Admissible(b) && b.cabinPrice.Some? && b.extraPrice.Some?
    ensures Priced(b, cabin, breakfast).Done?
    ensures Priced(b, cabin, breakfast).value.cabinPrice == b.cabinPrice
    ensures Priced(b, cabin, breakfast).value.extraPrice == b.extraPrice
    ensures Priced(b, cabin, breakfast).value.totalPrice
         == Some(Decimal(b.cabinPrice.value.amount + b.extraPrice.value.amount))
  {
  }

  // --------------------------------------------------------------- output

  function ToNumber(p: Option<Price>): (r: Option<Price>)
    ensures r.None? <==> p.None?
    ensures r.Some? ==> r.value == Number(p.value.amount)
  {
    if p.Some? then Some(Number(p.value.amount)) else None
  }

  /** `convertDecimal128Fields(doc)`: every present price becomes a plain number of the same amount. */
  function Converted(b: Booking): (r: Booking)
    ensures r == b.(cabinPrice := ToNumber(b.cabinPrice), extraPrice := ToNumber(b.extraPrice),
                    totalPrice := ToNumber(b.totalPrice))
  {
    b.(cabinPrice := ToNumber(b.cabinPrice), extraPrice := ToNumber(b.extraPrice),
       totalPrice := ToNumber(b.totalPrice))
  }

  /** Converting changes no amount and nothing else, and converting twice is converting once. */
  lemma ConvertedKeepsAmounts(b: Booking)
    ensures AmountOr0(Converted(b).cabinPrice) == AmountOr0(b.cabinPrice)
    ensures AmountOr0(Converted(b).extraPrice) == AmountOr0(b.extraPrice)
    ensures TotalPrice(Converted(b)) == TotalPrice(b)
    ensures Converted(Converted(b)) == Converted(b)
    ensures Converted(b).(cabinPrice := b.cabinPrice, extraPrice := b.extraPrice, totalPrice := b.totalPrice) == b
  {
  }

  /** `convertDecimal128Fields(docs)` for an array: every element in place. */
  method ConvertAll(docs: array<Booking>)
    modifies docs
    ensures forall i :: 0 <= i < docs.Length ==> docs[i] == Converted(old(docs[i]))
  {
    var i := 0;
    while i < docs.Length
      invariant 0 <= i <= docs.Length
      invariant forall j :: 0 <= j < i ==> docs[j] == Converted(old(docs[j]))
      invariant forall j :: i <= j < docs.Length ==> docs[j] == old(docs[j])
    {
      docs[i] := Converted(docs[i]);
      i := i + 1;
    }
  }

  // ---------------------------------------------------------------- store

  /** The index of the stored document with this id. */
  function IndexOfId(bs: seq<Booking>, id: string): (r: Option<nat>)
    ensures r.None? <==> forall i :: 0 <= i < |bs| ==> bs[i].id != id
    ensures r.Some? ==> r.value < |bs| && bs[r.value].id == id
  {
    if bs == [] then None
    else if bs[|bs| - 1].id == id then Some(|bs| - 1)
    else IndexOfId(bs[..|bs| - 1], id)
  }

  /** The write of `save()`: an update of the document with that id, or an insert. */
  function Upsert(bs: seq<Booking>, b: Booking): (r: seq<Booking>)
    ensures IndexOfId(bs, b.id).Some? ==> r == bs[IndexOfId(bs, b.id).value := b]
    ensures IndexOfId(bs, b.id).None? ==> r == bs + [b]
  {
    match IndexOfId(bs, b.id)
    case Some(i) => bs[i := b]
    case None => bs + [b]
  }

  /** `deleteOne({ _id: id })`. */
  function RemoveId(bs: seq<Booking>, id: string): (r: seq<Booking>)
    ensures IndexOfId(bs, id).None? ==> r == bs
    ensures IndexOfId(bs, id).Some? ==> var k := IndexOfId(bs, id).value; r == bs[..k] + bs[k + 1..]
  {
    match IndexOfId(bs, id)
    case None => bs
    case Some(k) => bs[..k] + bs[k + 1..]
  }

  /** Deleting a document that was just inserted restores the collection. */
  lemma RemoveInserted(bs: seq<Booking>, b: Booking)
    requires IndexOfId(bs, b.id).None?
    ensures RemoveId(Upsert(bs, b), b.id) == bs
  {
    assert IndexOfId(bs + [b], b.id) == Some(|bs|);
    assert (bs + [b])[..|bs|] == bs;
  }

  predicate UniqueIds(bs: seq<Booking>) {
    forall i, j :: 0 <= i < |bs| && 0 <= j < |bs| && i != j ==> bs[i].id != bs[j].id
  }

  /** Another document already holds this PNR code (the unique index on `pnrCode`). */
  predicate PnrTaken(bs: seq<Booking>, b: Booking) {
    exists i :: 0 <= i < |bs| && bs[i].id != b.id && bs[i].pnrCode == b.pnrCode
  }

  /** Why a save was refused. */
  datatype SaveFailure =
    | Invalid(doc: Booking)          // a validator failed on the document as pre-validated
    | CabinUnavailable               // the pre-save availability check
    | LookupThrew(absent: Absent)    // a price lookup read through a missing record
    | DuplicatePnr                   // the unique index on `pnrCode`

  datatype SaveResult = Saved(value: Booking) | Refused(failure: SaveFailure)

  /** The error `save()` rejects with. */
  function SaveError(f: SaveFailure): (e: Err)
    ensures f.Invalid? ==> e == ValidationError(ValidationMessages(f.doc))
    ensures f.CabinUnavailable? ==> e.statusCode == Some(409) && e.isOperational
    ensures f.LookupThrew? ==> e == Thrown(f.absent)
    ensures f.DuplicatePnr? ==> e.code == NumCode(11000) && e.keyValue == Some(["pnrCode"])
  {
    match f
    case Invalid(doc) => ValidationError(ValidationMessages(doc))
    case CabinUnavailable => CabinTaken
    case LookupThrew(a) => Thrown(a)
    case DuplicatePnr => DuplicateKeyError(["pnrCode"])
  }

  /** `Bookings.save()`: pre-validate, validate, pre-save, write; the stored document, or the first failure. */
  function SaveOutcome(bs: seq<Booking>, b: Booking, cabin: Option<CabinRates>,
                       breakfastPrice: Option<Option<int>>): (r: SaveResult)
    ensures var v := PreValidate(b);
      r.Saved? ==> (Admissible(v) && !Unavailable(v, bs) && !PnrTaken(bs, r.value)
                    && Priced(v, cabin, breakfastPrice) == Done(r.value))
    ensures !Admissible(PreValidate(b)) ==> r == Refused(Invalid(PreValidate(b)))
    ensures Admissible(PreValidate(b)) && Unavailable(PreValidate(b), bs) ==> r == Refused(CabinUnavailable)
  {
    var v := PreValidate(b);
    if !Admissible(v) then Refused(Invalid(v))
    else if Unavailable(v, bs) then Refused(CabinUnavailable)
    else match Priced(v, cabin, breakfastPrice)
      case Threw(a) => Refused(LookupThrew(a))
      case Done(p) => if PnrTaken(bs, p) then Refused(DuplicatePnr) else Saved(p)
  }

  class BookingsTable {
    var bookings: seq<Booking>

    /** Every stored booking passed validation, ids are unique, and no two stays of one cabin clash. */
    ghost predicate Valid()
      reads this
    {
      Consistent(bookings)
    }

    constructor()
      ensures bookings == [] && Valid()
    {
      bookings := [];
    }

    /** `deleteOne({ _id: id })`. */
    method DeleteById(id: string)
      requires Valid()
      modifies this
      ensures Valid() && bookings == RemoveId(old(bookings), id)
    {
      RemoveKeepsConsistent(bookings, id);
      bookings := RemoveId(bookings, id);
    }

    /** `deleteMany({})`. */
    method DeleteAll()
      modifies this
      ensures Valid() && bookings == []
    {
      bookings := [];
    }

    /**
     * `booking.save()`. Errors leave the table as it was; a stored booking is
     * returned with its prices as plain numbers (the post-save hook).
     */
    method Save(b: Booking, cabin: Option<CabinRates>, breakfastPrice: Option<Option<int>>) returns (r: SaveResult)
      requires Valid()
      modifies this
      ensures Valid()
      ensures match SaveOutcome(old(bookings), b, cabin, breakfastPrice)
        case Refused(f) => r == Refused(f) && bookings == old(bookings)
        case Saved(s) => r == Saved(Converted(s)) && bookings == Upsert(old(bookings), s)
    {
      var doc := b;
      doc := doc.(endDateUtc := SetEndDateUtc(doc));
      if !Admissible(doc) {
        return Refused(Invalid(doc));
      }
      if Unavailable(doc, bookings) {
        return Refused(CabinUnavailable);
      }
      var priced := Priced(doc, cabin, breakfastPrice);
      if priced.Threw? {
        return Refused(LookupThrew(priced.absent));
      }
      doc := priced.value;
      if PnrTaken(bookings, doc) {
        return Refused(DuplicatePnr);
      }
      SaveKeepsConsistent(bookings, b, cabin, breakfastPrice);
      bookings := Upsert(bookings, doc);
      r := Saved(Converted(doc));
    }
  }

  /** Every stored booking passed validation, ids are unique, and no two stays of one cabin clash. */
  ghost predicate Consistent(bs: seq<Booking>) {
    (forall i :: 0 <= i < |bs| ==> Admissible(bs[i])) && UniqueIds(bs) && NoDoubleBooking(bs)
  }

  /** A successful save keeps the store consistent: in particular it never double-books a cabin. */
  lemma SaveKeepsConsistent(bs: seq<Booking>, b: Booking, cabin: Option<CabinRates>, breakfastPrice: Option<Option<int>>)
    requires Consistent(bs)
    ensures var r := SaveOutcome(bs, b, cabin, breakfastPrice);
      r.Saved? ==> Consistent(Upsert(bs, r.value))
  {
    var r := SaveOutcome(bs, b, cabin, breakfastPrice);
    if r.Saved? {
      var v := PreValidate(b);
      PricesIrrelevant(v, r.value, bs);
      UpsertKeepsInvariant(bs, r.value);
    }
  }

  /** Deleting a document keeps the store consistent. */
  lemma RemoveKeepsConsistent(bs: seq<Booking>, id: string)
    requires Consistent(bs)
    ensures Consistent(RemoveId(bs, id))
  {
    if IndexOfId(bs, id).Some? {
      var k := IndexOfId(bs, id).value;
      var r := RemoveId(bs, id);
      forall i | 0 <= i < |r| ensures r[i] == bs[Skip(i, k)] && Admissible(r[i]) {
      }
      forall i, j | 0 <= i < |r| && 0 <= j < |r| && i != j ensures r[i].id != r[j].id {
        assert r[i] == bs[Skip(i, k)] && r[j] == bs[Skip(j, k)];
      }
      forall i, j | 0 <= i < |r| && 0 <= j < |r| && i != j ensures !ClashesWith(r[i], r[j]) {
        assert r[i] == bs[Skip(i, k)] && r[j] == bs[Skip(j, k)];
      }
    }
  }

  /** The index in the original sequence of element `i` after removing index `k`. */
  function Skip(i: nat, k: nat): (j: nat)
    ensures i < k ==> j == i
    ensures i >= k ==> j == i + 1
  {
    if i < k then i else i + 1
  }

  /** Validation and availability never look at the prices. */
  lemma PricesIrrelevant(b: Booking, p: Booking, bs: seq<Booking>)
    requires Admissible(b)
    requires p == b.(cabinPrice := p.cabinPrice, extraPrice := p.extraPrice, totalPrice := p.totalPrice)
    ensures Admissible(p) && Unavailable(p, bs) == Unavailable(b, bs)
  {
    assert forall i :: 0 <= i < |bs| ==> ClashesWith(p, bs[i]) == ClashesWith(b, bs[i]);
  }

  /** Writing an admissible booking that clashes with no other one keeps every invariant of the table. */
  lemma UpsertKeepsInvariant(bs: seq<Booking>, b: Booking)
    requires forall i :: 0 <= i < |bs| ==> Admissible(bs[i])
    requires UniqueIds(bs) && NoDoubleBooking(bs)
    requires Admissible(b) && !Unavailable(b, bs)
    ensures var r := Upsert(bs, b);
      (forall i :: 0 <= i < |r| ==> Admissible(r[i])) && UniqueIds(r) && NoDoubleBooking(r)
  {
    UpsertKeepsIds(bs, b);
    UpsertKeepsApart(bs, b);
  }

  /** An upsert writes `b` at one index and leaves every other one alone. */
  lemma UpsertShape(bs: seq<Booking>, b: Booking) returns (at: nat)
    ensures var r := Upsert(bs, b);
      at < |r| && r[at] == b && (|r| == |bs| || |r| == |bs| + 1)
      && (forall i :: 0 <= i < |r| && i != at ==> i < |bs| && r[i] == bs[i])
      && (at < |bs| ==> bs[at].id == b.id)
      && (at == |bs| ==> forall i :: 0 <= i < |bs| ==> bs[i].id != b.id)
  {
    match IndexOfId(bs, b.id)
    case Some(k) => at := k;
    case None => at := |bs|;
  }

  lemma UpsertKeepsIds(bs: seq<Booking>, b: Booking)
    requires UniqueIds(bs)
    ensures UniqueIds(Upsert(bs, b))
  {
    var r := Upsert(bs, b);
    var at := UpsertShape(bs, b);
    forall i, j | 0 <= i < |r| && 0 <= j < |r| && i != j ensures r[i].id != r[j].id {
      if i != at && j != at {
        assert r[i] == bs[i] && r[j] == bs[j];
      }
    }
  }

  lemma UpsertKeepsApart(bs: seq<Booking>, b: Booking)
    requires forall i :: 0 <= i < |bs| ==> Admissible(bs[i])
    requires NoDoubleBooking(bs)
    requires Admissible(b) && !Unavailable(b, bs)
    ensures forall i :: 0 <= i < |Upsert(bs, b)| ==> Admissible(Upsert(bs, b)[i])
    ensures NoDoubleBooking(Upsert(bs, b))
  {
    var r := Upsert(bs, b);
    var at := UpsertShape(bs, b);
    forall i, j | 0 <= i < |r| && 0 <= j < |r| && i != j ensures !ClashesWith(r[i], r[j]) {
      if i == at {
        assert r[j] == bs[j];
      } else if j == at {
        assert r[i] == bs[i] && !ClashesWith(b, bs[i]);
        OverlapSymmetric(b.startDateUtc.value, b.numNights.value, bs[i].startDateUtc.value, bs[i].numNights.value);
      } else {
        assert r[i] == bs[i] && r[j] == bs[j];
      }
    }
  }
}
