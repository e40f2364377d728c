/**
 * The cabins schema: a required, trimmed name of at most 20 characters with
 * its lowercase copy set on every save, a required capacity and regular
 * price, a discount no larger than the price, at most five images, and a
 * delete that is refused while any booking names the cabin.
 */
module CabinsModel {
  import opened Wrappers
  import opened Json
  import opened Strings
  import opened Casts
  import opened AppErrors
  import BookingsModel
  import Coercions

  /**
   * A cabin document after casting. `None` is a path left `undefined`, set
   * to `null`, or whose cast failed; the two price paths and the image list
   * tell `null` (`Some(None)` and `None`) apart, because their validators
   * read them. `castErrors` are the cast errors the document recorded.
   * `unsetRequired` are the required paths the fields never set: Mongoose
   * keeps them in its `require` state and validates them before the rest.
   */
  datatype Cabin = Cabin(
    id: string,
    name: Option<string>,
    nameLowerCase: Option<string>,
    maxCapacity: Option<int>,
    regularPrice: Option<Option<BookingsModel.Price>>,
    discount: Option<Option<BookingsModel.Price>>,
    description: Option<string>,
    images: Option<seq<Value>>,
    image: Option<string>,
    castErrors: seq<CastFailure>,
    unsetRequired: set<RequiredPath>)

  /** The paths the cabin schema marks `required`. */
  datatype RequiredPath = RegularPrice | MaxCapacity | Name

  /** The schema path of a required path. */
  function PathName(p: RequiredPath): string {
    match p
    case RegularPrice => "regularPrice"
    case MaxCapacity => "maxCapacity"
    case Name => "name"
  }

  /**
   * `schema.requiredPaths()`: the required paths, collected from the last
   * schema path back to the first.
   */
  const RequiredPaths: seq<RequiredPath> := [RegularPrice, MaxCapacity, Name]

  /** The required paths that `fields` leave out. */
  function UnsetRequired(fs: Fields): (r: set<RequiredPath>)
    ensures forall p :: p in r <==> Get(fs, PathName(p)).None?
  {
    (if Get(fs, "regularPrice").None? then {RegularPrice} else {})
    + (if Get(fs, "maxCapacity").None? then {MaxCapacity} else {})
    + (if Get(fs, "name").None? then {Name} else {})
  }

  /** A `Decimal128` path that keeps `null` apart: `Some(None)` for `null`, `None` for `undefined` or a failed cast. */
  function NullablePrice(v: Option<Value>): (r: Option<Option<BookingsModel.Price>>)
    ensures v == Some(Null) ==> r == Some(None)
    ensures v != Some(Null) ==> r == (if CastDecimal(v).Some? then Some(Some(BookingsModel.Decimal(CastDecimal(v).value))) else None)
  {
    if v == Some(Null) then Some(None)
    else if CastDecimal(v).Some? then Some(Some(BookingsModel.Decimal(CastDecimal(v).value)))
    else None
  }

  /** The cast errors `new Cabins(fields)` records, in schema order. */
  function CabinCastErrors(fs: Fields): (r: seq<CastFailure>)
    ensures r == [] <==>
      !StringFails(Get(fs, "name")) && !StringFails(Get(fs, "nameLowerCase")) && !NumberFails(Get(fs, "maxCapacity"))
      && !DecimalFails(Get(fs, "regularPrice")) && !DecimalFails(Get(fs, "discount"))
      && !StringFails(Get(fs, "description")) && !StringFails(Get(fs, "image"))
  {
    StringFailure(Get(fs, "name"), "name") + StringFailure(Get(fs, "nameLowerCase"), "nameLowerCase")
    + NumberFailure(Get(fs, "maxCapacity"), "maxCapacity") + DecimalFailure(Get(fs, "regularPrice"), "regularPrice")
    + DecimalFailure(Get(fs, "discount"), "discount") + StringFailure(Get(fs, "description"), "description")
    + StringFailure(Get(fs, "image"), "image")
  }

  /**
   * `new Cabins(fields)`: strings cast and trimmed, the capacity cast to a
   * number (a numeric string included), prices to decimals, the image list
   * taken as it is; every value that does not cast is recorded, and every
   * required path the fields leave out stays unset.
   */
  function CastCabin(fs: Fields, id: string): (c: Cabin)
    ensures c.id == id && c.castErrors == CabinCastErrors(fs)
    ensures c.name == Trimmed(CastString(Get(fs, "name")))
    ensures c.maxCapacity == CastNumber(Get(fs, "maxCapacity"))
    ensures c.regularPrice == NullablePrice(Get(fs, "regularPrice"))
    ensures c.discount == NullablePrice(Get(fs, "discount"))
    ensures c.images == ImageList(Get(fs, "images"))
    ensures c.unsetRequired == UnsetRequired(fs)
  {
    Cabin(id,
          Trimmed(CastString(Get(fs, "name"))),
          Trimmed(CastString(Get(fs, "nameLowerCase"))),
          CastNumber(Get(fs, "maxCapacity")),
          NullablePrice(Get(fs, "regularPrice")),
          NullablePrice(Get(fs, "discount")),
          Trimmed(CastString(Get(fs, "description"))),
          ImageList(Get(fs, "images")),
          Trimmed(CastString(Get(fs, "image"))),
          CabinCastErrors(fs),
          UnsetRequired(fs))
  }

  /** The form a cabin sends, with numbers written as strings, casts like the numbers themselves. */
  lemma FormNumbersCast(fs: Fields, gs: Fields, id: string, capacity: int, price: int)
    requires Get(fs, "maxCapacity") == Some(Str(IntToString(capacity)))
    requires Get(fs, "regularPrice") == Some(Str(IntToString(price)))
    requires Get(gs, "maxCapacity") == Some(Num(capacity)) && Get(gs, "regularPrice") == Some(Num(price))
    ensures CastCabin(fs, id).maxCapacity == CastCabin(gs, id).maxCapacity == Some(capacity)
    ensures CastCabin(fs, id).regularPrice == CastCabin(gs, id).regularPrice == Some(Some(BookingsModel.Decimal(price)))
  {
    CastNumberOfRendering(capacity);
    CastDecimalOfRendering(price);
  }

  /**
   * The `images` path, an array of any values: a missing list is empty, a
   * single value is a list of one, `null` stays `null`.
   */
  function ImageList(v: Option<Value>): (r: Option<seq<Value>>)
    ensures v.None? ==> r == Some([])
    ensures v == Some(Null) ==> r.None?
    ensures v.Some? && v.value.Arr? ==> r == Some(v.value.items)
    ensures v.Some? && !v.value.Arr? && v.value != Null ==> r == Some([v.value])
  {
    match v
    case None => Some([])
    case Some(Null) => None
    case Some(Arr(items)) => Some(items)
    case Some(x) => Some([x])
  }

  // ------------------------------------------------------------- validators

  /** The amount of a price that is there, neither `undefined` nor `null`. */
  predicate Priced(p: Option<Option<BookingsModel.Price>>) {
    p.Some? && p.value.Some?
  }

  /** The conditions the validators check together, on a cabin that recorded no cast error. */
  predicate Admissible(c: Cabin) {
    c.castErrors == []
    && Present(c.name) && Utf16Length(c.name.value) <= 20
    && c.maxCapacity.Some? && Priced(c.regularPrice)
    && (c.discount.Some? ==> Priced(c.discount) && c.discount.value.value.amount <= c.regularPrice.value.value.amount)
    && c.images.Some? && |c.images.value| <= 5
  }

  /**
   * The `discount` path, checked unless it is `undefined`; its validator
   * reads `v.toString()` and then `this.regularPrice.toString()`, and throws
   * when either is `null` or `undefined`.
   */
  function DiscountMessages(c: Cabin): (ms: seq<string>)
    ensures ms == [] <==> c.discount.None? || (Priced(c.discount) && Priced(c.regularPrice)
                                               && c.discount.value.value.amount <= c.regularPrice.value.value.amount)
  {
    if c.discount.None? then []
    else if c.discount.value.None? then ["Cannot read properties of null (reading 'toString')"]
    else if c.regularPrice.None? then ["Cannot read properties of undefined (reading 'toString')"]
    else if c.regularPrice.value.None? then ["Cannot read properties of null (reading 'toString')"]
    else Check(c.discount.value.value.amount <= c.regularPrice.value.value.amount, "Discount should be less than regular price.")
  }

  /** `name`: `required` runs first, then `maxLength`. */
  function NameMessages(c: Cabin): (ms: seq<string>)
    ensures ms == [] <==> Present(c.name) && Utf16Length(c.name.value) <= 20
  {
    if !Present(c.name) then ["A cabin must have a name."]
    else Check(Utf16Length(c.name.value) <= 20, "A cabin name can not exceed 20 characters.")
  }

  /** `images`: its validator reads `v.length`, which throws on `null`. */
  function ImagesMessages(c: Cabin): (ms: seq<string>)
    ensures ms == [] <==> c.images.Some? && |c.images.value| <= 5
  {
    if c.images.None? then ["Cannot read properties of null (reading 'length')"]
    else Check(|c.images.value| <= 5, "Only 5 images for each cabin.")
  }

  /** The validators of one required path: `required`, and `maxLength` after it for the name. */
  function RequiredMessages(c: Cabin, p: RequiredPath): (ms: seq<string>) {
    match p
    case Name => NameMessages(c)
    case MaxCapacity => Check(c.maxCapacity.Some?, "A cabin must have a maximum capacity.")
    case RegularPrice => Check(Priced(c.regularPrice), "A cabin must have reqular price.")
  }

  /** The messages of required path `p` when it is in the group asked for (`unset` or set), unless its cast failed. */
  function RequiredGroup(c: Cabin, p: RequiredPath, unset: bool): (ms: seq<string>) {
    if (p in c.unsetRequired) == unset then Unless(c.castErrors, PathName(p), RequiredMessages(c, p)) else []
  }

  /** The required paths still in the `require` state, in `requiredPaths()` order. */
  function UnsetFirst(c: Cabin): (ms: seq<string>) {
    RequiredGroup(c, RegularPrice, true) + RequiredGroup(c, MaxCapacity, true) + RequiredGroup(c, Name, true)
  }

  /** The required paths the fields set, in schema order. */
  function SetRequired(c: Cabin): (ms: seq<string>) {
    RequiredGroup(c, Name, false) + RequiredGroup(c, MaxCapacity, false) + RequiredGroup(c, RegularPrice, false)
  }

  /**
   * The validators' messages, path by path: first the paths still in the
   * `require` state, in `requiredPaths()` order; then the paths the fields
   * set, in schema order. `images` holds its default `[]` when not sent,
   * and that default passes. A path whose cast failed is skipped.
   */
  function Validators(c: Cabin): (ms: seq<string>) {
    UnsetFirst(c) + SetRequired(c) + Unless(c.castErrors, "discount", DiscountMessages(c)) + ImagesMessages(c)
  }

  /** Without cast errors a required path is validated once, in one group or the other. */
  lemma RequiredGroupOnce(c: Cabin, p: RequiredPath)
    requires c.castErrors == []
    ensures RequiredGroup(c, p, true) + RequiredGroup(c, p, false) == RequiredMessages(c, p)
    ensures RequiredGroup(c, p, true) == [] || RequiredGroup(c, p, false) == []
  {
    assert FailedPaths(c.castErrors) == [];
    assert !Failed(c.castErrors, PathName(p));
  }

  /** Without cast errors the validators report nothing exactly for an admissible cabin. */
  lemma ValidatorsMessages(c: Cabin)
    requires c.castErrors == []
    ensures Validators(c) == [] <==> Admissible(c)
  {
    RequiredGroupOnce(c, RegularPrice);
    RequiredGroupOnce(c, MaxCapacity);
    RequiredGroupOnce(c, Name);
    assert FailedPaths(c.castErrors) == [];
    assert !Failed(c.castErrors, "discount");
  }

  /** Without cast errors and with every required path set, the paths run in schema order. */
  lemma ValidatorsInSchemaOrder(c: Cabin)
    ensures c.castErrors == [] && c.unsetRequired == {} ==>
              Validators(c) == NameMessages(c)
                               + Check(c.maxCapacity.Some?, "A cabin must have a maximum capacity.")
                               + Check(Priced(c.regularPrice), "A cabin must have reqular price.")
                               + DiscountMessages(c) + ImagesMessages(c)
  {
    if c.castErrors == [] && c.unsetRequired == {} {
      RequiredGroupOnce(c, RegularPrice);
      RequiredGroupOnce(c, MaxCapacity);
      RequiredGroupOnce(c, Name);
      assert UnsetFirst(c) == [];
      assert FailedPaths(c.castErrors) == [];
      assert !Failed(c.castErrors, "discount");
    }
  }

  /**
   * The messages of a failed validation: the recorded cast errors first,
   * then the validators' messages.
   */
  function CabinMessages(c: Cabin): (ms: seq<string>)
    ensures ms == [] <==> Admissible(c)
    ensures |ms| >= |c.castErrors| && ms[..|c.castErrors|] == FailureMessages(c.castErrors)
    ensures c.castErrors == [] && c.unsetRequired == {} ==>
              ms == NameMessages(c)
                    + Check(c.maxCapacity.Some?, "A cabin must have a maximum capacity.")
                    + Check(Priced(c.regularPrice), "A cabin must have reqular price.")
                    + DiscountMessages(c) + ImagesMessages(c)
  {
    var failures := FailureMessages(c.castErrors);
    if c.castErrors == [] then
      ValidatorsMessages(c);
      ValidatorsInSchemaOrder(c);
      assert failures + Validators(c) == Validators(c);
      failures + Validators(c)
    else
      assert (failures + Validators(c))[..|failures|] == failures;
      failures + Validators(c)
  }

  /** The messages laid out path group by path group. */
  lemma CabinMessagesParts(c: Cabin)
    ensures CabinMessages(c) == FailureMessages(c.castErrors) + (UnsetFirst(c) + SetRequired(c)
                                + Unless(c.castErrors, "discount", DiscountMessages(c)) + ImagesMessages(c))
  {
  }

  /** A discount above the regular price is refused with that validator's message. */
  lemma DiscountAbovePriceRefused(c: Cabin)
    requires Priced(c.regularPrice) && Priced(c.discount) && !Failed(c.castErrors, "discount")
    requires c.discount.value.value.amount > c.regularPrice.value.value.amount
    ensures "Discount should be less than regular price." in CabinMessages(c)
  {
    assert DiscountMessages(c) == ["Discount should be less than regular price."];
    CabinMessagesParts(c);
    var pre := FailureMessages(c.castErrors) + UnsetFirst(c) + SetRequired(c);
    assert CabinMessages(c)[|pre|] == "Discount should be less than regular price.";
  }

  /** A sixth image is refused. */
  lemma SixImagesRefused(c: Cabin)
    requires c.images.Some? && |c.images.value| == 6
    ensures "Only 5 images for each cabin." in CabinMessages(c)
  {
    var ms := CabinMessages(c);
    assert ms[|ms| - 1] == "Only 5 images for each cabin.";
  }

  /**
   * A blank name is no name: with the capacity and the price sent, the
   * trimmed empty string fails `required`, the first validator to run.
   */
  lemma BlankNameRefused(fs: Fields, id: string)
    requires Get(fs, "name") == Some(Str("  ")) && CabinCastErrors(fs) == []
    requires Get(fs, "maxCapacity").Some? && Get(fs, "regularPrice").Some?
    ensures |CabinMessages(CastCabin(fs, id))| > 0 && CabinMessages(CastCabin(fs, id))[0] == "A cabin must have a name."
  {
    var c := CastCabin(fs, id);
    assert Trim("  ") == "" by { assert TrimStart("  ") == ""; }
    assert c.name == Some("") by { assert CastString(Get(fs, "name")) == Some("  "); }
    assert c.unsetRequired == {} by {
      forall p ensures p !in c.unsetRequired { assert Get(fs, PathName(p)).Some?; }
    }
    NamelessFirstMessage(c);
  }

  /** Without cast errors and with every required path set, a cabin with no name has the name message first. */
  lemma NamelessFirstMessage(c: Cabin)
    requires c.castErrors == [] && !Present(c.name)
    requires c.unsetRequired == {}
    ensures |CabinMessages(c)| > 0 && CabinMessages(c)[0] == "A cabin must have a name."
  {
    assert NameMessages(c) == ["A cabin must have a name."];
    assert CabinMessages(c)[0] == NameMessages(c)[0];
  }

  /**
   * A body holding only a blank name: the price and the capacity, never
   * set, are reported first, in `requiredPaths()` order, and the name after
   * them.
   */
  lemma UnsetPathsFirst(fs: Fields, id: string)
    requires Get(fs, "name") == Some(Str("  "))
    requires forall k :: k != "name" ==> Get(fs, k).None?
    ensures CabinMessages(CastCabin(fs, id))
         == ["A cabin must have reqular price.", "A cabin must have a maximum capacity.", "A cabin must have a name."]
  {
    assert Get(fs, "nameLowerCase").None? && Get(fs, "maxCapacity").None? && Get(fs, "regularPrice").None?;
    assert Get(fs, "discount").None? && Get(fs, "description").None? && Get(fs, "image").None? && Get(fs, "images").None?;
    BlankNameOnlyCast(fs, id);
    var c := CastCabin(fs, id);
    assert !Present(c.name) && DiscountMessages(c) == [] && ImagesMessages(c) == [];
    PriceAndCapacityUnsetMessages(c);
  }

  /** The cast of a body holding only a blank name. */
  lemma BlankNameOnlyCast(fs: Fields, id: string)
    requires Get(fs, "name") == Some(Str("  "))
    requires Get(fs, "nameLowerCase").None? && Get(fs, "maxCapacity").None? && Get(fs, "regularPrice").None?
    requires Get(fs, "discount").None? && Get(fs, "description").None? && Get(fs, "image").None? && Get(fs, "images").None?
    ensures var c := CastCabin(fs, id);
      c.castErrors == [] && c.name == Some("") && c.maxCapacity.None? && c.regularPrice.None?
      && RegularPrice in c.unsetRequired && MaxCapacity in c.unsetRequired && Name !in c.unsetRequired
      && c.discount.None? && c.images == Some([])
  {
    BlankNameNoCastErrors(fs);
    var c := CastCabin(fs, id);
    assert Trim("  ") == "" by { assert TrimStart("  ") == ""; }
    assert c.name == Some("") by { assert CastString(Get(fs, "name")) == Some("  "); }
  }

  /** A blank name is a string, so a body holding only that records no cast error. */
  lemma BlankNameNoCastErrors(fs: Fields)
    requires Get(fs, "name") == Some(Str("  "))
    requires Get(fs, "nameLowerCase").None? && Get(fs, "maxCapacity").None? && Get(fs, "regularPrice").None?
    requires Get(fs, "discount").None? && Get(fs, "description").None? && Get(fs, "image").None?
    ensures CabinCastErrors(fs) == []
  {
    assert !StringFails(Get(fs, "name"));
  }

  /** The messages of a cabin without cast errors that never set its price and capacity and has no name. */
  lemma PriceAndCapacityUnsetMessages(c: Cabin)
    requires c.castErrors == [] && !Present(c.name) && c.maxCapacity.None? && !Priced(c.regularPrice)
    requires RegularPrice in c.unsetRequired && MaxCapacity in c.unsetRequired && Name !in c.unsetRequired
    requires DiscountMessages(c) == [] && ImagesMessages(c) == []
    ensures CabinMessages(c)
         == ["A cabin must have reqular price.", "A cabin must have a maximum capacity.", "A cabin must have a name."]
  {
    var name, capacity, price := "A cabin must have a name.", "A cabin must have a maximum capacity.", "A cabin must have reqular price.";
    assert UnsetFirst(c) == [price, capacity] by {
      assert RequiredGroup(c, RegularPrice, true) == [price];
      assert RequiredGroup(c, MaxCapacity, true) == [capacity];
      assert RequiredGroup(c, Name, true) == [];
    }
    assert SetRequired(c) == [name] by {
      assert RequiredGroup(c, Name, false) == [name];
      assert RequiredGroup(c, MaxCapacity, false) == [];
      assert RequiredGroup(c, RegularPrice, false) == [];
    }
    assert FailureMessages(c.castErrors) == [] && Unless(c.castErrors, "discount", DiscountMessages(c)) == [];
    CabinMessagesParts(c);
    assert CabinMessages(c) == [] + ([price, capacity] + [name] + [] + []);
  }

  /**
   * A capacity that is no number, sent alone, is refused with its cast error
   * first; its own `required` check is skipped, and the unset price and name
   * follow in `requiredPaths()` order.
   */
  lemma UncastCapacityRefused(fs: Fields, id: string, x: Value)
    requires Get(fs, "maxCapacity") == Some(x) && NumberFails(Some(x))
    requires forall k :: k != "maxCapacity" ==> Get(fs, k).None?
    ensures CabinMessages(CastCabin(fs, id))
         == [CastMessage("Number", x, "maxCapacity", None), "A cabin must have reqular price.", "A cabin must have a name."]
  {
    UncastCapacityOnlyCast(fs, id, x);
    OnlyCapacityFailedMessages(CastCabin(fs, id), CastMessage("Number", x, "maxCapacity", None));
  }

  /** The cast of a body holding only a capacity that is no number. */
  lemma UncastCapacityOnlyCast(fs: Fields, id: string, x: Value)
    requires Get(fs, "maxCapacity") == Some(x) && NumberFails(Some(x))
    requires forall k :: k != "maxCapacity" ==> Get(fs, k).None?
    ensures var c := CastCabin(fs, id);
      c.castErrors == [CastFailure("maxCapacity", CastMessage("Number", x, "maxCapacity", None))]
      && c.name.None? && !Priced(c.regularPrice) && DiscountMessages(c) == [] && ImagesMessages(c) == []
      && RegularPrice in c.unsetRequired && Name in c.unsetRequired && MaxCapacity !in c.unsetRequired
  {
    assert Get(fs, "name").None? && Get(fs, "regularPrice").None? && Get(fs, "discount").None? && Get(fs, "images").None?;
    assert Get(fs, "nameLowerCase").None? && Get(fs, "description").None? && Get(fs, "image").None?;
  }

  /** The messages of a cabin whose capacity alone failed to cast, with neither name nor price set. */
  lemma OnlyCapacityFailedMessages(c: Cabin, m: string)
    requires c.castErrors == [CastFailure("maxCapacity", m)]
    requires c.name.None? && !Priced(c.regularPrice) && DiscountMessages(c) == [] && ImagesMessages(c) == []
    requires RegularPrice in c.unsetRequired && Name in c.unsetRequired && MaxCapacity !in c.unsetRequired
    ensures CabinMessages(c) == [m, "A cabin must have reqular price.", "A cabin must have a name."]
  {
    var e := c.castErrors;
    var name, price := "A cabin must have a name.", "A cabin must have reqular price.";
    assert FailedPaths(e) == ["maxCapacity"];
    assert !Failed(e, "name") && !Failed(e, "regularPrice") && !Failed(e, "discount") && Failed(e, "maxCapacity");
    assert FailureMessages(e) == [m];
    assert UnsetFirst(c) == [price, name] by {
      assert RequiredGroup(c, RegularPrice, true) == [price];
      assert RequiredGroup(c, MaxCapacity, true) == [];
      assert RequiredGroup(c, Name, true) == [name];
    }
    assert SetRequired(c) == [] by {
      assert RequiredGroup(c, Name, false) == [];
      assert RequiredGroup(c, MaxCapacity, false) == [];
      assert RequiredGroup(c, RegularPrice, false) == [];
    }
    assert Unless(e, "discount", DiscountMessages(c)) == [];
    CabinMessagesParts(c);
    assert CabinMessages(c) == [m] + ([price, name] + [] + [] + []);
  }

  /** "abc" is no number, so a capacity sent as "abc" is refused that way. */
  lemma AbcIsNoNumber()
    ensures NumberFails(Some(Str("abc")))
  {
    assert Coercions.StringToNumber("abc").NaN? by {
      assert !Coercions.IsDigit('a');
      assert Trim("abc") == "abc" by { assert TrimStart("abc") == "abc"; assert TrimEnd("abc") == "abc"; }
    }
  }

  // ------------------------------------------------------------- save hook

  /** White space is not a capital letter, so lowercasing neither makes nor removes it at either end. */
  lemma LowerCharSpace(c: char)
    ensures IsSpace(LowerChars(c)[0]) == IsSpace(c)
    ensures IsSpace(LowerChars(c)[|LowerChars(c)| - 1]) == IsSpace(c)
  {
  }

  /** Lowercasing keeps a trimmed string trimmed. */
  lemma LowerOfTrimmed(s: string)
    ensures Trim(ToLower(Trim(s))) == ToLower(Trim(s))
  {
    var t := Trim(s);
    var u := ToLower(t);
    if t != [] {
      ToLowerEnds(t);
      LowerCharSpace(t[0]);
      LowerCharSpace(t[|t| - 1]);
      assert !IsSpace(u[0]) && !IsSpace(u[|u| - 1]);
    }
    assert TrimStart(u) == u;
    assert TrimEnd(u) == u;
  }

  /** The pre-save hook: `nameLowerCase` is the lowercase of the name, through the path's `trim` setter. */
  function WithLowerCaseName(c: Cabin): (r: Cabin)
    requires Present(c.name)
    ensures r.nameLowerCase == Some(Trim(ToLower(c.name.value)))
    ensures r.(nameLowerCase := c.nameLowerCase) == c
  {
    c.(nameLowerCase := Some(Trim(ToLower(c.name.value))))
  }

  /** For a name cast from a body, the stored lowercase copy is exactly its lowercase. */
  lemma LowerCaseNameOfCast(fs: Fields, id: string)
    requires Present(CastCabin(fs, id).name)
    ensures WithLowerCaseName(CastCabin(fs, id)).nameLowerCase == Some(ToLower(CastCabin(fs, id).name.value))
  {
    LowerOfTrimmed(CastString(Get(fs, "name")).value);
  }

  // ------------------------------------------------------------- conversion

  /** A price path through `convertDecimal128Fields`: a present decimal becomes a number, `null` and `undefined` stay. */
  function ConvertPrice(p: Option<Option<BookingsModel.Price>>): (r: Option<Option<BookingsModel.Price>>)
    ensures Priced(p) ==> r == Some(Some(BookingsModel.Number(p.value.value.amount)))
    ensures !Priced(p) ==> r == p
  {
    if Priced(p) then Some(Some(BookingsModel.Number(p.value.value.amount))) else p
  }

  /** `convertDecimal128Fields` on one cabin: present prices become plain numbers; nothing else changes. */
  function Converted(c: Cabin): (r: Cabin)
    ensures r.regularPrice == ConvertPrice(c.regularPrice)
    ensures r.discount == ConvertPrice(c.discount)
    ensures r.(regularPrice := c.regularPrice, discount := c.discount) == c
  {
    c.(regularPrice := ConvertPrice(c.regularPrice), discount := ConvertPrice(c.discount))
  }

  /** Converting keeps every amount and the admissibility of the cabin. */
  lemma ConvertedKeepsAmounts(c: Cabin)
    ensures Admissible(Converted(c)) == Admissible(c)
    ensures Converted(Converted(c)) == Converted(c)
  {
  }

  /** `convertDecimal128Fields(docs)` for an array: every element in place. */
  method ConvertAll(docs: array<Cabin>)
    modifies docs
    ensures forall i :: 0 <= i < docs.Length ==> docs[i] == Converted(old(docs[i]))
  {
    var i := 0;
    while i < docs.Length
      invariant 0 <= i <= docs.Length
      invariant forall j :: 0 <= j < i ==> docs[j] == Converted(old(docs[j]))
      invariant forall j :: i <= j < docs.Length ==> docs[j] == old(docs[j])
    {
      docs[i] := Converted(docs[i]);
      i := i + 1;
    }
  }

  // ------------------------------------------------------------------ store

  predicate UniqueIds(cs: seq<Cabin>) {
    forall i, j :: 0 <= i < |cs| && 0 <= j < |cs| && i != j ==> cs[i].id != cs[j].id
  }

  /** Every stored cabin passed validation and ids are unique. */
  predicate Consistent(cs: seq<Cabin>) {
    UniqueIds(cs) && forall i :: 0 <= i < |cs| ==> Admissible(cs[i])
  }

  /** The index of the stored cabin with this id. */
  function IndexOfId(cs: seq<Cabin>, id: string): (r: Option<nat>)
    ensures r.None? <==> forall i :: 0 <= i < |cs| ==> cs[i].id != id
    ensures r.Some? ==> r.value < |cs| && cs[r.value].id == id
  {
    if cs == [] then None
    else if cs[0].id == id then Some(0)
    else match IndexOfId(cs[1..], id)
      case None => None
      case Some(k) => Some(k + 1)
  }

  function Upsert(cs: seq<Cabin>, c: Cabin): (r: seq<Cabin>)
    ensures IndexOfId(cs, c.id).None? ==> r == cs + [c]
    ensures IndexOfId(cs, c.id).Some? ==> r == cs[IndexOfId(cs, c.id).value := c]
  {
    match IndexOfId(cs, c.id)
    case None => cs + [c]
    case Some(k) => cs[k := c]
  }

  lemma UpsertKeepsConsistent(cs: seq<Cabin>, c: Cabin)
    requires Consistent(cs) && Admissible(c)
    ensures Consistent(Upsert(cs, c))
  {
  }

  /** The outcome of `findOneAndDelete({ _id: id })` and its pre hook. */
  datatype DeleteResult = Deleted(cabin: Cabin) | Blocked(err: Err)

  /** The hook calls a method of `findOne`'s result, which is `null` when no cabin has the id. */
  const NoCabinThrew: Err := TypeError("Cannot read properties of null (reading 'checkCabinHasBooking')")

  const CabinBooked: Err := NewAppError("This cabin can not be deleted. It has active bookings.", Some(404))

  /** Some booking names the cabin. */
  predicate HasBooking(bookings: seq<BookingsModel.Booking>, id: string) {
    exists i :: 0 <= i < |bookings| && bookings[i].cabinId == Some(id)
  }

  /** The delete with its pre hook: a missing cabin makes the hook throw, a booked one is refused. */
  function DeleteOutcome(cs: seq<Cabin>, bookings: seq<BookingsModel.Booking>, id: string): (r: DeleteResult)
    ensures r.Deleted? <==> IndexOfId(cs, id).Some? && !HasBooking(bookings, id)
    ensures r.Deleted? ==> r.cabin.id == id && r.cabin in cs
    ensures IndexOfId(cs, id).Some? && HasBooking(bookings, id) ==> r == Blocked(CabinBooked)
    ensures IndexOfId(cs, id).None? ==> r == Blocked(NoCabinThrew)
  {
    match IndexOfId(cs, id)
    case None => Blocked(NoCabinThrew)
    case Some(k) => if HasBooking(bookings, id) then Blocked(CabinBooked) else Deleted(cs[k])
  }

  /** The collection without the cabin at position `k`. */
  function RemoveAt(cs: seq<Cabin>, k: nat): (r: seq<Cabin>)
    requires k < |cs|
    ensures |r| == |cs| - 1
  {
    cs[..k] + cs[k + 1..]
  }

  /** A refused delete is answered 404 and a booked cabin is never removed. */
  lemma BookedCabinRefused(cs: seq<Cabin>, bookings: seq<BookingsModel.Booking>, id: string, b: nat)
    requires b < |bookings| && bookings[b].cabinId == Some(id)
    ensures DeleteOutcome(cs, bookings, id).Blocked?
    ensures IndexOfId(cs, id).Some? ==> DeleteOutcome(cs, bookings, id).err.statusCode == Some(404)
  {
  }

  class CabinsTable {
    var cabins: seq<Cabin>

    ghost predicate Valid()
      reads this
    {
      Consistent(cabins)
    }

    constructor()
      ensures Valid() && cabins == []
    {
      cabins := [];
    }

    /** `save()`: validation, then the pre-save hook, then the write. */
    method Save(c: Cabin) returns (r: Outcome<Cabin>)
      requires Valid()
      modifies this
      ensures Valid()
      ensures !Admissible(c) ==> r == Fail(ValidationError(CabinMessages(c))) && cabins == old(cabins)
      ensures Admissible(c) ==> r == Ok(WithLowerCaseName(c)) && cabins == Upsert(old(cabins), WithLowerCaseName(c))
    {
      if !Admissible(c) {
        return Fail(ValidationError(CabinMessages(c)));
      }
      var stored := WithLowerCaseName(c);
      assert Admissible(stored);
      UpsertKeepsConsistent(cabins, stored);
      cabins := Upsert(cabins, stored);
      r := Ok(stored);
    }

    /** `findOneAndDelete({ _id: id })`, given the bookings the hook finds. */
    method FindOneAndDelete(id: string, bookings: seq<BookingsModel.Booking>) returns (r: DeleteResult)
      requires Valid()
      modifies this
      ensures Valid()
      ensures r == DeleteOutcome(old(cabins), bookings, id)
      ensures r.Blocked? ==> cabins == old(cabins)
      ensures r.Deleted? ==> cabins == RemoveAt(old(cabins), IndexOfId(old(cabins), id).value)
    {
      r := DeleteOutcome(cabins, bookings, id);
      if r.Deleted? {
        var k := IndexOfId(cabins, id).value;
        RemoveKeepsConsistent(cabins, k);
        cabins := RemoveAt(cabins, k);
      }
    }
  }

  /** Removing a cabin keeps the collection consistent, and no other cabin goes. */
  lemma RemoveKeepsConsistent(cs: seq<Cabin>, k: nat)
    requires Consistent(cs) && k < |cs|
    ensures Consistent(RemoveAt(cs, k))
    ensures forall c :: c in cs && c != cs[k] ==> c in RemoveAt(cs, k)
  {
    var r := RemoveAt(cs, k);
    assert forall i :: 0 <= i < |r| ==> r[i] == cs[if i < k then i else i + 1];
    forall c | c in cs && c != cs[k] ensures c in r {
      var i :| 0 <= i < |cs| && cs[i] == c;
      assert r[if i < k then i else i - 1] == c;
    }
  }
}
