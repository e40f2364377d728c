/**
 * The settings schema: required minimum and maximum booking lengths (the
 * maximum no smaller than the minimum), a required guest limit, an optional
 * decimal breakfast price and an `isActive` flag defaulting to true; after an
 * active record is saved every other active record is switched off, so the
 * saved one is the only active record.
 */
module SettingsModel {
  import opened Wrappers
  import opened Json
  import opened Casts
  import opened AppErrors
  import BookingsModel

  /**
   * A settings document after casting and defaults; `None` is a path left
   * `undefined`, set to `null`, or whose cast failed. `isActive` is `None`
   * when it was set to `null`: the default fills only a missing key.
   * `castErrors` are the cast errors the document recorded.
   */
  datatype Setting = Setting(
    id: string,
    minBookingLength: Option<int>,
    maxBookingLength: Option<int>,
    maxGuestsPerBooking: Option<int>,
    breakfastPrice: Option<BookingsModel.Price>,
    isActive: Option<bool>,
    castErrors: seq<CastFailure>)

  /** A record that counts as active: `isActive` is `true` (what `if (doc.isActive)` and `find({ isActive: true })` see). */
  predicate Active(s: Setting) {
    s.isActive == Some(true)
  }

  /** The cast errors `new Settings(fields)` records, in schema order. */
  function SettingCastErrors(fs: Fields): (r: seq<CastFailure>)
    ensures r == [] <==>
      !NumberFails(Get(fs, "minBookingLength")) && !NumberFails(Get(fs, "maxBookingLength"))
      && !NumberFails(Get(fs, "maxGuestsPerBooking")) && !DecimalFails(Get(fs, "breakfastPrice"))
      && !BoolFails(Get(fs, "isActive"))
  {
    NumberFailure(Get(fs, "minBookingLength"), "minBookingLength")
    + NumberFailure(Get(fs, "maxBookingLength"), "maxBookingLength")
    + NumberFailure(Get(fs, "maxGuestsPerBooking"), "maxGuestsPerBooking")
    + DecimalFailure(Get(fs, "breakfastPrice"), "breakfastPrice")
    + BoolFailure(Get(fs, "isActive"), "isActive")
  }

  /**
   * `new Settings(fields)`: numbers cast (numeric strings included), the
   * breakfast price as a decimal, `isActive` defaulting to true when the key
   * is missing and staying `null` when it is `null`.
   */
  function CastSetting(fs: Fields, id: string): (s: Setting)
    ensures s.id == id && s.castErrors == SettingCastErrors(fs)
    ensures s.minBookingLength == CastNumber(Get(fs, "minBookingLength"))
    ensures s.maxBookingLength == CastNumber(Get(fs, "maxBookingLength"))
    ensures s.maxGuestsPerBooking == CastNumber(Get(fs, "maxGuestsPerBooking"))
    ensures Get(fs, "isActive").None? ==> s.isActive == Some(true)
    ensures Get(fs, "isActive") == Some(Null) ==> s.isActive.None?
    ensures Get(fs, "isActive").Some? && TrueValue(Get(fs, "isActive").value) ==> s.isActive == Some(true)
    ensures Get(fs, "isActive").Some? && FalseValue(Get(fs, "isActive").value) ==> s.isActive == Some(false)
  {
    Setting(id,
            CastNumber(Get(fs, "minBookingLength")),
            CastNumber(Get(fs, "maxBookingLength")),
            CastNumber(Get(fs, "maxGuestsPerBooking")),
            BookingsModel.DecimalOf(CastDecimal(Get(fs, "breakfastPrice"))),
            CastBool(Get(fs, "isActive"), true),
            SettingCastErrors(fs))
  }

  /** `isActive: "abc"` does not cast: the record carries the cast error and cannot be saved. */
  lemma UncastFlagRecorded(fs: Fields, id: string)
    requires Get(fs, "isActive") == Some(Str("abc"))
    ensures Failed(CastSetting(fs, id).castErrors, "isActive")
    ensures !Admissible(CastSetting(fs, id))
  {
    var e := SettingCastErrors(fs);
    var pre := NumberFailure(Get(fs, "minBookingLength"), "minBookingLength")
      + NumberFailure(Get(fs, "maxBookingLength"), "maxBookingLength")
      + NumberFailure(Get(fs, "maxGuestsPerBooking"), "maxGuestsPerBooking")
      + DecimalFailure(Get(fs, "breakfastPrice"), "breakfastPrice");
    assert BoolFails(Get(fs, "isActive"));
    assert e[|pre|].path == "isActive";
    assert FailedPaths(e)[|pre|] == "isActive";
  }

  // ------------------------------------------------------------- validators

  /** The conditions the validators check together, on a record that recorded no cast error. */
  predicate Admissible(s: Setting) {
    s.castErrors == []
    && s.minBookingLength.Some? && s.maxBookingLength.Some?
    && s.maxBookingLength.value >= s.minBookingLength.value
    && s.maxGuestsPerBooking.Some?
  }

  /**
   * The `maxBookingLength` path: `required` first; its custom validator reads
   * `this.minBookingLength.toString()`, which throws when the minimum is
   * missing, and a validator that throws fails with the thrown message.
   */
  function MaxMessages(s: Setting): (ms: seq<string>)
    ensures ms == [] <==> s.minBookingLength.Some? && s.maxBookingLength.Some?
                          && s.maxBookingLength.value >= s.minBookingLength.value
    ensures |ms| <= 1
  {
    if s.maxBookingLength.None? then ["Please submit maximum booking days."]
    else if s.minBookingLength.None? then ["Cannot read properties of undefined (reading 'toString')"]
    else Check(s.maxBookingLength.value >= s.minBookingLength.value,
               "Maximum booking days should be more than minimum booking days.")
  }

  /**
   * The messages of a failed validation: the recorded cast errors, then one
   * message per failing path, skipping the paths whose cast failed. The paths
   * are listed in schema order, not in the order Mongoose runs their
   * validators.
   */
  function SettingMessages(s: Setting): (ms: seq<string>)
    ensures ms == [] <==> Admissible(s)
    ensures s.castErrors == [] ==>
              ms == Check(s.minBookingLength.Some?, "Please submit minimum booking days.")
                    + MaxMessages(s) + Check(s.maxGuestsPerBooking.Some?, "Please submit maximum guests number per booking.")
  {
    FailureMessages(s.castErrors)
    + Unless(s.castErrors, "minBookingLength", Check(s.minBookingLength.Some?, "Please submit minimum booking days."))
    + Unless(s.castErrors, "maxBookingLength", MaxMessages(s))
    + Unless(s.castErrors, "maxGuestsPerBooking", Check(s.maxGuestsPerBooking.Some?, "Please submit maximum guests number per booking."))
  }

  /** A maximum below the minimum is refused with the validator's own message. */
  lemma MaxBelowMinRefused(s: Setting)
    requires s.minBookingLength.Some? && s.maxBookingLength.Some? && !Failed(s.castErrors, "maxBookingLength")
    requires s.maxBookingLength.value < s.minBookingLength.value
    ensures "Maximum booking days should be more than minimum booking days." in SettingMessages(s)
  {
    assert MaxMessages(s) == ["Maximum booking days should be more than minimum booking days."];
    var pre := FailureMessages(s.castErrors)
      + Unless(s.castErrors, "minBookingLength", Check(s.minBookingLength.Some?, "Please submit minimum booking days."));
    assert SettingMessages(s)[|pre|] == "Maximum booking days should be more than minimum booking days.";
  }

  /** The validity of a record does not depend on whether it is active. */
  lemma AdmissibleIgnoresActive(s: Setting, active: Option<bool>)
    ensures Admissible(s.(isActive := active)) == Admissible(s)
  {
  }

  // ------------------------------------------------------------- conversion

  /** `convertDecimal128Fields` on one record: a present breakfast price becomes a plain number. */
  function Converted(s: Setting): (r: Setting)
    ensures r.breakfastPrice.None? <==> s.breakfastPrice.None?
    ensures s.breakfastPrice.Some? ==> r.breakfastPrice == Some(BookingsModel.Number(s.breakfastPrice.value.amount))
    ensures r.(breakfastPrice := s.breakfastPrice) == s
  {
    s.(breakfastPrice := BookingsModel.ToNumber(s.breakfastPrice))
  }

  /** `convertDecimal128Fields(docs)` for an array: every element in place. */
  method ConvertAll(docs: array<Setting>)
    modifies docs
    ensures forall i :: 0 <= i < docs.Length ==> docs[i] == Converted(old(docs[i]))
  {
    var i := 0;
    while i < docs.Length
      invariant 0 <= i <= docs.Length
      invariant forall j :: 0 <= j < i ==> docs[j] == Converted(old(docs[j]))
      invariant forall j :: i <= j < docs.Length ==> docs[j] == old(docs[j])
    {
      docs[i] := Converted(docs[i]);
      i := i + 1;
    }
  }

  // ------------------------------------------------------------------ store

  predicate UniqueIds(ss: seq<Setting>) {
    forall i, j :: 0 <= i < |ss| && 0 <= j < |ss| && i != j ==> ss[i].id != ss[j].id
  }

  /** Every stored record passed validation and ids are unique. */
  predicate Consistent(ss: seq<Setting>) {
    UniqueIds(ss) && forall i :: 0 <= i < |ss| ==> Admissible(ss[i])
  }

  /** The index of the stored record with this id. */
  function IndexOfId(ss: seq<Setting>, id: string): (r: Option<nat>)
    ensures r.None? <==> forall i :: 0 <= i < |ss| ==> ss[i].id != id
    ensures r.Some? ==> r.value < |ss| && ss[r.value].id == id
  {
    if ss == [] then None
    else if ss[0].id == id then Some(0)
    else match IndexOfId(ss[1..], id)
      case None => None
      case Some(k) => Some(k + 1)
  }

  /** With unique ids the record with an id is found at its own position. */
  lemma IndexOfUnique(ss: seq<Setting>, i: nat)
    requires UniqueIds(ss) && i < |ss|
    ensures IndexOfId(ss, ss[i].id) == Some(i)
  {
  }

  /** `save()`: a record with a new id is appended, a known one replaced in place. */
  function Upsert(ss: seq<Setting>, s: Setting): (r: seq<Setting>)
    ensures IndexOfId(ss, s.id).None? ==> r == ss + [s]
    ensures IndexOfId(ss, s.id).Some? ==> r == ss[IndexOfId(ss, s.id).value := s]
  {
    match IndexOfId(ss, s.id)
    case None => ss + [s]
    case Some(k) => ss[k := s]
  }

  lemma UpsertKeepsConsistent(ss: seq<Setting>, s: Setting)
    requires Consistent(ss) && Admissible(s)
    ensures Consistent(Upsert(ss, s))
  {
  }

  /** A record the cascade switches off: any active record but the one saved. */
  function SwitchedOff(s: Setting, savedId: string): (r: Setting)
    ensures r.id == s.id
    ensures Active(r) <==> Active(s) && s.id == savedId
    ensures Active(s) && s.id != savedId ==> r.isActive == Some(false)
    ensures r.(isActive := s.isActive) == s
  {
    if Active(s) && s.id != savedId then s.(isActive := Some(false)) else s
  }

  /** The collection after the post-save hook of an active record with id `savedId`. */
  function Cascade(ss: seq<Setting>, savedId: string): (r: seq<Setting>)
    ensures |r| == |ss|
    ensures forall i :: 0 <= i < |ss| ==> r[i] == SwitchedOff(ss[i], savedId)
  {
    seq(|ss|, i requires 0 <= i < |ss| => SwitchedOff(ss[i], savedId))
  }

  /** The collection after a successful save of `s`, its post-save hook included. */
  function Saved(ss: seq<Setting>, s: Setting): seq<Setting> {
    if Active(s) then Cascade(Upsert(ss, s), s.id) else Upsert(ss, s)
  }

  /** After saving an active record it is stored and it is the only active record. */
  lemma ActiveSaveIsSoleActive(ss: seq<Setting>, s: Setting)
    requires Consistent(ss) && Active(s)
    ensures var r := Saved(ss, s);
      s in r && forall i :: 0 <= i < |r| && Active(r[i]) ==> r[i] == s
  {
    var u := Upsert(ss, s);
    var k := if IndexOfId(ss, s.id).Some? then IndexOfId(ss, s.id).value else |ss|;
    assert u[k] == s;
    assert Saved(ss, s)[k] == s;
    forall i | 0 <= i < |u| && Active(Saved(ss, s)[i]) ensures Saved(ss, s)[i] == s {
      assert u[i].id == s.id;
    }
  }

  /** Saving an inactive record changes no other record. */
  lemma InactiveSaveTouchesNoOther(ss: seq<Setting>, s: Setting)
    requires !Active(s)
    ensures var r := Saved(ss, s);
      |r| >= |ss| && forall i :: 0 <= i < |ss| && ss[i].id != s.id ==> r[i] == ss[i]
  {
  }

  /** The cascade changes nothing but `isActive`, and only from true to false. */
  lemma CascadeOnlySwitchesOff(ss: seq<Setting>, savedId: string)
    ensures var r := Cascade(ss, savedId);
      forall i :: 0 <= i < |ss| ==> r[i].(isActive := ss[i].isActive) == ss[i] && (Active(r[i]) ==> Active(ss[i]))
  {
  }

  /** A record `deleteMany({ isActive: false })` matches: one whose flag is `false` (not `null`). */
  predicate Inactive(s: Setting) {
    s.isActive == Some(false)
  }

  /** `deleteMany({ isActive: false })`: the records that are not inactive, in stored order. */
  function WithoutInactive(ss: seq<Setting>): (r: seq<Setting>)
    ensures |r| <= |ss|
  {
    if ss == [] then []
    else (if !Inactive(ss[0]) then [ss[0]] else []) + WithoutInactive(ss[1..])
  }

  /** The delete keeps exactly the records whose flag is not `false`. */
  lemma {:induction false} WithoutInactiveMembers(ss: seq<Setting>, s: Setting)
    ensures s in WithoutInactive(ss) <==> s in ss && !Inactive(s)
  {
    if ss != [] {
      WithoutInactiveMembers(ss[1..], s);
      assert ss == [ss[0]] + ss[1..];
    }
  }

  /** A second delete of inactive records, with no write in between, removes nothing. */
  lemma {:induction false} WithoutInactiveIdempotent(ss: seq<Setting>)
    ensures WithoutInactive(WithoutInactive(ss)) == WithoutInactive(ss)
  {
    if ss != [] {
      var rest := WithoutInactive(ss[1..]);
      WithoutInactiveIdempotent(ss[1..]);
      if !Inactive(ss[0]) {
        var r := [ss[0]] + rest;
        assert r[0] == ss[0] && r[1..] == rest;
        assert WithoutInactive(ss) == r;
        assert WithoutInactive(r) == [ss[0]] + WithoutInactive(rest);
      } else {
        assert WithoutInactive(ss) == rest;
      }
    }
  }

  /** Keeping a subsequence of a consistent collection keeps it consistent. */
  lemma {:induction false} WithoutInactiveConsistent(ss: seq<Setting>)
    requires Consistent(ss)
    ensures Consistent(WithoutInactive(ss))
  {
    if ss != [] {
      var tail := ss[1..];
      assert forall i :: 0 <= i < |tail| ==> tail[i] == ss[i + 1];
      WithoutInactiveConsistent(tail);
      var rest := WithoutInactive(tail);
      if !Inactive(ss[0]) {
        var r := [ss[0]] + rest;
        forall i | 0 < i < |r| ensures r[i].id != ss[0].id {
          assert r[i] == rest[i - 1];
          WithoutInactiveMembers(tail, r[i]);
          var k :| 0 <= k < |tail| && tail[k] == r[i];
          assert ss[k + 1] == r[i];
        }
        assert forall i :: 0 < i < |r| ==> r[i] == rest[i - 1];
      }
    }
  }

  class SettingsTable {
    var settings: seq<Setting>

    ghost predicate Valid()
      reads this
    {
      Consistent(settings)
    }

    constructor()
      ensures Valid() && settings == []
    {
      settings := [];
    }

    /**
     * `save()` and its post-save hook. For an active record the hook finds
     * the other active records and saves each of them switched off; those
     * saves are of inactive records, so their own hooks do nothing and the
     * recursion stops.
     */
    method Save(s: Setting) returns (r: Outcome<Setting>)
      requires Valid()
      modifies this
      ensures Valid()
      ensures !Admissible(s) ==> r == Fail(ValidationError(SettingMessages(s))) && settings == old(settings)
      ensures Admissible(s) ==> r == Ok(s) && settings == Saved(old(settings), s)
      decreases if Active(s) then 1 else 0
    {
      if !Admissible(s) {
        return Fail(ValidationError(SettingMessages(s)));
      }
      UpsertKeepsConsistent(settings, s);
      settings := Upsert(settings, s);
      if Active(s) {
        ghost var stored := settings;
        var i := 0;
        while i < |settings|
          invariant 0 <= i <= |settings| == |stored|
          invariant Valid()
          invariant forall j :: 0 <= j < i ==> settings[j] == SwitchedOff(stored[j], s.id)
          invariant forall j :: i <= j < |settings| ==> settings[j] == stored[j]
        {
          if Active(settings[i]) && settings[i].id != s.id {
            var off := settings[i].(isActive := Some(false));
            IndexOfUnique(settings, i);
            var _ := Save(off);
          }
          i := i + 1;
        }
        assert settings == Cascade(stored, s.id);
      }
      r := Ok(s);
    }

    /** `deleteMany({ isActive: false })`. */
    method DeleteInactive()
      requires Valid()
      modifies this
      ensures Valid()
      ensures settings == WithoutInactive(old(settings))
    {
      WithoutInactiveConsistent(settings);
      settings := WithoutInactive(settings);
    }
  }
}
