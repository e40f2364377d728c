/**
 * How Mongoose casts a request-body value to the type of a schema path, how
 * it reports a value that does not cast, and how `default` fills a path the
 * body leaves out. A cast yields a value of the path's type, `null`, or a
 * `CastError`; a document records its cast errors when it is built and
 * reports them ahead of its validators' messages, while the failing path
 * keeps the value it had before.
 */
module Casts {
  import opened Wrappers
  import opened Json
  import opened Strings
  import opened AppErrors
  import Coercions

  // ----------------------------------------------------------- cast errors

  /** The type a cast error names: `typeof` the value, or the constructor of an object. */
  function TypeName(v: Value): string {
    match v
    case Null => "null"
    case Bool(_) => "boolean"
    case Num(_) => "number"
    case Str(_) => "string"
    case Arr(_) => "Array"
    case Obj(_) => "Object"
  }

  /** `${` somewhere in `s`, which rules out backticks as `util.inspect` quotes. */
  predicate HasTemplateOpening(s: string) {
    exists i :: 0 <= i < |s| - 1 && s[i] == '$' && s[i + 1] == '{'
  }

  /** `s` with each single quote escaped by a backslash. */
  function EscapeSingle(s: string): (r: string)
    ensures '\'' !in s ==> r == s
    decreases |s|
  {
    if s == [] then [] else (if s[0] == '\'' then "\\'" else [s[0]]) + EscapeSingle(s[1..])
  }

  /** How `util.inspect` quotes a string: single quotes, else double, else backticks, else escaped single quotes. */
  function Quoted(s: string): (r: string)
    ensures '\'' !in s ==> r == "'" + s + "'"
    ensures '\'' in s && '"' !in s ==> r == "\"" + s + "\""
  {
    if '\'' !in s then "'" + s + "'"
    else if '"' !in s then "\"" + s + "\""
    else if '`' !in s && !HasTemplateOpening(s) then "`" + s + "`"
    else "'" + EscapeSingle(s) + "'"
  }

  /** A key `util.inspect` shows without quotes. */
  predicate IsIdentifier(k: string) {
    |k| > 0
    && (k[0] == '_' || 'a' <= k[0] <= 'z' || 'A' <= k[0] <= 'Z')
    && forall i :: 0 <= i < |k| ==> (k[i] == '_' || 'a' <= k[i] <= 'z' || 'A' <= k[i] <= 'Z' || Coercions.IsDigit(k[i]))
  }

  /**
   * `util.inspect(v)` on one line: strings quoted, arrays and objects with a
   * space inside their brackets, and containers nested more than two levels
   * deep shown as `[Array]` or `[Object]`.
   */
  function Inspect(v: Value, depth: nat): (r: string)
    ensures v.Str? ==> r == Quoted(v.s)
    ensures v.Num? ==> r == IntToString(v.n)
    decreases v, 1
  {
    match v
    case Null => "null"
    case Bool(b) => if b then "true" else "false"
    case Num(n) => IntToString(n)
    case Str(s) => Quoted(s)
    case Arr(items) =>
      if items == [] then "[]" else if depth > 2 then "[Array]" else "[ " + InspectItems(items, depth + 1) + " ]"
    case Obj(fields) =>
      if fields == [] then "{}" else if depth > 2 then "[Object]" else "{ " + InspectFields(fields, 0, depth + 1) + " }"
  }

  function InspectItems(items: seq<Value>, depth: nat): string
    decreases items, 0
  {
    if items == [] then ""
    else if |items| == 1 then Inspect(items[0], depth)
    else Inspect(items[0], depth) + ", " + InspectItems(items[1..], depth)
  }

  /** The entries from index `i` on, as `key: value`. */
  function InspectFields(fields: seq<(string, Value)>, i: nat, depth: nat): string
    decreases Obj(fields), 0, |fields| - i
  {
    if i >= |fields| then ""
    else
      var k := fields[i].0;
      var entry := (if IsIdentifier(k) then k else Quoted(k)) + ": " + Inspect(fields[i].1, depth);
      if i + 1 == |fields| then entry else entry + ", " + InspectFields(fields, i + 1, depth)
  }

  /** How a cast error shows a value: inspected, its outer single quotes made double, double-quoted if it does not start so. */
  function Shown(v: Value): (r: string)
    ensures |r| >= 2 && r[0] == '"'
  {
    var t := Inspect(v, 0);
    var a := if |t| > 0 && t[0] == '\'' then "\"" + t[1..] else t;
    var b := if |a| > 0 && a[|a| - 1] == '\'' then a[..|a| - 1] + "\"" else a;
    if |b| > 0 && b[0] == '"' && |b| >= 2 then b else "\"" + b + "\""
  }

  /** A string without a single quote is shown between double quotes, as it is. */
  lemma ShownString(s: string)
    requires '\'' !in s
    ensures Shown(Str(s)) == "\"" + s + "\""
  {
    var t := Inspect(Str(s), 0);
    assert t == "'" + s + "'";
    assert t[1..] == s + "'";
    var a := "\"" + t[1..];
    assert a[..|a| - 1] == "\"" + s;
  }

  /**
   * The message of a `CastError`: the kind of the path, the value shown and
   * its type, the path, and the name of the error the cast itself raised
   * when that was neither an assertion nor a plain `Error`.
   */
  function CastMessage(kind: string, v: Value, path: string, reason: Option<string>): (m: string)
    ensures reason.None? ==> m == "Cast to " + kind + " failed for value " + Shown(v) + " (type " + TypeName(v) + ") at path \"" + path + "\""
    ensures reason.Some? ==> m == "Cast to " + kind + " failed for value " + Shown(v) + " (type " + TypeName(v) + ") at path \"" + path + "\""
                                  + " because of \"" + reason.value + "\""
  {
    "Cast to " + kind + " failed for value " + Shown(v) + " (type " + TypeName(v) + ") at path \"" + path + "\""
    + (if reason.Some? then " because of \"" + reason.value + "\"" else "")
  }

  /** A cast error a document records on one of its paths. */
  datatype CastFailure = CastFailure(path: string, message: string)

  /** The paths of a document's cast errors. */
  function FailedPaths(fs: seq<CastFailure>): (ps: seq<string>)
    ensures |ps| == |fs|
    ensures forall i :: 0 <= i < |fs| ==> ps[i] == fs[i].path
  {
    seq(|fs|, i requires 0 <= i < |fs| => fs[i].path)
  }

  /** The messages of a document's cast errors, in the order they were recorded. */
  function FailureMessages(fs: seq<CastFailure>): (ms: seq<string>)
    ensures |ms| == |fs|
    ensures forall i :: 0 <= i < |fs| ==> ms[i] == fs[i].message
  {
    seq(|fs|, i requires 0 <= i < |fs| => fs[i].message)
  }

  /** Some cast error was recorded on `path`; its validators are then skipped. */
  predicate Failed(fs: seq<CastFailure>, path: string) {
    path in FailedPaths(fs)
  }

  /** The messages of `path`'s validators, unless its cast failed: Mongoose skips the validators of a path it has invalidated. */
  function Unless(fs: seq<CastFailure>, path: string, ms: seq<string>): (r: seq<string>)
    ensures !Failed(fs, path) ==> r == ms
    ensures Failed(fs, path) ==> r == []
  {
    if Failed(fs, path) then [] else ms
  }

  /** The cast error of `path` when `fails` holds, none otherwise. */
  function FailureIf(fails: bool, kind: string, v: Option<Value>, path: string, reason: Option<string>): (r: seq<CastFailure>)
    ensures r == [] <==> !fails || v.None?
    ensures r != [] ==> r == [CastFailure(path, CastMessage(kind, v.value, path, reason))]
  {
    if fails && v.Some? then [CastFailure(path, CastMessage(kind, v.value, path, reason))] else []
  }

  // ----------------------------------------------------------------- String

  /** An object standing for a document: a non-empty string `_id`. */
  function DocumentId(fs: Fields): (r: Option<string>)
    ensures r.Some? ==> Get(fs, "_id") == Some(Str(r.value)) && r.value != ""
    ensures r.None? ==> Get(fs, "_id").None? || !Get(fs, "_id").value.Str? || Get(fs, "_id").value.s == ""
  {
    match Get(fs, "_id")
    case Some(Str(id)) => if id != "" then Some(id) else None
    case _ => None
  }

  /** A value the `String` cast refuses: an array, or an object that is not a document. */
  predicate StringFails(v: Option<Value>) {
    v.Some? && (v.value.Arr? || (v.value.Obj? && DocumentId(v.value.fields).None?))
  }

  /**
   * A `String` path: strings as they are, numbers and booleans rendered, a
   * document as its id; `None` is `undefined`, `null` or a refused value.
   */
  function CastString(v: Option<Value>): (r: Option<string>)
    ensures r.None? <==> v.None? || v == Some(Null) || StringFails(v)
    ensures v.Some? && v.value.Str? ==> r == Some(v.value.s)
    ensures v.Some? && v.value.Num? ==> r == Some(IntToString(v.value.n))
    ensures v.Some? && v.value.Bool? ==> r == Some(if v.value.b then "true" else "false")
  {
    match v
    case Some(Str(s)) => Some(s)
    case Some(Num(n)) => Some(IntToString(n))
    case Some(Bool(b)) => Some(if b then "true" else "false")
    case Some(Obj(fs)) => DocumentId(fs)
    case _ => None
  }

  function StringFailure(v: Option<Value>, path: string): (r: seq<CastFailure>)
    ensures r == [] <==> !StringFails(v)
    ensures r != [] ==> r == [CastFailure(path, CastMessage("string", v.value, path, None))]
  {
    FailureIf(StringFails(v), "string", v, path, None)
  }

  // ----------------------------------------------------------------- Number

  /** A value the `Number` cast refuses: a string that is not a number, an array or an object. */
  predicate NumberFails(v: Option<Value>) {
    v.Some? &&
    match v.value
    case Str(s) => s != "" && Coercions.StringToNumber(s).NaN?
    case Arr(_) => true
    case Obj(_) => true
    case _ => false
  }

  /**
   * A `Number` path: numbers as they are, `true` and `false` as 1 and 0, a
   * string through `Number(s)`; the empty string is `null`.
   */
  function CastNumber(v: Option<Value>): (r: Option<int>)
    ensures r.None? <==> v.None? || v == Some(Null) || v == Some(Str("")) || NumberFails(v)
    ensures v.Some? && v.value.Num? ==> r == Some(v.value.n)
    ensures v.Some? && v.value.Bool? ==> r == Some(if v.value.b then 1 else 0)
    ensures v.Some? && v.value.Str? && v.value.s != "" && Coercions.StringToNumber(v.value.s).Int? ==>
              r == Some(Coercions.StringToNumber(v.value.s).i)
  {
    match v
    case Some(Num(n)) => Some(n)
    case Some(Bool(b)) => Some(if b then 1 else 0)
    case Some(Str(s)) =>
      if s == "" then None
      else (match Coercions.StringToNumber(s)
            case Int(i) => Some(i)
            case NaN => None)
    case _ => None
  }

  /** The string a form sends for a number casts back to that number. */
  lemma CastNumberOfRendering(n: int)
    ensures CastNumber(Some(Str(IntToString(n)))) == Some(n)
  {
    Coercions.NumberOfRendering(n);
  }

  function NumberFailure(v: Option<Value>, path: string): (r: seq<CastFailure>)
    ensures r == [] <==> !NumberFails(v)
    ensures r != [] ==> r == [CastFailure(path, CastMessage("Number", v.value, path, None))]
  {
    FailureIf(NumberFails(v), "Number", v, path, None)
  }

  // ------------------------------------------------------------- Decimal128

  /** What `Decimal128.fromString` reads as an integer: an optional sign and digits, nothing around them. */
  predicate DecimalString(s: string) {
    Coercions.AllDigits(s) || (|s| > 1 && (s[0] == '+' || s[0] == '-') && Coercions.AllDigits(s[1..]))
  }

  /** The value of a decimal string. */
  function DecimalValue(s: string): (n: int)
    requires DecimalString(s)
  {
    if Coercions.AllDigits(s) then Coercions.DigitsValue(s)
    else if s[0] == '-' then -(Coercions.DigitsValue(s[1..]) as int)
    else Coercions.DigitsValue(s[1..])
  }

  /** A value the `Decimal128` cast refuses: a string that is no decimal, the empty one included, a boolean, an array or an object. */
  predicate DecimalFails(v: Option<Value>) {
    v.Some? &&
    match v.value
    case Str(s) => !DecimalString(s)
    case Null => false
    case Num(_) => false
    case _ => true
  }

  /** A `Decimal128` path: a number, or a string `Decimal128.fromString` reads. */
  function CastDecimal(v: Option<Value>): (r: Option<int>)
    ensures r.None? <==> v.None? || v == Some(Null) || DecimalFails(v)
    ensures v.Some? && v.value.Num? ==> r == Some(v.value.n)
    ensures v.Some? && v.value.Str? && DecimalString(v.value.s) ==> r == Some(DecimalValue(v.value.s))
  {
    match v
    case Some(Num(n)) => Some(n)
    case Some(Str(s)) => if DecimalString(s) then Some(DecimalValue(s)) else None
    case _ => None
  }

  /** A rendered integer is a decimal string of the same value. */
  lemma CastDecimalOfRendering(n: int)
    ensures CastDecimal(Some(Str(IntToString(n)))) == Some(n)
  {
    Coercions.DigitsRoundTrip(if n < 0 then -n else n);
    if n < 0 {
      var s := IntToString(n);
      assert s[1..] == Digits(-n);
      assert !Coercions.AllDigits(s) by { assert !Coercions.IsDigit(s[0]); }
    }
  }

  /** A string `fromString` refuses raises the BSON library's error; any other refusal an assertion. */
  function DecimalFailure(v: Option<Value>, path: string): (r: seq<CastFailure>)
    ensures r == [] <==> !DecimalFails(v)
    ensures r != [] ==> r == [CastFailure(path, CastMessage("Decimal128", v.value, path,
                                 if v.value.Str? then Some("BSONError") else None))]
  {
    FailureIf(DecimalFails(v), "Decimal128", v, path, if v.Some? && v.value.Str? then Some("BSONError") else None)
  }

  // ---------------------------------------------------------------- Boolean

  /** The values Mongoose reads as true. */
  predicate TrueValue(v: Value) {
    v == Bool(true) || v == Str("true") || v == Num(1) || v == Str("1") || v == Str("yes")
  }

  /** The values Mongoose reads as false. */
  predicate FalseValue(v: Value) {
    v == Bool(false) || v == Str("false") || v == Num(0) || v == Str("0") || v == Str("no")
  }

  /** A value the `Boolean` cast refuses: anything but `null` and the true and false values. */
  predicate BoolFails(v: Option<Value>) {
    v.Some? && v.value != Null && !TrueValue(v.value) && !FalseValue(v.value)
  }

  /** A `Boolean` path given a value: `true`, `false`, or `None` for `null` and a refused value. */
  function BoolValue(v: Value): (r: Option<bool>)
    ensures r == Some(true) <==> TrueValue(v)
    ensures r == Some(false) <==> FalseValue(v)
    ensures r.None? <==> v == Null || BoolFails(Some(v))
  {
    if TrueValue(v) then Some(true) else if FalseValue(v) then Some(false) else None
  }

  /**
   * A `Boolean` path with a default, as a new document gets it: the default
   * is set first, so a missing key and a refused value both leave it;
   * `null` replaces it.
   */
  function CastBool(v: Option<Value>, default: bool): (r: Option<bool>)
    ensures v.None? || BoolFails(v) ==> r == Some(default)
    ensures v.Some? && !BoolFails(v) ==> r == BoolValue(v.value)
  {
    if v.None? || BoolFails(v) then Some(default) else BoolValue(v.value)
  }

  /** The `Boolean` cast rethrows its inner cast error, whose name the message repeats. */
  function BoolFailure(v: Option<Value>, path: string): (r: seq<CastFailure>)
    ensures r == [] <==> !BoolFails(v)
    ensures r != [] ==> r == [CastFailure(path, CastMessage("Boolean", v.value, path, Some("CastError")))]
  {
    FailureIf(BoolFails(v), "Boolean", v, path, Some("CastError"))
  }

  // ------------------------------------------------------------------- Date

  /** The largest distance from the epoch, in milliseconds, of a valid `Date`. */
  const MaxTime: int := 8_640_000_000_000_000

  /** `new Date(ms)`: valid within 8.64e15 milliseconds of the epoch. */
  function TimeClip(ms: int): (r: Option<int>)
    ensures r.Some? <==> -MaxTime <= ms <= MaxTime
    ensures r.Some? ==> r.value == ms
  {
    if -MaxTime <= ms <= MaxTime then Some(ms) else None
  }

  /**
   * The `Date` cast of a present value other than `null` and `""`: a number
   * is milliseconds; a numeric string outside the years -271820 to 275760
   * is milliseconds too; any other value is read by the date parser, an
   * array or an object through its `String` form; a boolean is refused.
   */
  function DateOf(v: Value, parseDate: string -> Option<int>): (r: Option<int>)
    ensures v.Num? ==> r == TimeClip(v.n)
    ensures v.Bool? ==> r.None?
  {
    match v
    case Null => None
    case Bool(_) => None
    case Num(n) => TimeClip(n)
    case Str(s) =>
      (match Coercions.StringToNumber(s)
       case Int(n) => if n >= 275761 || n < -271820 then TimeClip(n) else parseDate(s)
       case NaN => parseDate(s))
    case _ => parseDate(Coercions.Stringify(v))
  }

  /** A value the `Date` cast refuses: one that makes no valid date. */
  predicate DateFails(v: Option<Value>, parseDate: string -> Option<int>) {
    v.Some? && v.value != Null && v.value != Str("") && DateOf(v.value, parseDate).None?
  }

  /** A `Date` path, in milliseconds since the epoch; `null` and the empty string are `null`. */
  function CastDate(v: Option<Value>, parseDate: string -> Option<int>): (r: Option<int>)
    ensures r.None? <==> v.None? || v == Some(Null) || v == Some(Str("")) || DateFails(v, parseDate)
    ensures v.Some? && v.value.Num? ==> r == TimeClip(v.value.n)
    ensures v.Some? && v.value.Str? && v.value.s != "" && Coercions.StringToNumber(v.value.s).NaN? ==> r == parseDate(v.value.s)
    ensures v.Some? && v.value.Bool? ==> r.None?
  {
    if v.None? || v == Some(Null) || v == Some(Str("")) then None else DateOf(v.value, parseDate)
  }

  function DateFailure(v: Option<Value>, path: string, parseDate: string -> Option<int>): (r: seq<CastFailure>)
    ensures r == [] <==> !DateFails(v, parseDate)
    ensures r != [] ==> r == [CastFailure(path, CastMessage("date", v.value, path, None))]
  {
    FailureIf(DateFails(v, parseDate), "date", v, path, None)
  }

  // --------------------------------------------------------------- ObjectId

  /**
   * An `ObjectId` path: a string, or a document's id, that passes
   * `isObjectId`, the BSON library's test; anything else but `null` is refused.
   */
  function CastObjectId(v: Option<Value>, isObjectId: string -> bool): (r: Option<string>)
    ensures r.Some? ==> CastString(v) == r && isObjectId(r.value)
    ensures v.Some? && v.value.Str? && isObjectId(v.value.s) ==> r == Some(v.value.s)
    ensures v.None? || v == Some(Null) ==> r.None?
  {
    match v
    case Some(Str(s)) => if isObjectId(s) then Some(s) else None
    case Some(Obj(fs)) => if DocumentId(fs).Some? && isObjectId(DocumentId(fs).value) then DocumentId(fs) else None
    case _ => None
  }

  predicate ObjectIdFails(v: Option<Value>, isObjectId: string -> bool) {
    v.Some? && v.value != Null && CastObjectId(v, isObjectId).None?
  }

  function ObjectIdFailure(v: Option<Value>, path: string, isObjectId: string -> bool): (r: seq<CastFailure>)
    ensures r == [] <==> !ObjectIdFails(v, isObjectId)
    ensures r != [] ==> r == [CastFailure(path, CastMessage("ObjectId", v.value, path, Some("BSONError")))]
  {
    FailureIf(ObjectIdFails(v, isObjectId), "ObjectId", v, path, Some("BSONError"))
  }

  // ------------------------------------------------------------ query casts

  /**
   * The condition a query value puts on a `String` path, after that path's
   * setters: none for `undefined`; one of a list of values, `None` being
   * `null` (which also matches a missing value); or the `CastError` the
   * query rejects with.
   */
  datatype StringCondition = AnyValue | OneOf(values: seq<Option<string>>) | Uncastable(err: Err)

  /** One value of a query on a `String` path: `null`, or the cast through the setters. */
  function QueryItem(v: Value, setter: string -> string): (r: Option<string>)
    requires !StringFails(Some(v))
    ensures r.None? <==> v == Null
  {
    if v == Null then None else Some(setter(CastString(Some(v)).value))
  }

  /** The items of an `$in`, each cast. */
  function QueryItems(items: seq<Value>, setter: string -> string): (r: seq<Option<string>>)
    requires forall i :: 0 <= i < |items| ==> !StringFails(Some(items[i]))
    ensures |r| == |items|
    ensures forall i :: 0 <= i < |items| ==> r[i] == QueryItem(items[i], setter)
  {
    if items == [] then [] else [QueryItem(items[0], setter)] + QueryItems(items[1..], setter)
  }

  /** The first item the `String` cast refuses. */
  function FirstRefused(items: seq<Value>): (r: Option<nat>)
    ensures r.None? <==> forall i :: 0 <= i < |items| ==> !StringFails(Some(items[i]))
    ensures r.Some? ==> r.value < |items| && StringFails(Some(items[r.value]))
    ensures r.Some? ==> forall i :: 0 <= i < r.value ==> !StringFails(Some(items[i]))
  {
    if items == [] then None
    else if StringFails(Some(items[0])) then Some(0)
    else match FirstRefused(items[1..])
      case None => None
      case Some(i) => Some(i + 1)
  }

  /**
   * `find({ path: v })` on a `String` path: an array means `$in` of its
   * items, each cast; a plain object, or an item that is one, is a `CastError`
   * carrying that value; any other value is a condition of one.
   */
  function StringQuery(v: Option<Value>, path: string, setter: string -> string): (c: StringCondition)
    ensures v.None? <==> c == AnyValue
    ensures v.Some? && !v.value.Arr? && !StringFails(v) ==> c == OneOf([QueryItem(v.value, setter)])
    ensures v.Some? && v.value.Obj? && StringFails(v) ==> c == Uncastable(CastError(path, Coercions.Stringify(v.value)))
    ensures v.Some? && v.value.Arr? && FirstRefused(v.value.items).None? ==>
              c.OneOf? && |c.values| == |v.value.items|
              && forall i :: 0 <= i < |v.value.items| ==> c.values[i] == QueryItem(v.value.items[i], setter)
    ensures v.Some? && v.value.Arr? && FirstRefused(v.value.items).Some? ==>
              c == Uncastable(CastError(path, Coercions.Stringify(v.value.items[FirstRefused(v.value.items).value])))
  {
    match v
    case None => AnyValue
    case Some(Arr(items)) =>
      (match FirstRefused(items)
       case Some(i) => Uncastable(CastError(path, Coercions.Stringify(items[i])))
       case None => OneOf(QueryItems(items, setter)))
    case Some(x) =>
      if StringFails(v) then Uncastable(CastError(path, Coercions.Stringify(x)))
      else OneOf([QueryItem(x, setter)])
  }

  /** A stored value meets a condition. */
  predicate Meets(stored: Option<string>, c: StringCondition) {
    match c
    case AnyValue => true
    case OneOf(values) => stored in values
    case Uncastable(_) => false
  }

  /** A string meets the condition of itself, once through the setters. */
  lemma StringMeetsItself(s: string, path: string, setter: string -> string)
    ensures StringQuery(Some(Str(s)), path, setter) == OneOf([Some(setter(s))])
    ensures Meets(Some(setter(s)), StringQuery(Some(Str(s)), path, setter))
  {
  }

  /** A list of strings meets each of them. */
  lemma ArrayMeetsEachItem(items: seq<Value>, path: string, setter: string -> string, i: nat)
    requires i < |items| && items[i].Str?
    requires forall j :: 0 <= j < |items| ==> items[j].Str?
    ensures Meets(Some(setter(items[i].s)), StringQuery(Some(Arr(items)), path, setter))
  {
    var c := StringQuery(Some(Arr(items)), path, setter);
    assert FirstRefused(items).None?;
    assert c.values[i] == Some(setter(items[i].s));
  }

  /** `default: d` — applied only when the key is missing, not when it is `null`. */
  function WithDefault(v: Option<Value>, d: Value): (r: Option<Value>)
    ensures v.None? ==> r == Some(d)
    ensures v.Some? ==> r == v
  {
    if v.None? then Some(d) else v
  }

  /** The `trim` setter of a string path. */
  function Trimmed(s: Option<string>): (r: Option<string>)
    ensures r.None? <==> s.None?
    ensures s.Some? ==> r == Some(Trim(s.value))
  {
    if s.Some? then Some(Trim(s.value)) else None
  }

  /** The `trim` and `lowercase` setters of a string path, in that order. */
  function TrimmedLower(s: Option<string>): (r: Option<string>)
    ensures r.None? <==> s.None?
    ensures s.Some? ==> r == Some(ToLower(Trim(s.value)))
  {
    if s.Some? then Some(ToLower(Trim(s.value))) else None
  }

  /** The `trim` and `lowercase` setters on one string, as a query casts its value. */
  function TrimLower(s: string): (r: string)
    ensures r == ToLower(Trim(s))
  {
    ToLower(Trim(s))
  }

  /** A string path without setters. */
  function AsSent(s: string): (r: string)
    ensures r == s
  {
    s
  }

  /** `s.toLowerCase()` on a present value. */
  function Lowered(s: Option<string>): (r: Option<string>)
    ensures r.None? <==> s.None?
    ensures s.Some? ==> r == Some(ToLower(s.value))
  {
    if s.Some? then Some(ToLower(s.value)) else None
  }

  /** What a default reading `this.<path>.toLowerCase()` throws when that path is absent. */
  const LowerCaseOfUndefined: Err := TypeError("Cannot read properties of undefined (reading 'toLowerCase')")

  /** A `required` string path: `undefined`, `null` and the empty string all fail. */
  predicate Present(s: Option<string>) {
    s.Some? && s.value != ""
  }

  /** One validator: its message when the condition fails. */
  function Check(ok: bool, message: string): (r: seq<string>)
    ensures ok <==> r == []
  {
    if ok then [] else [message]
  }

  /** A present string, or the JSON `null`. */
  function StrOrNull(s: Option<string>): Value {
    if s.Some? then Str(s.value) else Null
  }

  /** The entry `(k, v)` when `v` is present, nothing otherwise: how an absent path disappears from `toJSON`. */
  function Entry(k: string, v: Option<Value>): (r: Fields)
    ensures v.None? ==> r == []
    ensures v.Some? ==> r == [(k, v.value)]
  {
    if v.Some? then [(k, v.value)] else []
  }

  /**
   * A document as `toJSON` shows it: its paths in schema order, each with
   * its value; a path without a value is left out.
   */
  function Document(names: seq<string>, values: seq<Option<Value>>): (fs: Fields)
    requires |names| == |values|
    decreases |names|
  {
    if names == [] then [] else Entry(names[0], values[0]) + Document(names[1..], values[1..])
  }

  /** With distinct names, reading a path gives its value, absent or not. */
  lemma {:induction false} DocumentGet(names: seq<string>, values: seq<Option<Value>>, i: nat)
    requires |names| == |values| && i < |names| && Distinct(names)
    ensures Get(Document(names, values), names[i]) == values[i]
    decreases |names|
  {
    var e := Entry(names[0], values[0]);
    var rest := Document(names[1..], values[1..]);
    if e == [] {
      assert e + rest == rest;
    } else {
      assert (e + rest)[0] == (names[0], values[0].value) && (e + rest)[1..] == rest;
    }
    assert Distinct(names[1..]) by {
      forall a, b | 0 <= a < b < |names[1..]| ensures names[1..][a] != names[1..][b] {
        assert names[1..][a] == names[a + 1] && names[1..][b] == names[b + 1];
      }
    }
    if i == 0 {
      if values[0].None? {
        assert names[0] !in names[1..] by {
          forall j | 0 <= j < |names[1..]| ensures names[1..][j] != names[0] {
            assert names[1..][j] == names[j + 1];
          }
        }
        DocumentKeys(names[1..], values[1..], names[0]);
      }
    } else {
      DocumentGet(names[1..], values[1..], i - 1);
      assert names[1..][i - 1] == names[i] && names[0] != names[i];
    }
  }

  /** A document shows no path outside its schema. */
  lemma {:induction false} DocumentKeys(names: seq<string>, values: seq<Option<Value>>, k: string)
    requires |names| == |values| && k !in names
    ensures k !in Keys(Document(names, values))
    decreases |names|
  {
    if names != [] {
      DocumentKeys(names[1..], values[1..], k);
      KeysConcat(Entry(names[0], values[0]), Document(names[1..], values[1..]));
    }
  }

  lemma OnlySchemaPaths(names: seq<string>, values: seq<Option<Value>>)
    requires |names| == |values|
    ensures forall k :: k !in names ==> Get(Document(names, values), k).None?
  {
    forall k | k !in names {
      DocumentKeys(names, values, k);
    }
  }

  /** One step of `Document`: the first path's entry, then the rest. */
  lemma DocumentCons(names: seq<string>, values: seq<Option<Value>>)
    requires |names| == |values| && names != []
    ensures Document(names, values) == Entry(names[0], values[0]) + Document(names[1..], values[1..])
  {
  }

  /** A document of seven paths, written out entry by entry. */
  lemma DocumentOf7(n: seq<string>, vs: seq<Option<Value>>)
    requires |n| == 7 && |vs| == 7
    ensures Document(n, vs)
         == Entry(n[0], vs[0]) + (Entry(n[1], vs[1]) + (Entry(n[2], vs[2]) + (
            Entry(n[3], vs[3]) + (Entry(n[4], vs[4]) + (Entry(n[5], vs[5]) + (
            Entry(n[6], vs[6])))))))
  {
    assert Document(n[7..], vs[7..]) == [];
    assert Entry(n[6], vs[6]) + [] == Entry(n[6], vs[6]);
    assert n[6..][1..] == n[7..] && vs[6..][1..] == vs[7..];
    DocumentCons(n[6..], vs[6..]);
    assert n[5..][1..] == n[6..] && vs[5..][1..] == vs[6..];
    DocumentCons(n[5..], vs[5..]);
    assert n[4..][1..] == n[5..] && vs[4..][1..] == vs[5..];
    DocumentCons(n[4..], vs[4..]);
    assert n[3..][1..] == n[4..] && vs[3..][1..] == vs[4..];
    DocumentCons(n[3..], vs[3..]);
    assert n[2..][1..] == n[3..] && vs[2..][1..] == vs[3..];
    DocumentCons(n[2..], vs[2..]);
    assert n[1..][1..] == n[2..] && vs[1..][1..] == vs[2..];
    DocumentCons(n[1..], vs[1..]);
    assert n[0..][1..] == n[1..] && vs[0..][1..] == vs[1..];
    DocumentCons(n[0..], vs[0..]);
    assert n[0..] == n && vs[0..] == vs;
  }

  /** A document of eleven paths, written out entry by entry. */
  lemma DocumentOf11(n: seq<string>, vs: seq<Option<Value>>)
    requires |n| == 11 && |vs| == 11
    ensures Document(n, vs)
         == Entry(n[0], vs[0]) + (Entry(n[1], vs[1]) + (Entry(n[2], vs[2]) + (
            Entry(n[3], vs[3]) + (Entry(n[4], vs[4]) + (Entry(n[5], vs[5]) + (
            Entry(n[6], vs[6]) + (Entry(n[7], vs[7]) + (Entry(n[8], vs[8]) + (
            Entry(n[9], vs[9]) + (Entry(n[10], vs[10])))))))))))
  {
    assert Document(n[11..], vs[11..]) == [];
    assert Entry(n[10], vs[10]) + [] == Entry(n[10], vs[10]);
    assert n[10..][1..] == n[11..] && vs[10..][1..] == vs[11..];
    DocumentCons(n[10..], vs[10..]);
    assert n[9..][1..] == n[10..] && vs[9..][1..] == vs[10..];
    DocumentCons(n[9..], vs[9..]);
    assert n[8..][1..] == n[9..] && vs[8..][1..] == vs[9..];
    DocumentCons(n[8..], vs[8..]);
    assert n[7..][1..] == n[8..] && vs[7..][1..] == vs[8..];
    DocumentCons(n[7..], vs[7..]);
    assert n[6..][1..] == n[7..] && vs[6..][1..] == vs[7..];
    DocumentCons(n[6..], vs[6..]);
    assert n[5..][1..] == n[6..] && vs[5..][1..] == vs[6..];
    DocumentCons(n[5..], vs[5..]);
    assert n[4..][1..] == n[5..] && vs[4..][1..] == vs[5..];
    DocumentCons(n[4..], vs[4..]);
    assert n[3..][1..] == n[4..] && vs[3..][1..] == vs[4..];
    DocumentCons(n[3..], vs[3..]);
    assert n[2..][1..] == n[3..] && vs[2..][1..] == vs[3..];
    DocumentCons(n[2..], vs[2..]);
    assert n[1..][1..] == n[2..] && vs[1..][1..] == vs[2..];
    DocumentCons(n[1..], vs[1..]);
    assert n[0..][1..] == n[1..] && vs[0..][1..] == vs[1..];
    DocumentCons(n[0..], vs[0..]);
    assert n[0..] == n && vs[0..] == vs;
  }

  /** A document of eight paths, written out entry by entry. */
  lemma DocumentOf8(n: seq<string>, vs: seq<Option<Value>>)
    requires |n| == 8 && |vs| == 8
    ensures Document(n, vs)
         == Entry(n[0], vs[0]) + (Entry(n[1], vs[1]) + (Entry(n[2], vs[2]) + (
            Entry(n[3], vs[3]) + (Entry(n[4], vs[4]) + (Entry(n[5], vs[5]) + (
            Entry(n[6], vs[6]) + (Entry(n[7], vs[7]))))))))
  {
    assert Document(n[8..], vs[8..]) == [];
    assert Entry(n[7], vs[7]) + [] == Entry(n[7], vs[7]);
    assert n[7..][1..] == n[8..] && vs[7..][1..] == vs[8..];
    DocumentCons(n[7..], vs[7..]);
    assert n[6..][1..] == n[7..] && vs[6..][1..] == vs[7..];
    DocumentCons(n[6..], vs[6..]);
    assert n[5..][1..] == n[6..] && vs[5..][1..] == vs[6..];
    DocumentCons(n[5..], vs[5..]);
    assert n[4..][1..] == n[5..] && vs[4..][1..] == vs[5..];
    DocumentCons(n[4..], vs[4..]);
    assert n[3..][1..] == n[4..] && vs[3..][1..] == vs[4..];
    DocumentCons(n[3..], vs[3..]);
    assert n[2..][1..] == n[3..] && vs[2..][1..] == vs[3..];
    DocumentCons(n[2..], vs[2..]);
    assert n[1..][1..] == n[2..] && vs[1..][1..] == vs[2..];
    DocumentCons(n[1..], vs[1..]);
    assert n[0..][1..] == n[1..] && vs[0..][1..] == vs[1..];
    DocumentCons(n[0..], vs[0..]);
    assert n[0..] == n && vs[0..] == vs;
  }

  /** A document of sixteen paths, written out entry by entry: eight steps onto a document of eight. */
  lemma DocumentOf16(n: seq<string>, vs: seq<Option<Value>>)
    requires |n| == 16 && |vs| == 16
    ensures Document(n, vs)
         == Entry(n[0], vs[0]) + (Entry(n[1], vs[1]) + (Entry(n[2], vs[2]) + (
            Entry(n[3], vs[3]) + (Entry(n[4], vs[4]) + (Entry(n[5], vs[5]) + (
            Entry(n[6], vs[6]) + (Entry(n[7], vs[7]) + (Entry(n[8], vs[8]) + (
            Entry(n[9], vs[9]) + (Entry(n[10], vs[10]) + (Entry(n[11], vs[11]) + (
            Entry(n[12], vs[12]) + (Entry(n[13], vs[13]) + (Entry(n[14], vs[14]) + (
            Entry(n[15], vs[15]))))))))))))))))
  {
    DocumentOf8(n[8..], vs[8..]);
    assert n[7..][1..] == n[8..] && vs[7..][1..] == vs[8..];
    DocumentCons(n[7..], vs[7..]);
    assert n[6..][1..] == n[7..] && vs[6..][1..] == vs[7..];
    DocumentCons(n[6..], vs[6..]);
    assert n[5..][1..] == n[6..] && vs[5..][1..] == vs[6..];
    DocumentCons(n[5..], vs[5..]);
    assert n[4..][1..] == n[5..] && vs[4..][1..] == vs[5..];
    DocumentCons(n[4..], vs[4..]);
    assert n[3..][1..] == n[4..] && vs[3..][1..] == vs[4..];
    DocumentCons(n[3..], vs[3..]);
    assert n[2..][1..] == n[3..] && vs[2..][1..] == vs[3..];
    DocumentCons(n[2..], vs[2..]);
    assert n[1..][1..] == n[2..] && vs[1..][1..] == vs[2..];
    DocumentCons(n[1..], vs[1..]);
    assert n[0..][1..] == n[1..] && vs[0..][1..] == vs[1..];
    DocumentCons(n[0..], vs[0..]);
    assert n[0..] == n && vs[0..] == vs;
  }

  /** A string path's value, when present. */
  function StrOf(s: Option<string>): (r: Option<Value>)
    ensures r.Some? <==> s.Some?
    ensures s.Some? ==> r.value == Str(s.value)
  {
    if s.Some? then Some(Str(s.value)) else None
  }

  /** A number path's value, when present. */
  function NumOf(n: Option<int>): (r: Option<Value>)
    ensures r.Some? <==> n.Some?
    ensures n.Some? ==> r.value == Num(n.value)
  {
    if n.Some? then Some(Num(n.value)) else None
  }

  /** A boolean path's value, when present. */
  function BoolOf(b: Option<bool>): (r: Option<Value>)
    ensures r.Some? <==> b.Some?
    ensures b.Some? ==> r.value == Bool(b.value)
  {
    if b.Some? then Some(Bool(b.value)) else None
  }

  function StrEntry(k: string, s: Option<string>): Fields {
    Entry(k, if s.Some? then Some(Str(s.value)) else None)
  }

  function NumEntry(k: string, n: Option<int>): Fields {
    Entry(k, if n.Some? then Some(Num(n.value)) else None)
  }
}
