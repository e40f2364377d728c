/**
 * The JavaScript coercions the services rely on: `String(v)` and `Number(v)`
 * (the unary `+`) on request values, for numbers that are integers.
 */
module Coercions {
  import opened Wrappers
  import opened Strings
  import opened Json

  /** `String(v)`, which is also what a template literal shows. */
  function Stringify(v: Value): (r: string)
    ensures v.Str? ==> r == v.s
    ensures v.Num? ==> StringToNumber(r) == Int(v.n)
    ensures v.Obj? ==> r == "[object Object]"
    ensures v == Arr([]) ==> r == ""
  {
    match v
    case Null => "null"
    case Bool(b) => if b then "true" else "false"
    case Num(n) => NumberOfRendering(n); IntToString(n)
    case Str(s) => s
    case Arr(items) => JoinItems(items)
    case Obj(_) => "[object Object]"
  }

  /** `items.join(",")`, where `null` elements render as empty. */
  function JoinItems(items: seq<Value>): string
    decreases items
  {
    if items == [] then ""
    else
      var first := if items[0].Null? then "" else Stringify(items[0]);
      if |items| == 1 then first else first + "," + JoinItems(items[1..])
  }

  /** A JavaScript number restricted to integers, or `NaN`. */
  datatype Number = NaN | Int(i: int)

  predicate IsDigit(c: char) {
    '0' as int <= c as int <= '9' as int
  }

  function DigitsValue(ds: string): (n: nat)
    requires forall i :: 0 <= i < |ds| ==> IsDigit(ds[i])
  {
    if ds == [] then 0
    else
      assert IsDigit(ds[|ds| - 1]);
      10 * DigitsValue(ds[..|ds| - 1]) + (ds[|ds| - 1] as int - '0' as int)
  }

  predicate AllDigits(s: string) {
    |s| > 0 && forall i :: 0 <= i < |s| ==> IsDigit(s[i])
  }

  /** A string of digits has no white space to trim. */
  lemma DigitsTrimmed(s: string)
    requires AllDigits(s)
    ensures Trim(s) == s
  {
    assert !IsSpace(s[0]) && !IsSpace(s[|s| - 1]);
    assert TrimStart(s) == s;
    assert TrimEnd(s) == s;
  }

  /** `Number(s)` for decimal integers: blank is 0, an optional sign and digits give their value, anything else `NaN`. */
  function StringToNumber(s: string): (n: Number)
    ensures AllDigits(s) ==> n == Int(DigitsValue(s))
  {
    if AllDigits(s) then Int(DigitsValue(s)) else SignedNumber(Trim(s))
  }

  /** `Number` of an already trimmed string. */
  function SignedNumber(t: string): (n: Number) {
    if t == "" then Int(0)
    else if AllDigits(t) then Int(DigitsValue(t))
    else if (t[0] == '+' || t[0] == '-') && AllDigits(t[1..]) then
      var m: int := DigitsValue(t[1..]);
      Int(if t[0] == '-' then -m else m)
    else NaN
  }

  /** A string of digits surrounded by white space has the value of its digits. */
  lemma SpacesAroundDigits(s: string)
    requires AllDigits(Trim(s))
    ensures StringToNumber(s) == Int(DigitsValue(Trim(s)))
  {
    if AllDigits(s) {
      DigitsTrimmed(s);
    }
  }

  /** The decimal digits of a natural number read back as that number. */
  lemma {:induction false} DigitsRoundTrip(n: nat)
    ensures AllDigits(Digits(n)) && DigitsValue(Digits(n)) == n
    decreases n
  {
    if n >= 10 {
      DigitsRoundTrip(n / 10);
      var d := Digits(n / 10);
      var s := d + [DigitChar(n % 10)];
      assert s[..|s| - 1] == d;
      assert forall i :: 0 <= i < |s| ==> IsDigit(s[i]) by {
        forall i | 0 <= i < |s| ensures IsDigit(s[i]) {
          if i < |d| { assert s[i] == d[i]; }
        }
      }
    }
  }

  /** `Number(String(n))` is `n`: an integer survives its rendering. */
  lemma NumberOfRendering(n: int)
    ensures StringToNumber(IntToString(n)) == Int(n)
  {
    if n >= 0 {
      DigitsRoundTrip(n);
    } else {
      NegativeRendering(-n);
    }
  }

  /** The rendering of a negative number is its minus sign and digits, with no white space to trim. */
  lemma NegativeRendering(m: nat)
    requires m > 0
    ensures StringToNumber("-" + Digits(m)) == Int(-(m as int))
  {
    var d := Digits(m);
    DigitsRoundTrip(m);
    var s := "-" + d;
    assert s[1..] == d;
    assert !IsDigit(s[0]);
    assert !IsSpace(s[0]);
    assert s[|s| - 1] == d[|d| - 1];
    assert TrimStart(s) == s;
    assert TrimEnd(s) == s;
    assert SignedNumber(s) == Int(-(m as int));
  }

  /** `+v`, `None` being `undefined`. */
  function ToNumber(v: Option<Value>): (r: Number)
    ensures v.None? ==> r.NaN?
    ensures v == Some(Null) || v == Some(Bool(false)) || v == Some(Str("")) || v == Some(Arr([])) ==> r == Int(0)
    ensures v.Some? && v.value.Num? ==> r == Int(v.value.n)
    ensures v.Some? && v.value.Str? ==> r == StringToNumber(v.value.s)
    ensures v.Some? && v.value.Arr? && |v.value.items| == 1 && v.value.items[0].Num? ==> r == Int(v.value.items[0].n)
  {
    match v
    case None => NaN
    case Some(Null) => Int(0)
    case Some(Bool(b)) => Int(if b then 1 else 0)
    case Some(Num(n)) => Int(n)
    case Some(Arr(items)) => StringToNumber(JoinItems(items))
    case Some(x) => StringToNumber(Stringify(x))
  }
}
