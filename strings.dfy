/**
 * The few JavaScript string operations the services rely on: `toLowerCase`,
 * `trim`, `length`, `split` with a one-character separator, `join`,
 * `replace` of one character by another, and the decimal rendering of an
 * integer. Case mapping covers the Latin letters up to Latin Extended-A
 * (U+017F), including the dotted capital I that lowercases to two
 * characters; `trim` removes exactly the JavaScript white space and line
 * terminators.
 */
module Strings {

  /** The one-character lowercase of `c`: ASCII, Latin-1 and Latin Extended-A capitals, and `c` itself otherwise. */
  function LowerChar(c: char): char {
    var n := c as int;
    if 'A' <= c <= 'Z' then (n + 32) as char
    else if 0xC0 <= n <= 0xDE && n != 0xD7 then (n + 32) as char
    else if (0x100 <= n <= 0x12F || 0x132 <= n <= 0x137 || 0x14A <= n <= 0x177) && n % 2 == 0 then (n + 1) as char
    else if (0x139 <= n <= 0x148 || 0x179 <= n <= 0x17E) && n % 2 == 1 then (n + 1) as char
    else if n == 0x178 then 0xFF as char
    else c
  }

  /** What `toLowerCase` makes of one character: U+0130 becomes "i" and a combining dot above. */
  function LowerChars(c: char): (r: string)
    ensures |r| >= 1
    ensures c != '\U{0130}' ==> r == [LowerChar(c)]
  {
    if c == '\U{0130}' then "i\U{0307}" else [LowerChar(c)]
  }

  /** A character `toLowerCase` leaves as it is. */
  predicate IsLower(c: char) {
    LowerChars(c) == [c]
  }

  /** No character of `s` is changed by lowercasing. */
  predicate AllLower(s: string) {
    forall i :: 0 <= i < |s| ==> IsLower(s[i])
  }

  lemma LowerCharsAreLower(c: char)
    ensures forall i :: 0 <= i < |LowerChars(c)| ==> IsLower(LowerChars(c)[i])
  {
  }

  /** `s.toLowerCase()`, character by character. */
  function ToLower(s: string): (r: string)
    ensures |r| >= |s|
    ensures r == [] <==> s == []
    ensures AllLower(r)
    decreases |s|
  {
    if s == [] then []
    else
      LowerCharsAreLower(s[0]);
      LowerChars(s[0]) + ToLower(s[1..])
  }

  /** Lowercasing distributes over concatenation. */
  lemma {:induction false} ToLowerConcat(a: string, b: string)
    ensures ToLower(a + b) == ToLower(a) + ToLower(b)
    decreases |a|
  {
    if a == [] {
      assert a + b == b;
    } else {
      assert (a + b)[0] == a[0] && (a + b)[1..] == a[1..] + b;
      ToLowerConcat(a[1..], b);
    }
  }

  /** A string that is already lowercase is its own lowercase. */
  lemma {:induction false} ToLowerOfLower(s: string)
    requires AllLower(s)
    ensures ToLower(s) == s
    decreases |s|
  {
    if s != [] {
      ToLowerOfLower(s[1..]);
    }
  }

  /** Lowercase ASCII letters are left alone. */
  lemma AsciiLowerUnchanged(s: string)
    requires forall i :: 0 <= i < |s| ==> 'a' <= s[i] <= 'z'
    ensures ToLower(s) == s
  {
    forall i | 0 <= i < |s| ensures IsLower(s[i]) {
      assert LowerChar(s[i]) == s[i];
    }
    ToLowerOfLower(s);
  }

  lemma ToLowerIdempotent(s: string)
    ensures ToLower(ToLower(s)) == ToLower(s)
  {
    ToLowerOfLower(ToLower(s));
  }

  /** Without a dotted capital I, lowercasing maps each character to one character. */
  lemma {:induction false} ToLowerPointwise(s: string)
    requires forall i :: 0 <= i < |s| ==> s[i] != '\U{0130}'
    ensures |ToLower(s)| == |s|
    ensures forall i :: 0 <= i < |s| ==> ToLower(s)[i] == LowerChar(s[i])
    decreases |s|
  {
    if s != [] {
      ToLowerPointwise(s[1..]);
    }
  }

  /** The first and the last character of a lowercase come from the first and the last character. */
  lemma ToLowerEnds(s: string)
    requires s != []
    ensures ToLower(s)[0] == LowerChars(s[0])[0]
    ensures ToLower(s)[|ToLower(s)| - 1] == LowerChars(s[|s| - 1])[|LowerChars(s[|s| - 1])| - 1]
  {
    var c := s[|s| - 1];
    assert s == s[..|s| - 1] + [c];
    ToLowerConcat(s[..|s| - 1], [c]);
    assert ToLower([c]) == LowerChars(c);
  }

  /** `s.length`: UTF-16 code units, two for a character beyond U+FFFF. */
  function Utf16Length(s: string): (n: nat)
    ensures |s| <= n <= 2 * |s|
    ensures (forall i :: 0 <= i < |s| ==> s[i] as int <= 0xFFFF) ==> n == |s|
  {
    if s == [] then 0 else (if s[0] as int <= 0xFFFF then 1 else 2) + Utf16Length(s[1..])
  }

  /** The characters `trim` removes: JavaScript's white space (the Zs category among them) and line terminators. */
  predicate IsSpace(c: char) {
    var n := c as int;
    (0x09 <= n <= 0x0D) || n == 0x20 || n == 0xA0 || n == 0x1680 || (0x2000 <= n <= 0x200A)
    || n == 0x2028 || n == 0x2029 || n == 0x202F || n == 0x205F || n == 0x3000 || n == 0xFEFF
  }

  function TrimStart(s: string): (r: string)
    ensures |r| <= |s| && r == s[|s| - |r|..]
    ensures r == [] || !IsSpace(r[0])
    ensures forall i :: 0 <= i < |s| - |r| ==> IsSpace(s[i])
  {
    if s != [] && IsSpace(s[0]) then TrimStart(s[1..]) else s
  }

  function TrimEnd(s: string): (r: string)
    ensures |r| <= |s| && r == s[..|r|]
    ensures r == [] || !IsSpace(r[|r| - 1])
    ensures forall i :: |r| <= i < |s| ==> IsSpace(s[i])
  {
    if s != [] && IsSpace(s[|s| - 1]) then TrimEnd(s[..|s| - 1]) else s
  }

  /** `s.trim()`: the longest slice of `s` that neither starts nor ends with white space. */
  function Trim(s: string): (r: string)
    ensures exists i, j :: 0 <= i <= j <= |s| && r == s[i..j]
    ensures r == [] || (!IsSpace(r[0]) && !IsSpace(r[|r| - 1]))
  {
    var a := TrimStart(s);
    var r := TrimEnd(a);
    assert r == s[|s| - |a|..|s| - |a| + |r|];
    r
  }

  /** Trimming a string that is already trimmed gives it back. */
  lemma {:induction false} TrimIdempotent(s: string)
    ensures Trim(Trim(s)) == Trim(s)
  {
    var t := Trim(s);
    assert t == [] || !IsSpace(t[0]);
    assert TrimStart(t) == t;
    assert t == [] || !IsSpace(t[|t| - 1]);
    assert TrimEnd(t) == t;
  }

  /** `s.replace(/x/g, y)` for single characters. */
  function ReplaceChar(s: string, x: char, y: char): (r: string)
    ensures |r| == |s|
    ensures x != y ==> x !in r
    ensures forall i :: 0 <= i < |s| ==> r[i] == (if s[i] == x then y else s[i])
  {
    seq(|s|, i requires 0 <= i < |s| => if s[i] == x then y else s[i])
  }

  /** The first index of `c` in `s`, or |s| when `c` does not occur. */
  function IndexOf(s: string, c: char): (k: nat)
    ensures k <= |s|
    ensures c !in s[..k]
    ensures k < |s| ==> s[k] == c
  {
    if s == [] then 0
    else if s[0] == c then 0
    else 1 + IndexOf(s[1..], c)
  }

  /** `s.split(c)` for a one-character separator: "" gives [""], "a|b|" gives ["a", "b", ""]. */
  function Split(s: string, c: char): (pieces: seq<string>)
    ensures |pieces| >= 1
    ensures forall p :: p in pieces ==> c !in p
    decreases |s|
  {
    var k := IndexOf(s, c);
    if k == |s| then [s] else [s[..k]] + Split(s[k + 1..], c)
  }

  /** `xs.join(sep)`. */
  function Join(xs: seq<string>, sep: string): string {
    if xs == [] then ""
    else if |xs| == 1 then xs[0]
    else xs[0] + sep + Join(xs[1..], sep)
  }

  /** Splitting on a character and joining the pieces with it gives back the string. */
  lemma {:induction false} JoinSplit(s: string, c: char)
    ensures Join(Split(s, c), [c]) == s
    decreases |s|
  {
    var k := IndexOf(s, c);
    if k < |s| {
      var rest := Split(s[k + 1..], c);
      var pieces := [s[..k]] + rest;
      JoinSplit(s[k + 1..], c);
      assert Split(s, c) == pieces;
      assert |pieces| > 1 && pieces[0] == s[..k] && pieces[1..] == rest;
      assert Join(pieces, [c]) == s[..k] + [c] + Join(rest, [c]);
      assert s == s[..k] + [c] + s[k + 1..];
    } else {
      assert Split(s, c) == [s];
    }
  }

  /** Splitting never loses a character: a string without `c` is one piece. */
  lemma SplitWithoutSeparator(s: string, c: char)
    requires c !in s
    ensures Split(s, c) == [s]
  {
  }

  /** The first piece of a split is everything before the first separator. */
  lemma SplitHead(s: string, c: char, k: nat)
    requires k < |s| && s[k] == c && c !in s[..k]
    ensures Split(s, c)[0] == s[..k]
  {
  }

  function DigitChar(d: int): char
    requires 0 <= d < 10
  {
    "0123456789"[d]
  }

  /** Decimal digits of a natural number, most significant first. */
  function Digits(n: nat): (r: string)
    ensures |r| >= 1
    ensures n < 10 ==> r == [DigitChar(n)]
  {
    if n < 10 then [DigitChar(n)] else Digits(n / 10) + [DigitChar(n % 10)]
  }

  /** `${n}` for an integer. */
  function IntToString(n: int): (r: string)
    ensures |r| >= 1
  {
    if n < 0 then "-" + Digits(-n) else Digits(n)
  }
}
