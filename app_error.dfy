/**
 * The error values that travel to the central error handler: the
 * application's own `AppError` and the foreign errors it classifies
 * (database cast, duplicate-key and validation errors, token errors, upload
 * limits, and plain `Error`s thrown by code).
 */
module AppErrors {
  import opened Wrappers
  import opened Strings

  /** The `code` property: Mongo's numeric 11000, multer's "LIMIT_FILE_SIZE", or none. */
  datatype Code = NoCode | NumCode(n: int) | StrCode(s: string)

  datatype Err = Err(
    name: string,
    message: string,
    statusCode: Option<int>,
    status: Option<string>,
    isOperational: bool,
    code: Code,
    path: string,                       // CastError: the path that failed to cast
    value: string,                      // CastError: the rendered value
    keyValue: Option<seq<string>>,      // duplicate key error: the keys of `keyValue`
    errorMessages: seq<string>          // ValidationError: message of each entry of `errors`
  )

  /** A value whose rendering `${x}` starts with the character '4'. */
  predicate RendersWithFour(statusCode: Option<int>) {
    statusCode.Some? && IntToString(statusCode.value)[0] == '4'
  }

  /** `new AppError(message, statusCode)`. */
  function NewAppError(message: string, statusCode: Option<int>): (e: Err)
    ensures e.message == message && e.statusCode == statusCode
    ensures e.isOperational
    ensures e.status == Some(if RendersWithFour(statusCode) then "fail" else "error")
  {
    Err("Error", message, statusCode,
        Some(if RendersWithFour(statusCode) then "fail" else "error"),
        true, NoCode, "", "", None, [])
  }

  /** `new Error(message)`: not operational, no status code. */
  function PlainError(message: string): (e: Err)
    ensures !e.isOperational && e.statusCode.None? && e.status.None?
  {
    Err("Error", message, None, None, false, NoCode, "", "", None, [])
  }

  /** A `TypeError` raised by the runtime (a missing method, `in` on `undefined`). */
  function TypeError(message: string): (e: Err)
    ensures e.name == "TypeError" && !e.isOperational && e.statusCode.None?
  {
    Err("TypeError", message, None, None, false, NoCode, "", "", None, [])
  }

  /** Mongoose's `ValidationError`: one message per failing path, in the order validation reported them. */
  function ValidationError(messages: seq<string>): (e: Err)
    ensures e.name == "ValidationError" && e.errorMessages == messages
    ensures !e.isOperational && e.statusCode.None?
  {
    Err("ValidationError", "Validation failed", None, None, false, NoCode, "", "", None, messages)
  }

  /** The driver's duplicate key error (code 11000) for a unique index over `keys`. */
  function DuplicateKeyError(keys: seq<string>): (e: Err)
    ensures e.code == NumCode(11000) && e.keyValue == Some(keys)
    ensures !e.isOperational && e.statusCode.None?
  {
    Err("MongoServerError", "E11000 duplicate key error", None, None, false, NumCode(11000), "", "", Some(keys), [])
  }

  /** Mongoose's `CastError` for a value that does not cast to the type of `path`. */
  function CastError(path: string, value: string): (e: Err)
    ensures e.name == "CastError" && e.path == path && e.value == value
    ensures !e.isOperational && e.statusCode.None?
  {
    Err("CastError", "Cast failed", None, None, false, NoCode, path, value, None, [])
  }

  /** `jsonwebtoken`'s error for a token whose signature or format does not verify. */
  function JsonWebTokenError(message: string): (e: Err)
    ensures e.name == "JsonWebTokenError" && e.message == message
    ensures !e.isOperational && e.statusCode.None?
  {
    Err("JsonWebTokenError", message, None, None, false, NoCode, "", "", None, [])
  }

  /** `jsonwebtoken`'s error for a token past its `exp`. */
  const TokenExpiredError: Err := Err("TokenExpiredError", "jwt expired", None, None, false, NoCode, "", "", None, [])

  /** multer's error for an upload above the size limit. */
  const FileTooLargeError: Err :=
    Err("MulterError", "File too large", None, None, false, StrCode("LIMIT_FILE_SIZE"), "", "", None, [])

  function Pow10(k: nat): (p: nat)
    ensures p >= 1
  {
    if k == 0 then 1 else 10 * Pow10(k - 1)
  }

  /** The most significant decimal digit of a natural number. */
  function LeadingDigit(n: nat): (d: nat)
    ensures d < 10
    ensures n > 0 ==> d > 0
  {
    if n < 10 then n else LeadingDigit(n / 10)
  }

  lemma {:induction false} FirstCharIsLeadingDigit(n: nat)
    ensures Digits(n)[0] == DigitChar(LeadingDigit(n))
  {
    if n >= 10 {
      FirstCharIsLeadingDigit(n / 10);
    }
  }

  /** A number leading with 4 lies in [4·10^k, 5·10^k) for some k. */
  lemma {:induction false} LeadingFourWitness(n: nat) returns (k: nat)
    requires LeadingDigit(n) == 4
    ensures 4 * Pow10(k) <= n < 5 * Pow10(k)
  {
    if n < 10 {
      k := 0;
    } else {
      var j := LeadingFourWitness(n / 10);
      k := j + 1;
      assert Pow10(k) == 10 * Pow10(j);
    }
  }

  /** A number in [4·10^k, 5·10^k) leads with 4. */
  lemma {:induction false} LeadingFourFromRange(n: nat, k: nat)
    requires 4 * Pow10(k) <= n < 5 * Pow10(k)
    ensures LeadingDigit(n) == 4
  {
    if k == 0 {
    } else {
      var p := Pow10(k - 1);
      assert Pow10(k) == 10 * p;
      assert 4 * p <= n / 10 < 5 * p;
      LeadingFourFromRange(n / 10, k - 1);
      assert n >= 10;
    }
  }

  /** A natural number leads with digit 4 exactly when it lies in [4·10^k, 5·10^k) for some k. */
  lemma LeadingFourRange(n: nat)
    ensures LeadingDigit(n) == 4 <==> exists k: nat :: 4 * Pow10(k) <= n < 5 * Pow10(k)
  {
    if LeadingDigit(n) == 4 {
      var k := LeadingFourWitness(n);
    }
    forall k: nat | 4 * Pow10(k) <= n < 5 * Pow10(k) ensures LeadingDigit(n) == 4 {
      LeadingFourFromRange(n, k);
    }
  }

  lemma PowAtLeastTen(k: nat)
    requires k > 0
    ensures Pow10(k) >= 10
  {
  }

  /**
   * `${statusCode}`.at(0) === "4" holds exactly for a status code in
   * [4·10^k, 5·10^k): every 4xx code, but also 4, 40 and 4000.
   */
  lemma StatusFailIff(statusCode: int)
    ensures NewAppError("", Some(statusCode)).status == Some("fail")
        <==> exists k: nat :: 4 * Pow10(k) <= statusCode < 5 * Pow10(k)
  {
    if statusCode >= 0 {
      FirstCharIsLeadingDigit(statusCode);
      LeadingFourRange(statusCode);
      assert IntToString(statusCode) == Digits(statusCode);
    } else {
      assert IntToString(statusCode)[0] == '-';
      forall k: nat ensures !(4 * Pow10(k) <= statusCode) {}
    }
  }

  /** Every 4xx status code gives status "fail". */
  lemma ClientErrorsFail(statusCode: int)
    requires 400 <= statusCode < 500
    ensures NewAppError("", Some(statusCode)).status == Some("fail")
  {
    StatusFailIff(statusCode);
    assert Pow10(2) == 100;
    assert 4 * Pow10(2) <= statusCode < 5 * Pow10(2);
  }

  /** A 5xx status code, and a missing one, give status "error". */
  lemma ServerErrorsAndMissingError(statusCode: int)
    requires 500 <= statusCode < 600
    ensures NewAppError("", Some(statusCode)).status == Some("error")
    ensures NewAppError("", None).status == Some("error")
  {
    FirstCharIsLeadingDigit(statusCode);
    assert statusCode / 10 / 10 == statusCode / 100;
    assert LeadingDigit(statusCode) == 5;
  }

  /** The `Result` every fallible operation of the model returns. */
  datatype Outcome<+T> = Ok(value: T) | Fail(err: Err)
}
