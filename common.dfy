/** Values shared by every part of the model: optional values, results of
    operations that may throw, and the JavaScript `Error` objects they throw. */
module Common {

  datatype Option<+T> = None | Some(value: T)

  /** The value a promise resolves to, or the error it rejects with. */
  datatype Result<+T, +E> = Ok(value: T) | Err(error: E)

  /** The outcome of a promise that resolves to nothing. */
  datatype Outcome<+E> = Pass | Fail(error: E)

  /** A thrown JavaScript error: its `message`, and for an HTTP error the
      `message` field of the reply body (`error.response.data.message`). */
  datatype JsError = JsError(message: string, responseMessage: Option<string>)

  /** JavaScript truthiness of a `string | null`: present and non-empty. */
  predicate Truthy(s: Option<string>)
  {
    s.Some? && s.value != ""
  }

  /** A plain `new Error(message)`. */
  function PlainError(message: string): (e: JsError)
    ensures e.message == message && e.responseMessage.None?
  {
    JsError(message, None)
  }
}

/** `Number.prototype.toString()` on integral numbers, the way the source turns
    numeric user and employee ids into the strings it stores. */
module Decimal {
  import opened Common

  function DigitChar(d: nat): (c: char)
    requires d < 10
    ensures '0' <= c <= '9' && c as int - '0' as int == d
  {
    ('0' as int + d) as char
  }

  predicate AllDigits(s: string)
  {
    forall i :: 0 <= i < |s| ==> '0' <= s[i] <= '9'
  }

  /** Decimal digits of `n`, most significant first, without leading zeros. */
  function NatDigits(n: nat): (s: string)
    decreases n
    ensures 1 <= |s| && AllDigits(s)
    ensures s[0] == '0' <==> n == 0
    ensures n == 0 ==> s == "0"
  {
    if n < 10 then [DigitChar(n)] else NatDigits(n / 10) + [DigitChar(n % 10)]
  }

  /** The number a string of decimal digits denotes. */
  function DigitsValue(s: string): nat
    requires AllDigits(s)
  {
    if s == [] then 0
    else DigitsValue(s[..|s| - 1]) * 10 + (s[|s| - 1] as int - '0' as int)
  }

  /** `n.toString()` for an integral `n`: a minus sign for negatives. */
  function IntString(n: int): (s: string)
    ensures 1 <= |s|
    ensures s[0] == '-' <==> n < 0
  {
    if n < 0 then "-" + NatDigits(-n) else NatDigits(n)
  }

  /** Reads back what IntString writes; None when `s` is not such a string. */
  function ParseInt(s: string): (r: Option<int>)
  {
    if |s| >= 2 && s[0] == '-' && AllDigits(s[1..]) then Some(-(DigitsValue(s[1..]) as int))
    else if 1 <= |s| && AllDigits(s) then Some(DigitsValue(s))
    else None
  }

  lemma {:induction false} NatDigitsRoundTrip(n: nat)
    ensures DigitsValue(NatDigits(n)) == n
    decreases n
  {
    if n >= 10 {
      var s := NatDigits(n);
      NatDigitsRoundTrip(n / 10);
      assert s[..|s| - 1] == NatDigits(n / 10);
    }
  }

  /** A minus sign followed by digits parses as the negated digits. */
  lemma {:induction false} ParseNegative(digits: string)
    requires 1 <= |digits| && AllDigits(digits)
    ensures ParseInt("-" + digits) == Some(-(DigitsValue(digits) as int))
  {
    var s := "-" + digits;
    assert s[1..] == digits;
  }

  /** Digits without a sign parse as themselves. */
  lemma {:induction false} ParseUnsigned(digits: string)
    requires 1 <= |digits| && AllDigits(digits)
    ensures ParseInt(digits) == Some(DigitsValue(digits) as int)
  {
    assert digits[0] != '-';
  }

  /** Parsing the rendered number gives the number back. */
  lemma {:induction false} IntStringRoundTrip(n: int)
    ensures ParseInt(IntString(n)) == Some(n)
  {
    var d := NatDigits(if n < 0 then -n else n);
    NatDigitsRoundTrip(if n < 0 then -n else n);
    if n < 0 {
      assert IntString(n) == "-" + d;
      ParseNegative(d);
    } else {
      assert IntString(n) == d;
      ParseUnsigned(d);
    }
  }

  /** So distinct ids are stored as distinct strings. */
  lemma IntStringInjective(m: int, n: int)
    requires IntString(m) == IntString(n)
    ensures m == n
  {
    IntStringRoundTrip(m);
    IntStringRoundTrip(n);
  }
}
