/**
 * Query-parameter defaulting (internal/handler/helpers.go): `url.Values.Get`,
 * `strconv.Atoi` for a 64-bit `int`, and the two `getQuery…` helpers.
 */
module Query {
  import opened Wrappers

  /** `url.Values`: each key with the values in the order they appeared. */
  type Values = map<string, seq<string>>

  /** `Values.Get`: the first value, or "" when the key is absent or has none. */
  function Get(q: Values, key: string): (v: string)
    ensures key in q && |q[key]| > 0 ==> v == q[key][0]
    ensures !(key in q && |q[key]| > 0) ==> v == ""
  {
    if key in q && |q[key]| > 0 then q[key][0] else ""
  }

  const MinInt64 := -0x8000_0000_0000_0000
  const MaxInt64 := 0x7FFF_FFFF_FFFF_FFFF

  predicate IsDigit(c: char) {
    '0' <= c <= '9'
  }

  predicate AllDigits(s: string) {
    forall k | 0 <= k < |s| :: IsDigit(s[k])
  }

  function DigitValue(c: char): nat
    requires IsDigit(c)
  {
    c as int - '0' as int
  }

  function DigitChar(d: nat): (c: char)
    requires d < 10
    ensures IsDigit(c) && DigitValue(c) == d
  {
    ('0' as int + d) as char
  }

  /** The number a run of decimal digits denotes, most significant first. */
  function DigitsValue(s: string): nat
    requires AllDigits(s)
  {
    if |s| == 0 then 0 else DigitsValue(s[..|s| - 1]) * 10 + DigitValue(s[|s| - 1])
  }

  /** `strconv.Atoi`: an optional sign and at least one decimal digit, within the range of a 64-bit `int`. */
  function Atoi(s: string): (r: Option<int>)
    ensures r.Some? ==> MinInt64 <= r.value <= MaxInt64
    ensures r.Some? ==> |s| > 0
  {
    if |s| == 0 then None
    else
      var negative := s[0] == '-';
      var digits := if s[0] == '-' || s[0] == '+' then s[1..] else s;
      if |digits| == 0 || !AllDigits(digits) then None
      else
        var magnitude: int := DigitsValue(digits);
        var v := if negative then 0 - magnitude else magnitude;
        if MinInt64 <= v <= MaxInt64 then Some(v) else None
  }

  /** The shortest decimal rendering of a natural number. */
  function Digits(n: nat): (s: string)
    ensures |s| > 0 && AllDigits(s)
  {
    if n < 10 then [DigitChar(n)] else Digits(n / 10) + [DigitChar(n % 10)]
  }

  /** `strconv.Itoa`, the rendering a client uses to send a number. */
  function Itoa(n: int): (s: string)
    ensures |s| > 0
  {
    if n < 0 then "-" + Digits(-n) else Digits(n)
  }

  lemma {:induction false} DigitsRoundTrip(n: nat)
    ensures DigitsValue(Digits(n)) == n
  {
    if n >= 10 {
      DigitsRoundTrip(n / 10);
      var s := Digits(n);
      assert s[..|s| - 1] == Digits(n / 10);
    }
  }

  /** Parsing inverts rendering on the whole 64-bit range, zero and negatives included. */
  lemma AtoiItoa(n: int)
    requires MinInt64 <= n <= MaxInt64
    ensures Atoi(Itoa(n)) == Some(n)
  {
    if n < 0 {
      DigitsRoundTrip(-n);
      assert Itoa(n)[1..] == Digits(-n);
    } else {
      DigitsRoundTrip(n);
    }
  }

  /** A value with anything but an optional sign and digits does not parse. */
  lemma AtoiRejectsNonDigits(s: string, k: nat)
    requires 0 < k < |s| && !IsDigit(s[k])
    ensures Atoi(s) == None
  {
    if |s| > 0 {
      var digits := if s[0] == '-' || s[0] == '+' then s[1..] else s;
      if s[0] == '-' || s[0] == '+' {
        assert digits[k - 1] == s[k];
      } else {
        assert digits[k] == s[k];
      }
    }
  }

  /** `getQueryInt`: the parsed value, or the default when the parameter is missing, empty or not a valid integer. */
  function GetQueryInt(q: Values, key: string, default: int): (r: int)
    ensures Get(q, key) == "" ==> r == default
    ensures Atoi(Get(q, key)).None? ==> r == default
    ensures Atoi(Get(q, key)).Some? ==> r == Atoi(Get(q, key)).value
  {
    var s := Get(q, key);
    if s == "" then default
    else match Atoi(s)
      case None => default
      case Some(v) => v
  }

  /** Whatever number a client sends is read back unchanged: no clamping to a positive page or a page-size cap. */
  lemma QueryIntRoundTrip(q: Values, key: string, n: int, default: int)
    requires MinInt64 <= n <= MaxInt64
    ensures GetQueryInt(q[key := [Itoa(n)]], key, default) == n
  {
    AtoiItoa(n);
  }

  /** `getQueryString`: the value, or the default exactly when the value is empty. */
  function GetQueryString(q: Values, key: string, default: string): (r: string)
    ensures Get(q, key) == "" ==> r == default
    ensures Get(q, key) != "" ==> r == Get(q, key)
    ensures r == "" ==> default == ""
  {
    var s := Get(q, key);
    if s == "" then default else s
  }
}
