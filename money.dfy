/**
 * Fixed-point money with two fractional digits, as stored in the numeric(10, 2)
 * columns price, permanent_rounding_bonus and amount. Values are kept as integer
 * cents; Format and Parse model the decimal text through which the database
 * hands these columns to the handlers and takes them back.
 */
module Money {
  import opened Wrappers
  import opened Digits

  /** numeric(10, 2) holds ten significant digits, two of them after the point, so
      every value is below 10^10 cents in magnitude. */
  const CENTS_BOUND: int := 10_000_000_000

  /** Every value a numeric(10, 2) column can hold, in cents. */
  type Cents = c: int | -CENTS_BOUND < c < CENTS_BOUND

  /** The text the database produces for a numeric(10, 2) value: an optional minus
      sign, the integer part without leading zeros, a point and two digits. */
  function Format(c: Cents): (s: string)
    ensures |s| >= 4 && s[|s| - 3] == '.'
    ensures IsDigit(s[|s| - 2]) && IsDigit(s[|s| - 1])
    ensures (s[0] == '-') <==> c < 0
  {
    var a: nat := if c < 0 then -c else c;
    (if c < 0 then "-" else "") + NatToDigits(a / 100) + "." + [DigitChar(a % 100 / 10), DigitChar(a % 10)]
  }

  /** Exact reading of such a text as a number of cents (what parseFloat yields,
      without binary rounding); None for any other text. */
  function Parse(s: string): (r: Option<int>)
    ensures r.Some? ==> |s| >= 4 && s[|s| - 3] == '.'
    ensures r.Some? ==> IsDigit(s[|s| - 2]) && IsDigit(s[|s| - 1])
    ensures r.Some? ==> var start := if s[0] == '-' then 1 else 0;
      start < |s| - 3 && AllDigits(s[start..|s| - 3])
  {
    var negative := |s| > 0 && s[0] == '-';
    var body := if negative then s[1..] else s;
    if |body| >= 4 && body[|body| - 3] == '.' && AllDigits(body[..|body| - 3])
       && IsDigit(body[|body| - 2]) && IsDigit(body[|body| - 1])
    then
      assert negative ==> body[..|body| - 3] == s[1..|s| - 3];
      var magnitude := DigitsToNat(body[..|body| - 3]) * 100
                       + DigitValue(body[|body| - 2]) * 10 + DigitValue(body[|body| - 1]);
      Some(if negative then -magnitude else magnitude)
    else
      None
  }

  lemma CentsDigits(a: nat)
    ensures a / 100 * 100 + a % 100 / 10 * 10 + a % 10 == a
  {
    var q, r := a / 100, a % 100;
    assert a == q * 100 + r;
    assert r == r / 10 * 10 + r % 10;
    assert a == (q * 10 + r / 10) * 10 + r % 10;
    DivMod10(q * 10 + r / 10, r % 10);
  }

  /** The text of a nonnegative value, without sign, reads back as that value. */
  lemma {:induction false} UnsignedRoundTrip(a: nat, body: string)
    requires body == NatToDigits(a / 100) + "." + [DigitChar(a % 100 / 10), DigitChar(a % 10)]
    ensures |body| >= 4 && body[|body| - 3] == '.' && AllDigits(body[..|body| - 3])
    ensures IsDigit(body[|body| - 2]) && IsDigit(body[|body| - 1]) && IsDigit(body[0])
    ensures DigitsToNat(body[..|body| - 3]) * 100
            + DigitValue(body[|body| - 2]) * 10 + DigitValue(body[|body| - 1]) == a
  {
    var digits := NatToDigits(a / 100);
    assert body[..|body| - 3] == digits;
    DigitsRoundTrip(a / 100);
    CentsDigits(a);
  }

  /** Writing a value to its column text and reading it back loses nothing. */
  lemma FormatParseRoundTrip(c: Cents)
    ensures Parse(Format(c)) == Some(c)
  {
    var a: nat := if c < 0 then -c else c;
    var body := NatToDigits(a / 100) + "." + [DigitChar(a % 100 / 10), DigitChar(a % 10)];
    UnsignedRoundTrip(a, body);
    var s := Format(c);
    if c < 0 {
      assert s == "-" + body;
      assert s[0] == '-' && s[1..] == body;
    } else {
      assert s == body;
    }
  }
}
