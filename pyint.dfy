/**
 * Python's `int(s)` on a string, as far as an HTTP header value can reach it.
 *
 * Header values arrive as Latin-1 text. `int` skips surrounding whitespace,
 * accepts one optional sign, then decimal digits in which single underscores may
 * separate two digits; anything else raises ValueError, modelled as `None`.
 * The reading is a left-to-right scan through the phases below.
 */
module PyInt {
  import opened Wrappers

  /**
   * The Latin-1 characters `int` skips as padding: the six ASCII whitespace
   * characters of C's `isspace`, and U+0085 and U+00A0, which `int` first turns
   * into a space. The ASCII separators U+001C to U+001F, although `str.isspace`
   * holds of them, reach the digit reader unchanged and are refused.
   */
  predicate IsSpace(c: char)
  {
    c == ' ' || c == '\t' || c == '\n' || c == '\r' || c == '\U{000B}' || c == '\U{000C}'
    || c == '\U{0085}' || c == '\U{00A0}'
  }

  predicate IsDigit(c: char)
  {
    '0' <= c <= '9'
  }

  function DigitValue(c: char): (d: nat)
    requires IsDigit(c)
    ensures d < 10
  {
    c as int - '0' as int
  }

  function DigitChar(d: nat): (c: char)
    requires d < 10
    ensures IsDigit(c) && DigitValue(c) == d
  {
    ('0' as int + d) as char
  }

  /** How far the reading has got. */
  datatype Phase =
    | Leading                                              // only whitespace so far
    | Signed(negative: bool)                               // a sign, no digit yet
    | InDigits(negative: bool, value: nat, underscore: bool) // digits read; `underscore`: the last character was '_'
    | Trailing(negative: bool, value: nat)                 // whitespace after the digits

  /** The phase after one more character; `None` where `int` rejects the text. */
  function Next(ph: Phase, c: char): Option<Phase>
  {
    match ph
    case Leading =>
      if IsSpace(c) then Some(Leading)
      else if c == '-' || c == '+' then Some(Signed(c == '-'))
      else if IsDigit(c) then Some(InDigits(false, DigitValue(c), false))
      else None
    case Signed(negative) =>
      if IsDigit(c) then Some(InDigits(negative, DigitValue(c), false)) else None
    case InDigits(negative, value, underscore) =>
      if IsDigit(c) then Some(InDigits(negative, 10 * value + DigitValue(c), false))
      else if c == '_' && !underscore then Some(InDigits(negative, value, true))
      else if IsSpace(c) && !underscore then Some(Trailing(negative, value))
      else None
    case Trailing(negative, value) =>
      if IsSpace(c) then Some(Trailing(negative, value)) else None
  }

  /** The phase after reading all of `s` from phase `ph`. */
  function Scan(s: string, ph: Phase): Option<Phase>
    decreases |s|
  {
    if s == [] then Some(ph)
    else
      match Next(ph, s[0])
      case None => None
      case Some(q) => Scan(s[1..], q)
  }

  /** The number read, once the text has ended in phase `ph`. */
  function Finish(ph: Phase): Option<int>
  {
    match ph
    case InDigits(negative, value, underscore) =>
      if underscore then None else Some(if negative then -(value as int) else value as int)
    case Trailing(negative, value) => Some(if negative then -(value as int) else value as int)
    case _ => None
  }

  /** `int(s)` for a string `s`; `None` where Python raises ValueError. */
  function ParseInt(s: string): Option<int>
  {
    match Scan(s, Leading)
    case None => None
    case Some(ph) => Finish(ph)
  }

  /** The plain decimal rendering of `n`, without sign, underscores or padding. */
  function NatToString(n: nat): (s: string)
    ensures |s| > 0 && forall i :: 0 <= i < |s| ==> IsDigit(s[i])
  {
    if n < 10 then [DigitChar(n)] else NatToString(n / 10) + [DigitChar(n % 10)]
  }

  /** The decimal rendering of `n`, with a leading '-' when it is negative. */
  function IntToString(n: int): string
  {
    if n < 0 then "-" + NatToString(-n) else NatToString(n)
  }

  /** Reading `s` and then `c` is reading `s + [c]`. */
  lemma {:induction false} ScanSnoc(s: string, c: char, ph: Phase)
    ensures Scan(s + [c], ph) == match Scan(s, ph) case None => None case Some(q) => Next(q, c)
    decreases |s|
  {
    if s == [] {
      assert [c][1..] == [];
    } else {
      assert (s + [c])[1..] == s[1..] + [c];
      match Next(ph, s[0])
      case None =>
      case Some(q) => ScanSnoc(s[1..], c, q);
    }
  }

  /** After a sign, the digits of `n` leave the reading in the digits of `n`. */
  lemma {:induction false} ScanDigits(n: nat, negative: bool)
    ensures Scan(NatToString(n), Signed(negative)) == Some(InDigits(negative, n, false))
  {
    if n >= 10 {
      ScanDigits(n / 10, negative);
      ScanSnoc(NatToString(n / 10), DigitChar(n % 10), Signed(negative));
    }
  }

  /** Every integer written in decimal reads back as itself: a Retry-After of "n" waits n seconds. */
  lemma ParseIntRoundTrip(n: int)
    ensures ParseInt(IntToString(n)) == Some(n)
  {
    var m: nat := if n < 0 then -n else n;
    var d := NatToString(m);
    ScanDigits(m, n < 0);
    if n < 0 {
      assert ("-" + d)[1..] == d;
    } else {
      // A leading digit moves `Leading` where `Signed(false)` would go.
      assert Next(Leading, d[0]) == Next(Signed(false), d[0]);
    }
  }

  /** Whitespace around the text is ignored: a padding character before it or after it changes nothing. */
  lemma PaddingIgnored(c: char, s: string)
    requires IsSpace(c)
    ensures ParseInt([c] + s) == ParseInt(s)
    ensures ParseInt(s + [c]) == ParseInt(s)
  {
    assert ([c] + s)[1..] == s;
    ScanSnoc(s, c, Leading);
  }

  /** An ASCII separator is no padding: `int` refuses it. */
  lemma SeparatorRejected()
    ensures ParseInt("\U{001F}5") == None && ParseInt("5\U{001C}") == None
  {
  }

  /** A date-form Retry-After, which HTTP allows, is not an integer to `int`. */
  lemma HttpDateRejected()
    ensures ParseInt("Wed, 21 Oct 2015 07:28:00 GMT") == None
  {
  }

  /** `int` refuses empty text, a lone sign, and a trailing or doubled underscore. */
  lemma MalformedRejected()
    ensures ParseInt("") == None && ParseInt("-") == None
    ensures ParseInt("1_") == None && ParseInt("1__0") == None
  {
  }
}
