/**
 * The small part of Qt's behaviour that the certificate front end relies on:
 * `MapStringString::operator[]` on a const map, `QString::toAscii`,
 * `QString::toInt`, `QUrl` and the shape of `QDateTime`.
 */
module Qt {
  import opened Wrappers

  /** The daemon's `MapStringString` result. */
  type StringMap = map<string, string>

  /** A const `operator[]` lookup: a missing key reads as the empty string. */
  function Lookup(m: StringMap, key: string): string
  {
    if key in m then m[key] else ""
  }

  /** A lookup reads the stored value: a missing key reads as "", and a present key reads its entry. */
  lemma LookupReadsStoredValue(m: StringMap, key: string)
    ensures key !in m ==> Lookup(m, key) == ""
    ensures key in m ==> Lookup(m, key) == m[key]
  {
  }

  /** Writing or erasing one key leaves the lookup of every other key unchanged. */
  lemma LookupOtherKey(m: StringMap, key: string, other: string, value: string)
    requires key != other
    ensures Lookup(m[key := value], other) == Lookup(m, other)
    ensures Lookup(m - {key}, other) == Lookup(m, other)
  {
  }

  // ---------------------------------------------------------------- bytes

  newtype Byte = x: int | 0 <= x < 0x100

  /** The byte `QString::toAscii` emits for one character: Latin-1, or '?' when it has no Latin-1 code. */
  function AsciiByte(c: char): Byte
  {
    if c as int < 0x100 then c as int as Byte else '?' as int as Byte
  }

  /** `QString::toAscii` with no C-string codec installed, which makes it `toLatin1`. */
  function ToAscii(s: string): (bytes: seq<Byte>)
    ensures |bytes| == |s|
    ensures forall i :: 0 <= i < |s| ==> bytes[i] == AsciiByte(s[i])
  {
    if s == [] then [] else [AsciiByte(s[0])] + ToAscii(s[1..])
  }

  /** `QString::fromLatin1`, the decoding that undoes `ToAscii` on Latin-1 text. */
  function FromLatin1(bytes: seq<Byte>): (s: string)
    ensures |s| == |bytes|
  {
    if bytes == [] then [] else [bytes[0] as int as char] + FromLatin1(bytes[1..])
  }

  predicate IsLatin1(s: string)
  {
    forall i :: 0 <= i < |s| ==> s[i] as int < 0x100
  }

  /** Latin-1 text survives the byte copy unchanged. */
  lemma {:induction false} ToAsciiRoundTrip(s: string)
    requires IsLatin1(s)
    ensures FromLatin1(ToAscii(s)) == s
  {
    if s != [] {
      assert IsLatin1(s[1..]) by {
        forall i | 0 <= i < |s[1..]| ensures s[1..][i] as int < 0x100 {
          assert s[1..][i] == s[i + 1];
        }
      }
      ToAsciiRoundTrip(s[1..]);
      assert ToAscii(s)[1..] == ToAscii(s[1..]);
    }
  }

  // ---------------------------------------------------------------- integers

  const INT_MIN: int := -0x8000_0000
  const INT_MAX: int := 0x7FFF_FFFF

  predicate IsSpace(c: char)
  {
    c == ' ' || c == '\t' || c == '\n' || c == '\r' || c == '\U{B}' || c == '\U{C}'
  }

  function TrimLeft(s: string): (t: string)
    ensures forall i :: 0 <= i < |t| ==> t[i] in s
  {
    if s != [] && IsSpace(s[0]) then
      var t := TrimLeft(s[1..]);
      assert forall i :: 0 <= i < |t| ==> t[i] in s[1..] ==> t[i] in s;
      t
    else s
  }

  function TrimRight(s: string): (t: string)
    ensures forall i :: 0 <= i < |t| ==> t[i] in s
  {
    if s != [] && IsSpace(s[|s| - 1]) then
      var t := TrimRight(s[..|s| - 1]);
      assert forall i :: 0 <= i < |t| ==> t[i] in s[..|s| - 1] ==> t[i] in s;
      t
    else s
  }

  /** `QString::trimmed` over the ASCII white-space characters. */
  function Trim(s: string): (t: string)
    ensures forall i :: 0 <= i < |t| ==> t[i] in s
  {
    TrimRight(TrimLeft(s))
  }

  predicate IsDigit(c: char)
  {
    '0' <= c <= '9'
  }

  predicate AllDigits(s: string)
  {
    forall i :: 0 <= i < |s| ==> IsDigit(s[i])
  }

  function DigitValue(c: char): nat
    requires IsDigit(c)
  {
    c as int - '0' as int
  }

  /** The value of a run of decimal digits, most significant first. */
  function DigitsValue(s: string): nat
    requires AllDigits(s)
    decreases |s|
  {
    if s == [] then 0 else 10 * DigitsValue(s[..|s| - 1]) + DigitValue(s[|s| - 1])
  }

  /** An optional sign followed by one or more decimal digits; anything else does not parse. */
  function ParseDecimal(s: string): Option<int>
  {
    var signed := |s| > 0 && (s[0] == '-' || s[0] == '+');
    var digits := if signed then s[1..] else s;
    if digits != [] && AllDigits(digits) then
      var magnitude: int := DigitsValue(digits);
      Some(if signed && s[0] == '-' then -magnitude else magnitude)
    else
      None
  }

  /**
   * `QString::toInt` in base 10: surrounding white space is ignored, and text
   * that is not a decimal number, or whose value does not fit in an `int`,
   * yields 0.
   */
  function ToInt(s: string): (n: int)
    ensures INT_MIN <= n <= INT_MAX
  {
    match ParseDecimal(Trim(s))
    case Some(v) => if INT_MIN <= v <= INT_MAX then v else 0
    case None => 0
  }

  /** The decimal digits of a natural number, with no leading zero. */
  function NatDigits(n: nat): (s: string)
    ensures s != [] && AllDigits(s)
  {
    var last := ['0' + ((n % 10) as char)];
    if n < 10 then last else NatDigits(n / 10) + last
  }

  /** `QString::number(int)`: the decimal text of an integer. */
  function Number(n: int): string
  {
    if n < 0 then "-" + NatDigits(-n) else NatDigits(n)
  }

  lemma {:induction false} NatDigitsValue(n: nat)
    ensures DigitsValue(NatDigits(n)) == n
  {
    var s := NatDigits(n);
    if n >= 10 {
      NatDigitsValue(n / 10);
      assert s[..|s| - 1] == NatDigits(n / 10);
    }
  }

  /** Reading back the decimal text of any `int` gives that `int`. */
  lemma ToIntNumber(n: int)
    requires INT_MIN <= n <= INT_MAX
    ensures ToInt(Number(n)) == n
  {
    var s := Number(n);
    var digits := NatDigits(if n < 0 then -n else n);
    NatDigitsValue(if n < 0 then -n else n);
    assert !IsSpace(s[0]) && !IsSpace(s[|s| - 1]);
    assert TrimLeft(s) == s;
    assert Trim(s) == s;
    if n < 0 {
      assert s[1..] == digits;
    }
  }

  /** Text with no decimal digit at all, such as a missing key's "", reads as 0. */
  lemma ToIntWithoutDigits(s: string)
    requires forall i :: 0 <= i < |s| ==> !IsDigit(s[i])
    ensures ToInt(s) == 0
  {
  }

  // ---------------------------------------------------------------- URLs and dates

  /** A `QUrl`, reduced to the components the certificate uses. */
  datatype Url = Url(scheme: string, authority: Option<string>, path: string)

  /** `QUrl::toString`: the components recomposed as in section 5.3 of RFC 3986. */
  function UrlToString(u: Url): string
  {
    (if u.scheme != "" then u.scheme + ":" else "")
    + (if u.authority.Some? then "//" + u.authority.value else "")
    + u.path
  }

  /** The text of a URL ends with its path, and a URL with neither scheme nor authority is its path. */
  lemma UrlToStringEndsWithPath(u: Url)
    ensures |u.path| <= |UrlToString(u)|
    ensures UrlToString(u)[|UrlToString(u)| - |u.path|..] == u.path
    ensures u.scheme == "" && u.authority.None? ==> UrlToString(u) == u.path
  {
  }

  /** `QUrl(u.path())`: a URL that keeps only the path component of `u`. */
  function PathOnly(u: Url): (p: Url)
    ensures p.path == u.path
    ensures UrlToString(p) == u.path
  {
    Url("", None, u.path)
  }

  /** A valid `QDateTime`; the null `QDateTime` is `None`. */
  datatype DateTime = DateTime(year: int, month: int, day: int, hour: int, minute: int, second: int)

  /** `QDateTime::fromString(text, format)`, supplied by the platform. */
  type DateParser = (string, string) -> Option<DateTime>
}
