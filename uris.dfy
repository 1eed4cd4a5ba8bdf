/**
 * URIs as the resolver sees them, and the decimal rendering of a resource id
 * (`Integer.toString`) that names an embedded resource in its URI.
 */
module Uris {
  import opened Options

  /** A URI reduced to its scheme and the scheme-specific remainder. */
  datatype Uri = Uri(scheme: string, path: string)

  /** `ContentResolver.SCHEME_ANDROID_RESOURCE`. */
  const AndroidResourceScheme: string := "android.resource"

  function DigitChar(d: nat): (c: char)
    requires d < 10
    ensures '0' <= c <= '9'
  {
    ['0', '1', '2', '3', '4', '5', '6', '7', '8', '9'][d]
  }

  function DigitValue(c: char): (d: nat)
    requires '0' <= c <= '9'
    ensures d < 10 && DigitChar(d) == c
  {
    (c as int - '0' as int) as nat
  }

  predicate AllDigits(s: string)
  {
    forall i :: 0 <= i < |s| ==> '0' <= s[i] <= '9'
  }

  /** The decimal digits of `n`, most significant first, with no leading zero. */
  function Digits(n: nat): (s: string)
    ensures |s| > 0 && AllDigits(s)
    ensures s[0] == '0' ==> n == 0
  {
    if n < 10 then [DigitChar(n)] else Digits(n / 10) + [DigitChar(n % 10)]
  }

  /** `Integer.toString(n)`: a minus sign for negative values, then the digits. */
  function DecimalString(n: int): string
  {
    if n < 0 then "-" + Digits(-n) else Digits(n)
  }

  /** The value of a string of decimal digits. */
  function DigitsValue(s: string): nat
    requires AllDigits(s)
  {
    if s == [] then 0 else 10 * DigitsValue(s[..|s| - 1]) + DigitValue(s[|s| - 1])
  }

  /** `Integer.parseInt`: an optional sign followed by at least one digit. */
  function ParseDecimal(s: string): Option<int>
  {
    if |s| > 1 && s[0] == '-' && AllDigits(s[1..]) then Some(0 - DigitsValue(s[1..]))
    else if |s| > 1 && s[0] == '+' && AllDigits(s[1..]) then Some(DigitsValue(s[1..]))
    else if |s| > 0 && AllDigits(s) then Some(DigitsValue(s))
    else None
  }

  lemma {:induction false} DigitsRoundTrip(n: nat)
    ensures DigitsValue(Digits(n)) == n
  {
    if n >= 10 {
      var s := Digits(n);
      assert s[..|s| - 1] == Digits(n / 10);
      DigitsRoundTrip(n / 10);
    }
  }

  /** Reading the decimal rendering of any integer back gives that integer. */
  lemma DecimalRoundTrip(n: int)
    ensures ParseDecimal(DecimalString(n)) == Some(n)
  {
    var s := DecimalString(n);
    if n < 0 {
      DigitsRoundTrip(-n);
      assert s[1..] == Digits(-n);
      assert |s| > 1 && s[0] == '-' && AllDigits(s[1..]);
    } else {
      DigitsRoundTrip(n);
      assert '0' <= s[0] <= '9';
    }
  }

  /**
   * The URI built for an embedded resource (`Track.java` lines 79-80):
   * the android-resource scheme with the decimal id as its path.
   */
  function ResourceUri(resourceId: int): (u: Uri)
    ensures u.scheme == AndroidResourceScheme
    ensures ParseDecimal(u.path) == Some(resourceId)
  {
    DecimalRoundTrip(resourceId);
    Uri(AndroidResourceScheme, DecimalString(resourceId))
  }

  /** Distinct resources get distinct URIs. */
  lemma ResourceUriInjective(a: int, b: int)
    requires ResourceUri(a) == ResourceUri(b)
    ensures a == b
  {
  }
}
