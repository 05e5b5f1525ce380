/**
 * String helpers shared by the PTZ wrappers: the decimal rendering used to
 * build the "profileToken_<i>" / "stream_<i>" session-map keys, the blank
 * test of Apache Commons StringUtils, and the rule that turns a camera host
 * into the URL given to the device library.
 */
module Text {

  predicate StartsWith(s: string, prefix: string) {
    |prefix| <= |s| && s[..|prefix|] == prefix
  }

  predicate EndsWith(s: string, suffix: string) {
    |suffix| <= |s| && s[|s| - |suffix|..] == suffix
  }

  /**
   * Character.isWhitespace: \t..\r, the separators \u001C..\u001F, and every
   * Unicode space, line or paragraph separator except the non-breaking ones
   * (U+00A0, U+2007, U+202F).
   */
  predicate IsWhitespace(c: char) {
    || c == ' ' || ('\t' <= c <= '\r') || ('\U{1C}' <= c <= '\U{1F}')
    || c == '\U{1680}' || ('\U{2000}' <= c <= '\U{2006}') || ('\U{2008}' <= c <= '\U{200A}')
    || c == '\U{2028}' || c == '\U{2029}' || c == '\U{205F}' || c == '\U{3000}'
  }

  /** StringUtils.isBlank: empty, or nothing but whitespace. */
  predicate IsBlank(s: string) {
    forall i :: 0 <= i < |s| ==> IsWhitespace(s[i])
  }

  function DigitChar(d: nat): (c: char)
    requires d < 10
    ensures '0' <= c <= '9'
    ensures c as int - '0' as int == d
  {
    (d + '0' as int) as char
  }

  /** The value of a digit character. */
  function DigitValue(c: char): nat {
    if '0' <= c <= '9' then c as int - '0' as int else 0
  }

  /** The number a string of decimal digits denotes, read most significant digit first. */
  function DigitsValue(s: string): nat {
    if |s| == 0 then 0 else DigitsValue(s[..|s| - 1]) * 10 + DigitValue(s[|s| - 1])
  }

  /** Integer.toString / string concatenation of a non-negative int: no leading zero except for 0 itself. */
  function Decimal(n: nat): (s: string)
    ensures |s| >= 1
    ensures n >= 10 ==> |s| >= 2
    ensures forall i :: 0 <= i < |s| ==> '0' <= s[i] <= '9'
    ensures s[0] == '0' <==> n == 0
  {
    if n < 10 then [DigitChar(n)] else Decimal(n / 10) + [DigitChar(n % 10)]
  }

  /** The rendering denotes the number rendered. */
  lemma {:induction false} DecimalValue(n: nat)
    ensures DigitsValue(Decimal(n)) == n
  {
    if n >= 10 {
      var s := Decimal(n);
      assert s[..|s| - 1] == Decimal(n / 10);
      DecimalValue(n / 10);
    }
  }

  /** Distinct indices give distinct renderings, so the session-map keys never collide. */
  lemma {:induction false} DecimalInjective(a: nat, b: nat)
    requires Decimal(a) == Decimal(b)
    ensures a == b
  {
    var sa, sb := Decimal(a), Decimal(b);
    assert sa[|sa| - 1] == sb[|sb| - 1];
    if a >= 10 && b >= 10 {
      assert Decimal(a / 10) == sa[..|sa| - 1] == sb[..|sb| - 1] == Decimal(b / 10);
      DecimalInjective(a / 10, b / 10);
    }
  }

  /** The URL rule of testCamera(OnvifCredentials): a host that already starts with "http" is used verbatim. */
  function DeviceUrl(host: string): (url: string)
    ensures StartsWith(url, "http")
    ensures EndsWith(url, host)
    ensures url == host <==> StartsWith(host, "http")
    ensures url != host ==> url == "http://" + host
  {
    if StartsWith(host, "http") then host else "http://" + host
  }

  /** Applying the rule to its own output changes nothing. */
  lemma DeviceUrlIdempotent(host: string)
    ensures DeviceUrl(DeviceUrl(host)) == DeviceUrl(host)
  {
  }

  /** A host that does not start with "http" gets exactly seven characters of scheme in front of it. */
  lemma DeviceUrlPrefixed(host: string)
    requires !StartsWith(host, "http")
    ensures |DeviceUrl(host)| == |host| + 7
    ensures DeviceUrl(host)[7..] == host
    ensures StartsWith(DeviceUrl(host), "http://")
  {
  }
}
