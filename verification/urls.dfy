/** The two URLs the catalog derives from a harvested service: the SOS
    GetCapabilities request and the service's page in the Helgoland API. */
module Urls {
  import opened Wrappers

  const GET_CAPABILITIES_QUERY := "service=SOS&request=GetCapabilities"

  /** `getGetCapabilitiesURL`: appends the GetCapabilities query to the
      service URL, joining with `&` when the URL already contains `?` and
      with `?` otherwise. */
  function GetCapabilitiesUrl(url: string): string {
    var separator := if '?' in url then "&" else "?";
    url + separator + GET_CAPABILITIES_QUERY
  }

  /** The request URL is the service URL, one separator and the query; the
      separator is `&` exactly when the service URL already has a `?`. */
  lemma GetCapabilitiesUrlShape(url: string)
    ensures var r := GetCapabilitiesUrl(url);
      && |r| == |url| + 1 + |GET_CAPABILITIES_QUERY|
      && r[..|url|] == url
      && (r[|url|] == '&' || r[|url|] == '?')
      && (r[|url|] == '&' <==> '?' in url)
      && r[|url| + 1..] == GET_CAPABILITIES_QUERY
  {
  }

  /** Whatever the service URL, the request URL has a query part, so a
      second application would join with `&`. */
  lemma GetCapabilitiesUrlHasQuery(url: string)
    ensures '?' in GetCapabilitiesUrl(url)
  {
    var r := GetCapabilitiesUrl(url);
    GetCapabilitiesUrlShape(url);
    if '?' in url {
      var i :| 0 <= i < |url| && url[i] == '?';
      assert r[i] == url[i];
    } else {
      assert r[|url|] == '?';
    }
  }

  /** The character of a decimal digit. */
  function DigitChar(d: nat): char
    requires d < 10
  {
    ('0' as int + d) as char
  }

  function DigitValue(c: char): Option<nat> {
    if '0' <= c <= '9' then Some((c - '0') as nat) else None
  }

  /** Decimal digits of a natural number, without leading zeros. */
  function Digits(n: nat): (r: string)
    ensures |r| > 0
    decreases n
  {
    if n < 10 then [DigitChar(n)] else Digits(n / 10) + [DigitChar(n % 10)]
  }

  /** `Long.toString`: an optional minus sign followed by the digits. */
  function LongToString(n: int): string {
    if n < 0 then "-" + Digits(-n) else Digits(n)
  }

  function ParseDigits(s: string): Option<nat>
    decreases |s|
  {
    if |s| == 0 then None
    else
      var last := DigitValue(s[|s| - 1]);
      if last.None? then None
      else if |s| == 1 then last
      else
        var front := ParseDigits(s[..|s| - 1]);
        if front.None? then None else Some(10 * front.value + last.value)
  }

  /** `Long.parseLong`. */
  function ParseLong(s: string): Option<int> {
    if |s| > 0 && s[0] == '-' then
      var m := ParseDigits(s[1..]);
      if m.Some? then var v: int := 0 - m.value; Some(v) else None
    else ParseDigits(s)
  }

  /** Every character of the rendering is a decimal digit. */
  lemma {:induction false} DigitsAreDigits(n: nat)
    ensures forall i :: 0 <= i < |Digits(n)| ==> DigitValue(Digits(n)[i]).Some?
    decreases n
  {
    if n >= 10 {
      DigitsAreDigits(n / 10);
      assert Digits(n) == Digits(n / 10) + [DigitChar(n % 10)];
    }
  }

  lemma {:induction false} DigitsRoundTrip(n: nat)
    ensures ParseDigits(Digits(n)) == Some(n)
    decreases n
  {
    var s := Digits(n);
    if n >= 10 {
      DigitsRoundTrip(n / 10);
      assert s[..|s| - 1] == Digits(n / 10);
      assert DigitValue(s[|s| - 1]) == Some(n % 10);
    } else {
      assert DigitValue(s[0]) == Some(n);
    }
  }

  /** The decimal rendering of an identifier reads back as that identifier. */
  lemma LongRoundTrip(n: int)
    ensures ParseLong(LongToString(n)) == Some(n)
  {
    var s := LongToString(n);
    if n < 0 {
      DigitsRoundTrip(-n);
      assert s[1..] == Digits(-n);
      assert ParseDigits(s[1..]) == Some(-n);
    } else {
      DigitsRoundTrip(n);
      DigitsAreDigits(n);
      assert s == Digits(n);
      assert DigitValue(s[0]).Some?;
      assert s[0] != '-';
    }
  }

  const SERVICES_PATH := "services/"

  /** `getServiceURL`: the service's resource in the Helgoland API under the
      external URL. */
  function ServiceUrl(externalUrl: string, serviceId: int): string {
    externalUrl + SERVICES_PATH + LongToString(serviceId)
  }

  /** The service URL is the external URL and `services/` followed by text
      that reads back as the service id. */
  lemma ServiceUrlShape(externalUrl: string, serviceId: int)
    ensures var r := ServiceUrl(externalUrl, serviceId);
      && |r| > |externalUrl| + |SERVICES_PATH|
      && r[..|externalUrl| + |SERVICES_PATH|] == externalUrl + SERVICES_PATH
      && ParseLong(r[|externalUrl| + |SERVICES_PATH|..]) == Some(serviceId)
  {
    var r := ServiceUrl(externalUrl, serviceId);
    LongRoundTrip(serviceId);
    assert r[|externalUrl| + |SERVICES_PATH|..] == LongToString(serviceId);
  }

  /** Different services get different API URLs. */
  lemma ServiceUrlInjective(externalUrl: string, x: int, y: int)
    requires ServiceUrl(externalUrl, x) == ServiceUrl(externalUrl, y)
    ensures x == y
  {
    ServiceUrlShape(externalUrl, x);
    ServiceUrlShape(externalUrl, y);
  }
}
