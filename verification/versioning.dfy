/** The parts of the API-versioning library that the documentation core relies
    on: the `ApiVersion` value, its text form, its parser, and the route
    constraint that pins an OData route to one version. */
module Versioning {
  import opened Wrappers

  /** An API version in its numeric `major.minor` form. */
  datatype ApiVersion = ApiVersion(major: nat, minor: nat)

  /** A route constraint as the documentation core sees it. The core tells
      apart the exact constraint type of the versioned OData path, a type
      derived from it, and everything else (including a missing constraint).
      The versioned kinds carry the version, which may be null (`None`). */
  datatype RouteConstraint =
    | VersionedODataPathRouteConstraint(apiVersion: Option<ApiVersion>)
    | DerivedVersionedODataPathRouteConstraint(apiVersion: Option<ApiVersion>)
    | OtherConstraint

  /** The cast `c as VersionedODataPathRouteConstraint` succeeds: the exact
      type or a type derived from it. */
  predicate IsVersionedODataPathRouteConstraint(c: RouteConstraint)
  {
    c.VersionedODataPathRouteConstraint? || c.DerivedVersionedODataPathRouteConstraint?
  }

  predicate IsDigit(c: char)
  {
    '0' <= c <= '9'
  }

  predicate AllDigits(s: string)
  {
    forall i :: 0 <= i < |s| ==> IsDigit(s[i])
  }

  function DigitValue(c: char): (d: nat)
    requires IsDigit(c)
    ensures d < 10
  {
    c as int - '0' as int
  }

  function DigitChar(d: nat): (c: char)
    requires d < 10
    ensures IsDigit(c) && DigitValue(c) == d
  {
    ('0' as int + d) as char
  }

  /** The decimal digits of `n`, most significant first, without leading zeros. */
  function NatToDigits(n: nat): (s: string)
    ensures |s| > 0 && AllDigits(s)
    decreases n
  {
    if n < 10 then [DigitChar(n)] else NatToDigits(n / 10) + [DigitChar(n % 10)]
  }

  /** The number a string of decimal digits denotes. */
  function DigitsToNat(s: string): nat
    requires AllDigits(s)
    decreases |s|
  {
    if s == [] then 0 else DigitsToNat(s[..|s| - 1]) * 10 + DigitValue(s[|s| - 1])
  }

  lemma {:induction false} DigitsRoundTrip(n: nat)
    ensures DigitsToNat(NatToDigits(n)) == n
    decreases n
  {
    if n >= 10 {
      var s := NatToDigits(n);
      assert s[..|s| - 1] == NatToDigits(n / 10);
      DigitsRoundTrip(n / 10);
    }
  }

  /** The position of the first `c` in `s`, or `|s|` when there is none. */
  function IndexOf(s: string, c: char): (i: nat)
    ensures i <= |s|
    ensures i < |s| ==> s[i] == c
    ensures forall j :: 0 <= j < i ==> s[j] != c
    decreases |s|
  {
    if s == [] then 0 else if s[0] == c then 0 else 1 + IndexOf(s[1..], c)
  }

  /** `ApiVersion.ToString()`: the text form `major.minor`, e.g. "2.0". */
  function ToString(v: ApiVersion): (s: string)
    ensures |s| > 0 && IsDigit(s[0]) && IsDigit(s[|s| - 1])
  {
    NatToDigits(v.major) + "." + NatToDigits(v.minor)
  }

  /** `ApiVersion.TryParse`: "M" reads as M.0 and "M.m" as M.m, where M and m
      are non-empty runs of decimal digits; anything else fails to parse and
      leaves the out-parameter at its default, null (`None`). */
  function TryParse(s: string): (r: Option<ApiVersion>)
    ensures r.Some? ==> |s| > 0 && IsDigit(s[0])
  {
    var dot := IndexOf(s, '.');
    if dot == |s| then
      if s != [] && AllDigits(s) then Some(ApiVersion(DigitsToNat(s), 0)) else None
    else
      var major, minor := s[..dot], s[dot + 1..];
      if major != [] && minor != [] && AllDigits(major) && AllDigits(minor)
      then Some(ApiVersion(DigitsToNat(major), DigitsToNat(minor)))
      else None
  }

  /** Parsing the text form of a version gives the version back. */
  lemma ToStringRoundTrip(v: ApiVersion)
    ensures TryParse(ToString(v)) == Some(v)
  {
    var major, minor := NatToDigits(v.major), NatToDigits(v.minor);
    var s := ToString(v);
    assert s[|major|] == '.';
    var dot := IndexOf(s, '.');
    assert dot == |major|;
    assert s[..dot] == major;
    assert s[dot + 1..] == minor;
    DigitsRoundTrip(v.major);
    DigitsRoundTrip(v.minor);
  }

  /** Distinct versions have distinct text forms. */
  lemma ToStringInjective(v: ApiVersion, w: ApiVersion)
    requires ToString(v) == ToString(w)
    ensures v == w
  {
    ToStringRoundTrip(v);
    ToStringRoundTrip(w);
  }
}
