/** `JWTService.ExtractToken`: splits an `Authorization` header at its first
    space, requires the scheme to be "bearer" in any letter case, and returns
    the rest unchanged. Signing and validating tokens are not part of this
    model. */
module Jwt {
  import opened Errors

  /** `strings.ToLower` on one character, for the ASCII letters. */
  function LowerAscii(c: char): (l: char)
    ensures 'A' <= c <= 'Z' ==> l as int == c as int + 32
    ensures !('A' <= c <= 'Z') ==> l == c
  {
    if 'A' <= c <= 'Z' then (c as int + 32) as char else c
  }

  function Lower(s: string): (l: string)
    ensures |l| == |s| && forall i :: 0 <= i < |s| ==> l[i] == LowerAscii(s[i])
  {
    seq(|s|, i requires 0 <= i < |s| => LowerAscii(s[i]))
  }

  /** The index of the first space, or `|s|` when there is none. */
  function FirstSpace(s: string): (i: nat)
    ensures i <= |s|
    ensures i < |s| ==> s[i] == ' '
    ensures forall k :: 0 <= k < i ==> s[k] != ' '
  {
    if s == [] then 0
    else if s[0] == ' ' then 0
    else 1 + FirstSpace(s[1..])
  }

  /** `strings.SplitN(s, " ", 2)`: the text before the first space and the text
      after it, or `None` when there is no space. */
  function SplitAtSpace(s: string): (r: Option<(string, string)>)
    ensures r.None? <==> ' ' !in s
    ensures r.Some? ==> r.value.0 + " " + r.value.1 == s && ' ' !in r.value.0
  {
    var i := FirstSpace(s);
    if i == |s| then None
    else
      assert s == s[..i] + " " + s[i + 1..];
      Some((s[..i], s[i + 1..]))
  }

  const BearerScheme: string := "bearer"

  /** `ExtractToken`: the token, or the error with an empty token. */
  function ExtractToken(header: string): (r: (string, Option<Error>))
    ensures |header| == 0 ==> r == ("", Some(Sentinel(MissingAuthHeader)))
    ensures r.1.Some? ==> r.0 == ""
    ensures r.1.Some? ==> r.1.value in {Sentinel(MissingAuthHeader), Sentinel(InvalidAuthFormat)}
    // a non-empty header that is rejected is always the format error
    ensures |header| > 0 && r.1.Some? ==> r.1.value == Sentinel(InvalidAuthFormat)
    // accepted exactly when the header is a case-variant of "bearer", a space, and the token
    ensures r.1.None? <==> |header| >= 7 && Lower(header[..6]) == BearerScheme && header[6] == ' '
    ensures r.1.None? ==> r.0 == header[7..]
  {
    if |header| == 0 then ("", Some(Sentinel(MissingAuthHeader)))
    else
      var parts := SplitAtSpace(header);
      if parts.None? || Lower(parts.value.0) != BearerScheme then ("", Some(Sentinel(InvalidAuthFormat)))
      else (parts.value.1, None)
  }

  /** A header built as "Bearer " followed by a token gives the token back,
      whatever it contains (further spaces, or nothing at all). */
  lemma BearerRoundTrip(token: string)
    ensures ExtractToken("Bearer " + token) == (token, None)
  {
  }

  /** Any letter case of the scheme is accepted. */
  lemma SchemeCaseInsensitive(scheme: string, token: string)
    requires |scheme| == 6 && Lower(scheme) == BearerScheme
    ensures ExtractToken(scheme + " " + token) == (token, None)
  {
  }

  /** A header without a space is rejected as malformed. */
  lemma NoSpaceRejected(header: string)
    requires |header| > 0 && ' ' !in header
    ensures ExtractToken(header) == ("", Some(Sentinel(InvalidAuthFormat)))
  {
  }
}
