/**
 * The authentication middleware: takes the bearer token from the `Authorization` header
 * (the `Bearer` form of section 2.1 of RFC 6750), verifies it, and hands the token's user
 * id and role on to the request. Token verification is a parameter of the model.
 */
module Authenticate {
  import opened Common
  import opened Strings

  /** The claims of a verified access token; either may be missing from the payload. */
  datatype Claims = Claims(id: Option<string>, role: Option<string>)

  /** What the middleware does: pass the request on with the claims, or answer it. */
  datatype AuthOutcome =
    | Authenticated(claims: Claims)
    | Refused(status: int, message: string, logout: bool)

  /** The header check: the prefix is wrong, or the second space-separated field (possibly empty). */
  datatype HeaderToken = BadScheme | Token(t: string)

  const Scheme := "Bearer "
  const InvalidHeaderMessage := "Authorization token is required or invalid."
  const MissingTokenMessage := "Authorization token is missing."
  const InvalidTokenMessage := "Invalid or expired token."

  /**
   * The header must be present and start with exactly "Bearer " (case-sensitive); the token
   * is then field 1 of the header split on single spaces.
   */
  function ExtractToken(header: Option<string>): (r: HeaderToken)
    ensures r == BadScheme <==> header.None? || !StartsWith(header.value, Scheme)
    ensures r.Token? ==> ' ' !in r.t
  {
    if header.None? || !StartsWith(header.value, Scheme) then BadScheme
    else
      var parts := Split(header.value, ' ');
      SchemeSplits(header.value);
      Token(parts[1])
  }

  /** A header that starts with "Bearer " splits into "Bearer" followed by the pieces after the space. */
  lemma SchemeSplits(h: string)
    requires StartsWith(h, Scheme)
    ensures Split(h, ' ') == ["Bearer"] + Split(h[|Scheme|..], ' ')
    ensures |Split(h, ' ')| >= 2
  {
    assert h == "Bearer" + [' '] + h[|Scheme|..];
    SplitAfterPiece("Bearer", h[|Scheme|..], ' ');
  }

  /**
   * A well-formed header yields its token: "Bearer " + t, with `t` free of spaces, gives `t`,
   * and so does "Bearer " + t + " " + anything, since only the second field is read.
   */
  lemma BearerTokenRoundTrip(t: string, rest: Option<string>)
    requires ' ' !in t
    ensures var header := if rest.Some? then Scheme + t + " " + rest.value else Scheme + t;
      ExtractToken(Some(header)) == Token(t)
  {
    var header := if rest.Some? then Scheme + t + " " + rest.value else Scheme + t;
    assert StartsWith(header, Scheme) by {
      assert header[..|Scheme|] == Scheme;
    }
    SchemeSplits(header);
    var tail := header[|Scheme|..];
    if rest.Some? {
      assert tail == t + [' '] + rest.value;
      SplitAfterPiece(t, rest.value, ' ');
    } else {
      assert tail == t;
      SplitWithoutSeparator(t, ' ');
    }
  }

  /** "Bearer " alone and "Bearer " followed by another space carry an empty token. */
  lemma EmptyTokens(x: string)
    ensures ExtractToken(Some(Scheme)) == Token("")
    ensures ExtractToken(Some(Scheme + " " + x)) == Token("")
  {
    BearerTokenRoundTrip("", None);
    BearerTokenRoundTrip("", Some(x));
    assert Scheme + "" + " " + x == Scheme + " " + x;
  }

  /**
   * `authenticateToken`: a missing or non-bearer header is refused with 401 and a logout
   * hint; an empty token likewise; a token that does not verify is refused with 403;
   * otherwise the request goes on with the token's claims.
   */
  function Authenticate(header: Option<string>, verify: string -> Option<Claims>): (r: AuthOutcome)
    ensures ExtractToken(header) == BadScheme ==> r == Refused(401, InvalidHeaderMessage, true)
    ensures ExtractToken(header) == Token("") ==> r == Refused(401, MissingTokenMessage, true)
    ensures r.Authenticated? <==>
      ExtractToken(header).Token? && ExtractToken(header).t != "" && verify(ExtractToken(header).t).Some?
    ensures r.Authenticated? ==> r.claims == verify(ExtractToken(header).t).value
    ensures r.Refused? && r.status == 403 ==> r == Refused(403, InvalidTokenMessage, false)
  {
    match ExtractToken(header)
    case BadScheme => Refused(401, InvalidHeaderMessage, true)
    case Token(t) =>
      if t == "" then Refused(401, MissingTokenMessage, true)
      else match verify(t)
        case None => Refused(403, InvalidTokenMessage, false)
        case Some(claims) => Authenticated(claims)
  }

  /** The request fields the middleware fills in. */
  class Request {
    var userId: Option<string>
    var role: Option<string>

    constructor ()
      ensures userId.None? && role.None?
    {
      userId := None;
      role := None;
    }

    /** Runs the middleware on this request: on success the token's id and role are copied in. */
    method AuthenticateToken(header: Option<string>, verify: string -> Option<Claims>) returns (outcome: AuthOutcome)
      modifies this
      ensures outcome == Authenticate(header, verify)
      ensures outcome.Authenticated? ==> userId == outcome.claims.id && role == outcome.claims.role
      ensures outcome.Refused? ==> userId == old(userId) && role == old(role)
    {
      outcome := Authenticate(header, verify);
      if outcome.Authenticated? {
        userId := outcome.claims.id;
        role := outcome.claims.role;
      }
    }
  }
}
