/**
 * backend/src/middleware/auth.middleware.ts: reads a bearer token from the
 * `Authorization` header (the "Bearer" scheme of section 2.1 of RFC 6750,
 * matched as the exact, case-sensitive text "Bearer " at the start), asks
 * the identity service who the token belongs to, and attaches that user to
 * the request. The identity service is an oracle of type `Verifier`; the
 * Supabase client it is reached through is not modelled.
 */
module Auth {
  import opened Wrappers
  import opened Text
  import opened AppErrors

  const BearerPrefix: string := "Bearer "

  /** The user record the identity service returns; `email` may be absent. */
  datatype ServiceUser = ServiceUser(id: string, email: Option<string>)

  /** `supabase.auth.getUser(token)`: the user, no user, or the error it reported. */
  type Verifier = string -> Result<Option<ServiceUser>, Error>

  /** The user attached to the request. */
  datatype RequestUser = RequestUser(id: string, email: string)

  /**
   * The token: the header with its first "Bearer " removed, for a header that
   * starts with it; None for a missing or empty header or any other scheme.
   */
  function BearerToken(header: Option<string>): (r: Option<string>)
    ensures r.Some? <==> header.Some? && StartsWith(header.value, BearerPrefix)
    ensures r.Some? ==> r.value == ReplaceFirst(header.value, BearerPrefix, "")
  {
    if header.None? || header.value == "" || !StartsWith(header.value, BearerPrefix) then None
    else Some(ReplaceFirst(header.value, BearerPrefix, ""))
  }

  /** The token is exactly what follows the scheme: `header == "Bearer " + token`. */
  lemma TokenFollowsScheme(header: Option<string>)
    requires BearerToken(header).Some?
    ensures header.value == BearerPrefix + BearerToken(header).value
  {
    ReplaceLeadingPrefix(header.value, BearerPrefix, "");
    assert header.value == header.value[..|BearerPrefix|] + header.value[|BearerPrefix|..];
  }

  /** Every token is read back from the header built with it, a token that itself holds "Bearer " included. */
  lemma {:induction false} TokenRoundTrip(token: string)
    ensures BearerToken(Some(BearerPrefix + token)) == Some(token)
  {
    var h := BearerPrefix + token;
    assert h[..|BearerPrefix|] == BearerPrefix;
    assert StartsWith(h, BearerPrefix);
    assert h != "" by {
      assert |h| == |BearerPrefix| + |token|;
    }
    ReplaceLeadingPrefix(h, BearerPrefix, "");
    assert h[|BearerPrefix|..] == token;
    assert ReplaceFirst(h, BearerPrefix, "") == token by {
      assert "" + h[|BearerPrefix|..] == h[|BearerPrefix|..];
    }
    assert BearerToken(Some(h)) == Some(ReplaceFirst(h, BearerPrefix, ""));
  }

  /** The request's fields the middleware writes. */
  class Request {
    const authorization: Option<string>
    var user: Option<RequestUser>
    var accessToken: Option<string>

    constructor (authorization: Option<string>)
      ensures this.authorization == authorization && user.None? && accessToken.None?
    {
      this.authorization := authorization;
      user := None;
      accessToken := None;
    }

    /**
     * `authenticateUser`: the result is the argument given to `next` (None
     * for `next()`). A missing or non-bearer header, or a token the service
     * rejects or does not know, ends in an UnauthorizedError and leaves the
     * request as it was; otherwise the user and the token are attached.
     */
    method Authenticate(verify: Verifier) returns (next: Option<Error>)
      modifies this
      ensures BearerToken(authorization).None? ==>
        next == Some(UnauthorizedError(Some("No token provided")))
      ensures BearerToken(authorization).Some? ==>
        var answer := verify(BearerToken(authorization).value);
        (answer.Err? || answer.value.None? ==> next == Some(UnauthorizedError(Some("Invalid token"))))
        && (answer.Ok? && answer.value.Some? ==>
              next.None?
              && user == Some(RequestUser(answer.value.value.id, answer.value.value.email.GetOr("")))
              && accessToken == Some(BearerToken(authorization).value))
      ensures next.Some? ==> user == old(user) && accessToken == old(accessToken)
    {
      var token := BearerToken(authorization);
      if token.None? {
        return Some(UnauthorizedError(Some("No token provided")));
      }
      var answer := verify(token.value);
      if answer.Err? || answer.value.None? {
        return Some(UnauthorizedError(Some("Invalid token")));
      }
      var found := answer.value.value;
      user := Some(RequestUser(found.id, found.email.GetOr("")));
      accessToken := token;
      return None;
    }
  }
}
