/**
 * The authentication middleware (sso/sso.go): where the bearer token is taken from,
 * and whether a request is refused with 401, refused with 403, or passed on with its
 * authentication data. Decoding the JWT and the remote validation round-trip are
 * given as functions from their inputs to their outcomes.
 */
module Sso {
  import opened Wrappers
  import opened Text
  import opened Frames

  /** The separator `AuthMiddleware` splits the Authorization header on. */
  const BearerSep: string := "Bearer "

  /** The middleware's configuration (`AuthParams`). */
  datatype AuthParams = AuthParams(validationURL: string, validationRequired: bool)

  /**
   * What is stored in the request context (`AuthData`). A nil Go map is `None`; reading
   * a missing key from either gives Go's zero value.
   */
  datatype AuthData = AuthData(profile: Option<Frame>, token: string, claims: Option<Frame>)
  {
    /** `PreferredUsername()`: the profile's `preferred_username` when it is a string, else "". */
    function PreferredUsername(): (u: string)
      ensures u != "" ==> profile.Some? && "preferred_username" in profile.value
                          && profile.value["preferred_username"] == Str(u)
      ensures (profile.Some? && "preferred_username" in profile.value
               && profile.value["preferred_username"].Str?) ==>
              u == profile.value["preferred_username"].s
    {
      if profile.Some? && "preferred_username" in profile.value && profile.value["preferred_username"].Str? then
        profile.value["preferred_username"].s
      else ""
    }
  }

  /** How decoding the token as a JWT ends (`jwt.ParseSigned`, then `UnsafeClaimsWithoutVerification`). */
  datatype Decoded = NotJWT | BadClaims | Claims(claims: Option<Frame>)

  /** The outcome of `validateToken`: an error, or the profile the validation service returned. */
  datatype Validation = Rejected | Validated(profile: Option<Frame>)

  /** What the middleware does with the request. */
  datatype Response = Unauthorized | Forbidden | Next(auth: AuthData)

  /** The HTTP status of a refused request. */
  function Status(r: Response): (code: int)
    requires !r.Next?
    ensures code == 401 <==> r.Unauthorized?
    ensures code == 403 <==> r.Forbidden?
  {
    if r.Unauthorized? then 401 else 403
  }

  /**
   * `strings.Split(header, "Bearer ")[1]` when there are at least two parts: the text
   * after the first separator, up to the next separator or the end.
   */
  function BearerToken(header: string): (tok: string)
    ensures !Contains(header, BearerSep) ==> tok == ""
    ensures Contains(header, BearerSep) ==>
      OccursAt(header, tok, IndexOf(header, BearerSep) + |BearerSep|)
    ensures Contains(header, BearerSep) ==>
      BearerEnds(header, IndexOf(header, BearerSep) + |BearerSep| + |tok|)
    ensures !Contains(tok, BearerSep)
  {
    IndexOfFirst(header, BearerSep);
    var i := IndexOf(header, BearerSep);
    if i < 0 then
      assert !OccursAt("", BearerSep, 0);
      ""
    else
      var rest := header[i + |BearerSep|..];
      var j := IndexOf(rest, BearerSep);
      TokenShape(header, i, j);
      if j < 0 then rest else rest[..j]
  }

  /** The token ends at position `e` of `header`: there the header ends or another separator starts. */
  predicate BearerEnds(header: string, e: int)
  {
    e == |header| || OccursAt(header, BearerSep, e)
  }

  /** The text after the separator at `i`, up to the next separator at `i + 7 + j` or the end. */
  lemma TokenShape(header: string, i: int, j: int)
    requires 0 <= i && OccursAt(header, BearerSep, i)
    requires j == IndexOf(header[i + |BearerSep|..], BearerSep)
    ensures var rest := header[i + |BearerSep|..];
      var tok := if j < 0 then rest else rest[..j];
      && OccursAt(header, tok, i + |BearerSep|)
      && BearerEnds(header, i + |BearerSep| + |tok|)
      && !Contains(tok, BearerSep)
  {
    var k := i + |BearerSep|;
    var rest := header[k..];
    var tok := if j < 0 then rest else rest[..j];
    assert header[k..][..|tok|] == tok;
    if j >= 0 {
      assert rest[j..j + |BearerSep|] == header[k + j..k + j + |BearerSep|];
    }
    NoOccurrenceInPrefix(rest, j);
  }

  /** Before the first separator there is none: `s[..j]` does not contain it. */
  lemma NoOccurrenceInPrefix(s: string, j: int)
    requires j == IndexOf(s, BearerSep) || (j < 0 && IndexOf(s, BearerSep) < 0)
    ensures !Contains(if j < 0 then s else s[..j], BearerSep)
  {
    IndexOfFirst(s, BearerSep);
    var t := if j < 0 then s else s[..j];
    forall k | 0 <= k <= |t| && OccursAt(t, BearerSep, k)
      ensures false
    {
      assert t[k..k + |BearerSep|] == s[k..k + |BearerSep|];
      assert OccursAt(s, BearerSep, k);
    }
  }

  /**
   * A header whose first separator follows some text `p` gives back what comes after it,
   * for a token without a separator of its own. Here `p` has no `B`, so the separator
   * cannot start inside it (for example `p` is "" or "Token x, ").
   */
  lemma BearerAfterText(p: string, tok: string)
    requires 'B' !in p && !Contains(tok, BearerSep)
    ensures BearerToken(p + BearerSep + tok) == tok
  {
    var h := p + BearerSep + tok;
    var k := |p| + |BearerSep|;
    assert h[|p|..k] == BearerSep;
    assert OccursAt(h, BearerSep, |p|);
    IndexOfFirst(h, BearerSep);
    forall m | 0 <= m < |p| ensures !OccursAt(h, BearerSep, m) {
      assert h[m] == p[m] != 'B';
      if m + |BearerSep| <= |h| {
        assert h[m..m + |BearerSep|][0] == h[m];
      }
    }
    assert IndexOf(h, BearerSep) == |p|;
    assert h[k..] == tok;
  }

  /** The token of a request: the bearer token, or else the `token` query parameter. */
  function RequestToken(header: string, param: string): (tok: string)
    ensures BearerToken(header) != "" ==> tok == BearerToken(header)
    ensures BearerToken(header) == "" ==> tok == param
  {
    var b := BearerToken(header);
    if b != "" then b else param
  }

  /** The `client_id` claim, when it is a string. */
  function ClientID(claims: Option<Frame>): (id: Option<string>)
    ensures id.Some? <==> claims.Some? && "client_id" in claims.value && claims.value["client_id"].Str?
    ensures id.Some? ==> claims.value["client_id"] == Str(id.value)
  {
    if claims.Some? && "client_id" in claims.value && claims.value["client_id"].Str? then
      Some(claims.value["client_id"].s)
    else None
  }

  /**
   * The handler `AuthMiddleware` wraps around `next`, for a request with Authorization
   * header `header` and `token` query parameter `param`. `decode` and `validate` stand
   * for the JWT library and the `validateToken` round-trip.
   */
  method Authenticate(p: AuthParams, header: string, param: string,
                      decode: string -> Decoded, validate: (string, string, string) -> Validation)
    returns (resp: Response)
    ensures var tok := RequestToken(header, param);
      && (!resp.Next? && Status(resp) == 401 <==> tok == "" && p.validationRequired)
      && (tok == "" && !p.validationRequired ==> resp == Next(AuthData(None, "", None)))
      && (tok != "" && !decode(tok).Claims? ==> !resp.Next? && Status(resp) == 403)
      && (tok != "" && decode(tok).Claims? && p.validationURL == "" ==>
            resp == Next(AuthData(None, tok, decode(tok).claims)))
      && (tok != "" && decode(tok).Claims? && p.validationURL != "" ==>
            var c := decode(tok).claims;
            && (ClientID(c).None? ==> !resp.Next? && Status(resp) == 403)
            && (ClientID(c).Some? ==>
                  var v := validate(p.validationURL, ClientID(c).value, tok);
                  && (v.Rejected? ==> !resp.Next? && Status(resp) == 403)
                  && (v.Validated? ==> resp == Next(AuthData(v.profile, tok, c)))))
    ensures resp.Next? ==> resp.auth.token == RequestToken(header, param)
    ensures resp.Next? && p.validationURL == "" ==> resp.auth.PreferredUsername() == ""
  {
    var token := "";
    var b := BearerToken(header);
    if b != "" {
      token := b;
    }
    if token == "" {
      token := param;
    }
    var authData := AuthData(None, token, None);
    if token == "" {
      if p.validationRequired {
        return Unauthorized;
      }
    } else {
      var d := decode(token);
      if d.NotJWT? || d.BadClaims? {
        return Forbidden;
      }
      authData := authData.(claims := d.claims);
      if p.validationURL != "" {
        var clientID := ClientID(authData.claims);
        if clientID.None? {
          return Forbidden;
        }
        var v := validate(p.validationURL, clientID.value, token);
        if v.Rejected? {
          return Forbidden;
        }
        authData := authData.(profile := v.profile);
      }
    }
    return Next(authData);
  }
}
