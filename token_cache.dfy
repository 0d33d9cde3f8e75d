/** The token cache (SbankenClient/Helpers/AccessTokenManager.swift): one optional stored
    access token and a getter that filters it against the clock. */
module TokenCache {
  import opened Wrappers

  /** Instants, in whole seconds since 1970-01-01T00:00:00Z. */
  type Time = int

  /** Foundation's `Date.distantPast` (the first instant of year 1). */
  const DistantPast: Time := -62135769600

  /** An OAuth2 access token as the client keeps it: the wire fields and the instant it was
      decoded at, from which its expiry is computed. */
  datatype AccessToken = AccessToken(accessToken: string, expiresIn: int, tokenType: string, issuedAt: Time)
  {
    function ExpiryDate(): Time {
      issuedAt + expiresIn
    }
  }

  /** The getter as written: `(stored?.expiryDate ?? distantPast) < now` guards the return of
      the stored token, so a stored token is handed out only once it has EXPIRED, and nothing
      otherwise. */
  function CachedToken(stored: Option<AccessToken>, now: Time): (r: Option<AccessToken>)
    ensures r.None? || r == stored
    ensures stored.None? ==> r.None?
    ensures r.Some? <==> stored.Some? && stored.value.ExpiryDate() < now
  {
    var expiry := if stored.Some? then stored.value.ExpiryDate() else DistantPast;
    if expiry < now then stored else None
  }

  /** The rule the client was written against: a stored token is valid while it is unexpired. */
  function ValidToken(stored: Option<AccessToken>, now: Time): (r: Option<AccessToken>)
    ensures r.None? || r == stored
    ensures r.Some? <==> stored.Some? && now < stored.value.ExpiryDate()
  {
    match stored
    case None => None
    case Some(t) => if now < t.ExpiryDate() then stored else None
  }

  /** As written, the getter and the intended rule never agree on a stored token, except at the
      one instant the token expires, when both refuse it. */
  lemma CachedTokenInvertsValidity(stored: Option<AccessToken>, now: Time)
    ensures CachedToken(stored, now).Some? ==> ValidToken(stored, now).None?
    ensures ValidToken(stored, now).Some? ==> CachedToken(stored, now).None?
    ensures CachedToken(stored, now) == ValidToken(stored, now)
        <==> stored.None? || stored.value.ExpiryDate() == now
  {
  }

  /** The token of the client's tests (`expires_in` 12345), issued at 0: as written, it is
      refused while fresh and served once stale. */
  lemma CachedTokenServesStaleToken()
    ensures var t := AccessToken("TOKEN", 12345, "TYPE", 0);
      && CachedToken(Some(t), 100) == None && ValidToken(Some(t), 100) == Some(t)
      && CachedToken(Some(t), 20000) == Some(t) && ValidToken(Some(t), 20000) == None
  {
  }

  class AccessTokenManager {
    /** `_token` */
    var storedToken: Option<AccessToken>

    constructor()
      ensures storedToken == None
    {
      storedToken := None;
    }

    /** The `token` getter, read at instant `now`. It never changes the stored token: a
        filtered-out token stays stored until the setter overwrites it. */
    function Token(now: Time): (r: Option<AccessToken>)
      reads this
      ensures r.None? || r == storedToken
      ensures r.Some? <==> storedToken.Some? && storedToken.value.ExpiryDate() < now
    {
      CachedToken(storedToken, now)
    }

    /** The `token` setter: overwrites the stored token unconditionally, nil included. */
    method SetToken(token: Option<AccessToken>)
      modifies this
      ensures storedToken == token
      ensures token.None? ==> forall now: Time :: Token(now).None?
    {
      storedToken := token;
    }
  }
}
