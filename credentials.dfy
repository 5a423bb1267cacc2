/** The per-user credential record and the two rules that write it: storing
    the tokens of an authorization-code exchange, and refreshing an expired
    access token before it is used. Times are milliseconds since the epoch,
    as `Date.now()` gives them. */
module Credentials {
  import opened Types
  import opened Upstream

  /** One provider's slice of the record: each field may be unset. */
  datatype ProviderTokens = ProviderTokens(accessToken: Option<string>, refreshToken: Option<string>, expiry: Option<int>)

  const NoTokens := ProviderTokens(None, None, None)

  /** The stored user document. */
  datatype UserRecord = UserRecord(
    userId: string,
    pinterest: ProviderTokens,
    blogger: ProviderTokens,
    createdAt: int,
    updatedAt: int)

  /** `new User({ userId })`: no tokens, both timestamps defaulted to now. */
  function NewUser(userId: string, now: int): (u: UserRecord)
    ensures u.userId == userId && u.pinterest == NoTokens && u.blogger == NoTokens
    ensures u.createdAt == now && u.updatedAt == now
  {
    UserRecord(userId, NoTokens, NoTokens, now, now)
  }

  function TokensOf(u: UserRecord, p: Provider): ProviderTokens
  {
    match p
    case Pinterest => u.pinterest
    case Blogger => u.blogger
  }

  function WithTokens(u: UserRecord, p: Provider, t: ProviderTokens): (r: UserRecord)
    ensures TokensOf(r, p) == t
    ensures forall q :: q != p ==> TokensOf(r, q) == TokensOf(u, q)
    ensures r.userId == u.userId && r.createdAt == u.createdAt && r.updatedAt == u.updatedAt
  {
    match p
    case Pinterest => u.(pinterest := t)
    case Blogger => u.(blogger := t)
  }

  /** `save()`: the pre-save hook stamps `updatedAt`. */
  function Saved(u: UserRecord, now: int): UserRecord
  {
    u.(updatedAt := now)
  }

  /** `new Date(Date.now() + expires_in * 1000)`. */
  function ExpiryAt(now: int, expiresIn: int): int
  {
    now + expiresIn * 1000
  }

  /** `new Date() >= tokenExpiry`. A date compared with an unset expiry is
      compared with NaN, which is false, so an unset expiry never asks for a
      refresh. */
  predicate NeedsRefresh(t: ProviderTokens, now: int)
  {
    t.expiry.Some? && now >= t.expiry.value
  }

  /** What the OAuth callback writes into the provider's slice: all three
      fields are overwritten, even with an absent refresh token. */
  function Exchanged(resp: TokenResponse, now: int): (t: ProviderTokens)
    ensures t.accessToken == resp.accessToken && t.refreshToken == resp.refreshToken
    ensures t.expiry == Some(now + resp.expiresIn * 1000)
  {
    ProviderTokens(resp.accessToken, resp.refreshToken, Some(ExpiryAt(now, resp.expiresIn)))
  }

  /** What a successful refresh writes into the provider's slice. Pinterest
      keeps the stored refresh token unless the response carries a non-empty
      one (`tokenData.refresh_token || user.pinterestRefreshToken`); Blogger
      never writes its refresh token at all. */
  function Refreshed(p: Provider, t: ProviderTokens, resp: TokenResponse, now: int): (r: ProviderTokens)
    ensures r.accessToken == resp.accessToken
    ensures r.expiry == Some(now + resp.expiresIn * 1000)
    ensures p == Blogger ==> r.refreshToken == t.refreshToken
    ensures p == Pinterest && Truthy(resp.refreshToken) ==> r.refreshToken == resp.refreshToken
    ensures p == Pinterest && !Truthy(resp.refreshToken) ==> r.refreshToken == t.refreshToken
  {
    match p
    case Pinterest => ProviderTokens(resp.accessToken, OrElse(resp.refreshToken, t.refreshToken), Some(ExpiryAt(now, resp.expiresIn)))
    case Blogger => ProviderTokens(resp.accessToken, t.refreshToken, Some(ExpiryAt(now, resp.expiresIn)))
  }

  /** The record after the callback stored an exchange for provider `p`. */
  function StoreExchange(u: UserRecord, p: Provider, resp: TokenResponse, now: int): UserRecord
  {
    Saved(WithTokens(u, p, Exchanged(resp, now)), now)
  }

  /** The record after a successful refresh for provider `p`. */
  function StoreRefresh(u: UserRecord, p: Provider, resp: TokenResponse, now: int): UserRecord
  {
    Saved(WithTokens(u, p, Refreshed(p, TokensOf(u, p), resp, now)), now)
  }

  /** `!!user.<provider>AccessToken`: what auth-status reports. It does not
      look at the expiry. */
  predicate Authorized(u: UserRecord, p: Provider)
  {
    Truthy(TokensOf(u, p).accessToken)
  }

  /** Storing an exchange or a refresh for one provider changes that
      provider's slice and `updatedAt` and nothing else: the other provider's
      tokens, the user id and `createdAt` are untouched. */
  lemma StoreTouchesOneProvider(u: UserRecord, p: Provider, resp: TokenResponse, now: int)
    ensures var e := StoreExchange(u, p, resp, now);
      && TokensOf(e, p) == Exchanged(resp, now)
      && (forall q :: q != p ==> TokensOf(e, q) == TokensOf(u, q))
      && e.userId == u.userId && e.createdAt == u.createdAt && e.updatedAt == now
    ensures var r := StoreRefresh(u, p, resp, now);
      && TokensOf(r, p) == Refreshed(p, TokensOf(u, p), resp, now)
      && (forall q :: q != p ==> TokensOf(r, q) == TokensOf(u, q))
      && r.userId == u.userId && r.createdAt == u.createdAt && r.updatedAt == now
  {
    var e := WithTokens(u, p, Exchanged(resp, now));
    var r := WithTokens(u, p, Refreshed(p, TokensOf(u, p), resp, now));
    assert forall q :: TokensOf(Saved(e, now), q) == TokensOf(e, q);
    assert forall q :: TokensOf(Saved(r, now), q) == TokensOf(r, q);
  }

  /** The refresh-token asymmetry between the providers: given the same
      stored tokens and a response that rotates the refresh token, Pinterest
      stores the new refresh token and Blogger keeps the old one. */
  lemma RefreshAsymmetry(t: ProviderTokens, resp: TokenResponse, now: int)
    requires Truthy(resp.refreshToken) && resp.refreshToken != t.refreshToken
    ensures Refreshed(Pinterest, t, resp, now).refreshToken == resp.refreshToken
    ensures Refreshed(Blogger, t, resp, now).refreshToken == t.refreshToken
    ensures Refreshed(Pinterest, t, resp, now) != Refreshed(Blogger, t, resp, now)
  {
  }

  /** A refresh that grants a positive lifetime makes the token usable at
      the instant of the refresh; the callback's exchange does the same. */
  lemma FreshAfterStore(p: Provider, t: ProviderTokens, resp: TokenResponse, now: int)
    requires resp.expiresIn > 0
    ensures !NeedsRefresh(Refreshed(p, t, resp, now), now)
    ensures !NeedsRefresh(Exchanged(resp, now), now)
  {
  }

  /** Auth status after storing tokens for `p`: the flag for `p` is whether
      the new access token is non-empty; the other flag is unchanged. */
  lemma AuthorizedAfterStore(u: UserRecord, p: Provider, resp: TokenResponse, now: int)
    ensures Authorized(StoreExchange(u, p, resp, now), p) == Truthy(resp.accessToken)
    ensures Authorized(StoreRefresh(u, p, resp, now), p) == Truthy(resp.accessToken)
    ensures forall q :: q != p ==>
      Authorized(StoreExchange(u, p, resp, now), q) == Authorized(u, q) &&
      Authorized(StoreRefresh(u, p, resp, now), q) == Authorized(u, q)
  {
    StoreTouchesOneProvider(u, p, resp, now);
  }
}
