/** Authorization URLs for the two providers and the `/auth/{provider}`
    handler that hands them out. The requesting user's id travels in the
    `state` parameter, which the provider echoes to the callback. */
module OAuth {
  import opened Types
  import opened Text
  import opened Uri
  import opened Upstream

  /** `https://www.pinterest.com/oauth/` and
      `https://accounts.google.com/o/oauth2/v2/auth`, as scheme, host and
      path. */
  const PinterestEndpoint := "https://" + "www.pinterest.com" + "/oauth/"
  const BloggerEndpoint := "https://" + "accounts.google.com" + "/o/oauth2/v2/auth"
  const PinterestScopes := "boards:read,boards:write,pins:read,pins:write,user_accounts:read"
  const BloggerScopes := "https://www.googleapis.com/auth/blogger"

  /** The parameters Blogger's authorization URL adds before `state`. */
  const BloggerExtra := [("access_type", "offline"), ("prompt", "consent")]

  /** A provider's client id and registered redirect URI, read from the
      environment. */
  datatype ClientConfig = ClientConfig(clientId: string, redirectUri: string)

  /** One `name=value` query piece. */
  function Param(name: string, value: string): string
  {
    name + "=" + value
  }

  /** The `name=value` pieces of a list of parameters, in order. */
  function Params(ps: seq<(string, string)>): (r: seq<string>)
    ensures |r| == |ps| && forall i :: 0 <= i < |r| ==> r[i] == Param(ps[i].0, ps[i].1)
  {
    seq(|ps|, i requires 0 <= i < |ps| => Param(ps[i].0, ps[i].1))
  }

  /** `<endpoint>?client_id=…&redirect_uri=…&response_type=code&scope=…<extra>&state=<userId>`:
      the redirect URI and the scopes percent-encoded, the user id as it is.
      Both providers' builders are this template with their own endpoint,
      scopes and extra parameters. */
  function AuthorizationUrl(endpoint: string, cfg: ClientConfig, scopes: string,
                            extra: seq<(string, string)>, userId: string): string
  {
    endpoint + "?" + Join(Params(AuthParams(cfg, scopes, extra, userId)), "&")
  }

  function AuthParams(cfg: ClientConfig, scopes: string, extra: seq<(string, string)>, userId: string): seq<(string, string)>
  {
    FixedParams(cfg, scopes) + extra + [("state", userId)]
  }

  /** The parameters both providers start with. */
  function FixedParams(cfg: ClientConfig, scopes: string): seq<(string, string)>
  {
    [("client_id", cfg.clientId),
     ("redirect_uri", EncodeUriComponent(cfg.redirectUri)),
     ("response_type", "code"),
     ("scope", EncodeUriComponent(scopes))]
  }

  /** `getPinterestAuthUrl`. */
  function PinterestAuthUrl(cfg: ClientConfig, userId: string): string
  {
    AuthorizationUrl(PinterestEndpoint, cfg, PinterestScopes, [], userId)
  }

  /** `getBloggerAuthUrl`: asks for offline access and forces the consent
      screen, so that Google returns a refresh token. */
  function BloggerAuthUrl(cfg: ClientConfig, userId: string): string
  {
    AuthorizationUrl(BloggerEndpoint, cfg, BloggerScopes, BloggerExtra, userId)
  }

  function AuthUrl(p: Provider, cfg: ClientConfig, userId: string): string
  {
    match p
    case Pinterest => PinterestAuthUrl(cfg, userId)
    case Blogger => BloggerAuthUrl(cfg, userId)
  }

  /** What `/auth/{provider}` answers: 400 without a user id, otherwise the
      authorization URL as `{ url }`. */
  datatype AuthResponse = MissingUserId | AuthorizeAt(url: string)

  function Authorize(p: Provider, cfg: ClientConfig, userId: Option<string>): (r: AuthResponse)
    ensures r.MissingUserId? <==> !Truthy(userId)
    ensures r.AuthorizeAt? ==> r.url == AuthUrl(p, cfg, userId.value)
  {
    if Truthy(userId) then AuthorizeAt(AuthUrl(p, cfg, userId.value)) else MissingUserId
  }

  lemma EncodedIsPlain(s: string)
    ensures '&' !in EncodeUriComponent(s) && '#' !in EncodeUriComponent(s)
  {
    var r := EncodeUriComponent(s);
    forall k | 0 <= k < |r| ensures r[k] != '&' && r[k] != '#' {
    }
  }

  lemma {:induction false} JoinOmits(parts: seq<string>, sep: string, c: char)
    requires c !in sep
    requires forall i :: 0 <= i < |parts| ==> c !in parts[i]
    ensures c !in Join(parts, sep)
  {
    if |parts| > 1 {
      JoinOmits(parts[1..], sep, c);
    }
  }

  lemma ParamName(name: string, value: string)
    requires '=' !in name
    ensures Before(Param(name, value), '=') == name && After(Param(name, value), '=') == value
  {
    assert Param(name, value) == name + ['='] + value;
    BeforeSplit(name, '=', value);
  }

  /** A parameter list in which no name holds `=`, `&` or `#` and no value
      holds `&` or `#`. */
  predicate PlainParams(ps: seq<(string, string)>)
  {
    forall i :: 0 <= i < |ps| ==>
      '=' !in ps[i].0 && '&' !in ps[i].0 && '#' !in ps[i].0 && '&' !in ps[i].1 && '#' !in ps[i].1
  }

  lemma {:induction false} StateIsLastParam(ps: seq<(string, string)>)
    requires |ps| >= 1 && PlainParams(ps)
    requires forall i :: 0 <= i < |ps| - 1 ==> ps[i].0 != "state"
    requires ps[|ps| - 1].0 == "state"
    ensures ValuesNamed(Params(ps), "state") == [ps[|ps| - 1].1]
  {
    ParamName(ps[0].0, ps[0].1);
    if |ps| > 1 {
      StateIsLastParam(ps[1..]);
      assert Params(ps)[1..] == Params(ps[1..]);
    }
  }

  lemma QueryOfJoin(base: string, pieces: seq<string>)
    requires '?' !in base && '#' !in base
    requires forall i :: 0 <= i < |pieces| ==> '#' !in pieces[i]
    ensures QueryOf(base + "?" + Join(pieces, "&")) == Join(pieces, "&")
  {
    var q := Join(pieces, "&");
    JoinOmits(pieces, "&", '#');
    var url := base + "?" + q;
    assert url == base + ['?'] + q;
    BeforeAbsent(url, '#');
    BeforeSplit(base, '?', q);
  }

  /** In `base?p1&…&pn` built from plain parameters of which only the last is
      named `state`, `state` has exactly one value, the last one. */
  lemma StateOfQuery(base: string, ps: seq<(string, string)>)
    requires '?' !in base && '#' !in base
    requires |ps| >= 1 && PlainParams(ps)
    requires forall i :: 0 <= i < |ps| - 1 ==> ps[i].0 != "state"
    requires ps[|ps| - 1].0 == "state"
    ensures QueryValues(base + "?" + Join(Params(ps), "&"), "state") == [ps[|ps| - 1].1]
  {
    var pieces := Params(ps);
    forall i | 0 <= i < |pieces| ensures '&' !in pieces[i] && '#' !in pieces[i] {
      assert pieces[i] == ps[i].0 + "=" + ps[i].1;
    }
    QueryOfJoin(base, pieces);
    SplitJoin(pieces, '&');
    StateIsLastParam(ps);
  }

  lemma PlainParamsAppend(a: seq<(string, string)>, b: seq<(string, string)>)
    requires PlainParams(a) && PlainParams(b)
    ensures PlainParams(a + b)
  {
    forall i | 0 <= i < |a + b|
      ensures '=' !in (a + b)[i].0 && '&' !in (a + b)[i].0 && '#' !in (a + b)[i].0 && '&' !in (a + b)[i].1 && '#' !in (a + b)[i].1
    {
      if i >= |a| {
        assert (a + b)[i] == b[i - |a|];
      } else {
        assert (a + b)[i] == a[i];
      }
    }
  }

  lemma FixedParamsPlain(cfg: ClientConfig, scopes: string)
    requires '&' !in cfg.clientId && '#' !in cfg.clientId
    ensures PlainParams(FixedParams(cfg, scopes))
    ensures forall i :: 0 <= i < |FixedParams(cfg, scopes)| ==> FixedParams(cfg, scopes)[i].0 != "state"
  {
    EncodedIsPlain(cfg.redirectUri);
    EncodedIsPlain(scopes);
    ClientIdPlain();
    RedirectUriPlain();
    ResponseTypePlain();
    ScopePlain();
  }

  lemma AuthParamsPlain(cfg: ClientConfig, scopes: string, extra: seq<(string, string)>, userId: string)
    requires PlainParams(extra) && forall i :: 0 <= i < |extra| ==> extra[i].0 != "state"
    requires '&' !in userId && '#' !in userId
    requires '&' !in cfg.clientId && '#' !in cfg.clientId
    ensures var ps := AuthParams(cfg, scopes, extra, userId);
      && |ps| >= 1 && PlainParams(ps)
      && (forall i :: 0 <= i < |ps| - 1 ==> ps[i].0 != "state")
      && ps[|ps| - 1] == ("state", userId)
  {
    var fixed := FixedParams(cfg, scopes);
    FixedParamsPlain(cfg, scopes);
    var last: seq<(string, string)> := [("state", userId)];
    assert PlainParams(last);
    PlainParamsAppend(fixed, extra);
    PlainParamsAppend(fixed + extra, last);
    var ps := fixed + extra + last;
    forall i | 0 <= i < |ps| - 1 ensures ps[i].0 != "state" {
      if i < |fixed| {
        assert ps[i] == fixed[i];
      } else {
        assert ps[i] == extra[i - |fixed|];
      }
    }
  }

  /** The user id placed in an authorization URL is the only value of its
      `state` parameter, whatever the scopes and the redirect URI. */
  lemma AuthorizationUrlState(endpoint: string, cfg: ClientConfig, scopes: string,
                              extra: seq<(string, string)>, userId: string)
    requires '?' !in endpoint && '#' !in endpoint
    requires PlainParams(extra) && forall i :: 0 <= i < |extra| ==> extra[i].0 != "state"
    requires '&' !in userId && '#' !in userId
    requires '&' !in cfg.clientId && '#' !in cfg.clientId
    ensures QueryValues(AuthorizationUrl(endpoint, cfg, scopes, extra, userId), "state") == [userId]
  {
    AuthParamsPlain(cfg, scopes, extra, userId);
    StateOfQuery(endpoint, AuthParams(cfg, scopes, extra, userId));
  }

  lemma PinterestState(cfg: ClientConfig, userId: string)
    requires '&' !in userId && '#' !in userId
    requires '&' !in cfg.clientId && '#' !in cfg.clientId
    ensures QueryValues(PinterestAuthUrl(cfg, userId), "state") == [userId]
  {
    PinterestEndpointPlain();
    AuthorizationUrlState(PinterestEndpoint, cfg, PinterestScopes, [], userId);
  }

  lemma BloggerExtraPlain()
    ensures PlainParams(BloggerExtra) && forall i :: 0 <= i < |BloggerExtra| ==> BloggerExtra[i].0 != "state"
  {
  }

  lemma BloggerState(cfg: ClientConfig, userId: string)
    requires '&' !in userId && '#' !in userId
    requires '&' !in cfg.clientId && '#' !in cfg.clientId
    ensures QueryValues(BloggerAuthUrl(cfg, userId), "state") == [userId]
  {
    BloggerExtraPlain();
    BloggerEndpointPlain();
    AuthorizationUrlState(BloggerEndpoint, cfg, BloggerScopes, BloggerExtra, userId);
  }

  /** Round trip of the `state` parameter: the user id put into either
      provider's authorization URL is the one and only value of `state` in
      that URL's query, so it is the id the callback receives back. This
      holds when neither the id nor the configured client id holds a `&` or
      a `#`; the ids the web client generates (`user_` and base-36 digits)
      never do. */
  lemma StateRoundTrip(p: Provider, cfg: ClientConfig, userId: string)
    requires '&' !in userId && '#' !in userId
    requires '&' !in cfg.clientId && '#' !in cfg.clientId
    ensures QueryValues(AuthUrl(p, cfg, userId), "state") == [userId]
  {
    match p
    case Pinterest => PinterestState(cfg, userId);
    case Blogger => BloggerState(cfg, userId);
  }

  // ------------------------------------------------------ literal helpers
  // Facts about the string literals above (which characters they lack) and
  // about concatenation; proof steps only, kept apart from the model.

  /** The fixed parameter names hold no `=`, `&` or `#`, and none of them is
      `state`; the fixed `response_type` value holds no `&` or `#`. */
  lemma ClientIdPlain()
    ensures '=' !in "client_id" && '&' !in "client_id" && '#' !in "client_id" && "client_id" != "state"
  {
  }

  lemma RedirectUriPlain()
    ensures '=' !in "redirect_uri" && '&' !in "redirect_uri" && '#' !in "redirect_uri" && "redirect_uri" != "state"
  {
  }

  lemma ResponseTypePlain()
    ensures '=' !in "response_type" && '&' !in "response_type" && '#' !in "response_type" && "response_type" != "state"
    ensures '&' !in "code" && '#' !in "code"
  {
  }

  lemma ScopePlain()
    ensures '=' !in "scope" && '&' !in "scope" && '#' !in "scope" && "scope" != "state"
  {
  }

  lemma NotInConcat3(a: string, b: string, c: string, x: char)
    requires x !in a && x !in b && x !in c
    ensures x !in a + b + c
  {
  }

  lemma SchemePlain()
    ensures '?' !in "https://" && '#' !in "https://"
  {
  }

  /** Neither endpoint holds a `?` or a fragment. */
  lemma PinterestEndpointPlain()
    ensures '?' !in PinterestEndpoint && '#' !in PinterestEndpoint
  {
    SchemePlain();
    assert '?' !in "www.pinterest.com" && '#' !in "www.pinterest.com";
    assert '?' !in "/oauth/" && '#' !in "/oauth/";
    NotInConcat3("https://", "www.pinterest.com", "/oauth/", '?');
    NotInConcat3("https://", "www.pinterest.com", "/oauth/", '#');
  }

  lemma BloggerEndpointPlain()
    ensures '?' !in BloggerEndpoint && '#' !in BloggerEndpoint
  {
    SchemePlain();
    GoogleHostPlain();
    GooglePathPlain();
    NotInConcat3("https://", "accounts.google.com", "/o/oauth2/v2/auth", '?');
    NotInConcat3("https://", "accounts.google.com", "/o/oauth2/v2/auth", '#');
  }

  lemma GoogleHostPlain()
    ensures '?' !in "accounts.google.com" && '#' !in "accounts.google.com"
  {
  }

  lemma GooglePathPlain()
    ensures '?' !in "/o/oauth2/v2/auth" && '#' !in "/o/oauth2/v2/auth"
  {
  }
}
