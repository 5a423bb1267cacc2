/** The HTTP handlers that read and write the credential store: the OAuth
    callbacks, auth status, the board and blog listings, and the publish
    request that fans out to both providers. Each handler is a pure function
    from the store before the request to its response, the store after it
    and the outside requests it sends; the `App` class holds the store and
    runs the handlers step by step against those functions. */
module Server {
  import opened Types
  import opened Text
  import opened Uri
  import opened Upstream
  import opened OAuth
  import opened Credentials
  import opened Pins
  import opened BlogPosts

  /** Every record is stored under its own user id, which is never empty
      (the schema requires it). */
  predicate ValidUsers(users: map<string, UserRecord>)
  {
    forall id :: id in users ==> id != "" && users[id].userId == id
  }

  /** What a handler produced: its response, the store after it, and the
      requests it sent, in order. */
  datatype Handled<R> = Handled(response: R, users: map<string, UserRecord>, calls: seq<Call>)

  // ---------------------------------------------------------------- callback

  /** Where `/callback/{provider}` sends the browser. */
  datatype Redirect = AuthFailed(provider: Provider) | CallbackFailed(provider: Provider) | Connected(provider: Provider)

  function ProviderName(p: Provider): string
  {
    match p
    case Pinterest => "pinterest"
    case Blogger => "blogger"
  }

  /** `/?error=<p>_auth_failed`, `/?error=<p>_callback_failed`, `/?<p>=success`. */
  function RedirectUrl(r: Redirect): string
  {
    match r
    case AuthFailed(p) => "/?error=" + ProviderName(p) + "_auth_failed"
    case CallbackFailed(p) => "/?error=" + ProviderName(p) + "_callback_failed"
    case Connected(p) => "/?" + ProviderName(p) + "=success"
  }

  /** Distinct outcomes redirect to distinct URLs, so the page can tell which
      provider the callback was for and how it ended. */
  lemma {:induction false} RedirectUrlInjective(a: Redirect, b: Redirect)
    ensures RedirectUrl(a) == RedirectUrl(b) ==> a == b
  {
  }

  /** The record `findOne` returns, or the fresh one the callback creates. */
  function Existing(users: map<string, UserRecord>, id: string, now: int): UserRecord
  {
    if id in users then users[id] else NewUser(id, now)
  }

  /** `/callback/{provider}`. Without a code or a state it redirects with
      `auth_failed` and does nothing else. Otherwise it exchanges the code;
      if that fails it redirects with `callback_failed` and leaves the store
      alone. On success it writes the provider's three token fields into the
      record of the user named by `state`, creating the record when there is
      none, and touches no other record and no other provider. */
  function CallbackOutcome(users: map<string, UserRecord>, p: Provider, code: Option<string>, state: Option<string>,
                           now: int, exchange: Outcome<TokenResponse>): (h: Handled<Redirect>)
    requires ValidUsers(users)
    ensures ValidUsers(h.users)
    ensures !(Truthy(code) && Truthy(state)) ==> h == Handled(AuthFailed(p), users, [])
    ensures Truthy(code) && Truthy(state) ==> h.calls == [ExchangeCode(p, code.value)]
    ensures Truthy(code) && Truthy(state) && exchange.Err? ==> h.response == CallbackFailed(p) && h.users == users
    ensures Truthy(code) && Truthy(state) && exchange.Ok? ==>
      && h.response == Connected(p)
      && h.users.Keys == users.Keys + {state.value}
      && (forall id :: id in users && id != state.value ==> h.users[id] == users[id])
      && TokensOf(h.users[state.value], p) == Exchanged(exchange.value, now)
      && (forall q :: q != p ==> TokensOf(h.users[state.value], q) == TokensOf(Existing(users, state.value, now), q))
      && h.users[state.value].createdAt == Existing(users, state.value, now).createdAt
      && h.users[state.value].updatedAt == now
  {
    if !(Truthy(code) && Truthy(state)) then Handled(AuthFailed(p), users, [])
    else
      var calls := [ExchangeCode(p, code.value)];
      match exchange
      case Err(_) => Handled(CallbackFailed(p), users, calls)
      case Ok(resp) =>
        var id := state.value;
        var u := Existing(users, id, now);
        StoreTouchesOneProvider(u, p, resp, now);
        Handled(Connected(p), users[id := StoreExchange(u, p, resp, now)], calls)
  }

  // ------------------------------------------------------------- auth status

  datatype AuthStatus = AuthStatus(pinterest: bool, blogger: bool)

  function Flag(s: AuthStatus, p: Provider): bool
  {
    match p
    case Pinterest => s.pinterest
    case Blogger => s.blogger
  }

  /** `/api/auth-status`: both flags false without a user id or without a
      record; otherwise whether each stored access token is non-empty. */
  function StatusOf(users: map<string, UserRecord>, userId: Option<string>): (s: AuthStatus)
    ensures !Truthy(userId) || userId.value !in users ==> s == AuthStatus(false, false)
    ensures Truthy(userId) && userId.value in users ==>
      forall p :: Flag(s, p) == Authorized(users[userId.value], p)
  {
    if !Truthy(userId) || userId.value !in users then AuthStatus(false, false)
    else AuthStatus(Authorized(users[userId.value], Pinterest), Authorized(users[userId.value], Blogger))
  }

  // ----------------------------------------------------------------- refresh

  /** The result of `if (new Date() >= expiry) { refresh; save }`: the
      tokens to use from then on, whether the record was saved, the failure
      that ends the request, and the requests sent. */
  datatype Freshened = Freshened(tokens: ProviderTokens, saved: bool, failure: Option<string>, calls: seq<Call>)

  function Freshen(p: Provider, t: ProviderTokens, now: int, refresh: Outcome<TokenResponse>): (f: Freshened)
    ensures !NeedsRefresh(t, now) ==> f == Freshened(t, false, None, [])
    ensures NeedsRefresh(t, now) ==> f.calls == [RefreshToken(p, t.refreshToken)]
    ensures NeedsRefresh(t, now) && refresh.Err? ==>
      f.tokens == t && !f.saved && f.failure == Some(refresh.error.message)
    ensures NeedsRefresh(t, now) && refresh.Ok? ==>
      f.tokens == Refreshed(p, t, refresh.value, now) && f.saved && f.failure.None?
  {
    if !NeedsRefresh(t, now) then Freshened(t, false, None, [])
    else
      match refresh
      case Err(e) => Freshened(t, false, Some(e.message), [RefreshToken(p, t.refreshToken)])
      case Ok(resp) => Freshened(Refreshed(p, t, resp, now), true, None, [RefreshToken(p, t.refreshToken)])
  }

  /** Unless it fails, the refresh step leaves tokens that are usable at the
      time of the request, provided the provider grants a positive lifetime. */
  lemma FreshenLeavesUsable(p: Provider, t: ProviderTokens, now: int, refresh: Outcome<TokenResponse>)
    requires refresh.Ok? ==> refresh.value.expiresIn > 0
    ensures Freshen(p, t, now, refresh).failure.None? ==> !NeedsRefresh(Freshen(p, t, now, refresh).tokens, now)
  {
    if NeedsRefresh(t, now) && refresh.Ok? {
      FreshAfterStore(p, t, refresh.value, now);
    }
  }

  // ----------------------------------------------------------------- listing

  /** What `/api/pinterest/boards` and `/api/blogger/blogs` answer: 401, 500
      with the failure's message, or the listed items. */
  datatype ListResponse = NotAuthorized | ListFailed(message: string) | Listed(items: seq<string>)

  /** `User.findOne({ userId })`. */
  function Lookup(users: map<string, UserRecord>, userId: Option<string>): Option<UserRecord>
  {
    if userId.Some? && userId.value in users then Some(users[userId.value]) else None
  }

  predicate CanList(users: map<string, UserRecord>, p: Provider, userId: Option<string>)
  {
    Lookup(users, userId).Some? && Authorized(Lookup(users, userId).value, p)
  }

  /** The listing handler of provider `p`: 401 unless the user's record has
      a non-empty access token for `p`; then the refresh step, whose failure
      answers 500 with nothing stored; then the listing request, made with
      the access token the store holds at that point, whose failure answers
      500 while keeping a refresh already saved; `items || []` otherwise. */
  function ListOutcome(users: map<string, UserRecord>, p: Provider, userId: Option<string>, now: int,
                       refresh: Outcome<TokenResponse>, listing: Outcome<Option<seq<string>>>): (h: Handled<ListResponse>)
    requires ValidUsers(users)
    ensures ValidUsers(h.users) && h.users.Keys == users.Keys
    ensures h.response.NotAuthorized? <==> !CanList(users, p, userId)
    ensures !CanList(users, p, userId) ==> h.users == users && h.calls == []
    ensures CanList(users, p, userId) ==>
      var id := userId.value;
      var t := TokensOf(users[id], p);
      && (forall other :: other in users && other != id ==> h.users[other] == users[other])
      && (NeedsRefresh(t, now) <==> |h.calls| > 0 && h.calls[0] == RefreshToken(p, t.refreshToken))
      && (NeedsRefresh(t, now) && refresh.Ok? ==> h.users[id] == StoreRefresh(users[id], p, refresh.value, now))
      && (!(NeedsRefresh(t, now) && refresh.Ok?) ==> h.users == users)
      && (NeedsRefresh(t, now) && refresh.Err? ==> h.response == ListFailed(refresh.error.message) && |h.calls| == 1)
      && (!(NeedsRefresh(t, now) && refresh.Err?) ==>
            |h.calls| > 0 && h.calls[|h.calls| - 1] == ListCollections(p, TokensOf(h.users[id], p).accessToken))
    ensures h.response.Listed? ==> listing.Ok? && h.response.items == (if listing.value.Some? then listing.value.value else [])
    ensures CanList(users, p, userId) && !(NeedsRefresh(TokensOf(users[userId.value], p), now) && refresh.Err?) ==>
      h.calls == Freshen(p, TokensOf(users[userId.value], p), now, refresh).calls
                 + [ListCollections(p, TokensOf(h.users[userId.value], p).accessToken)]
    ensures CanList(users, p, userId) && !(NeedsRefresh(TokensOf(users[userId.value], p), now) && refresh.Err?) ==>
      h.response == match listing
        case Ok(items) => Listed(if items.Some? then items.value else [])
        case Err(e) => ListFailed(e.message)
  {
    match Lookup(users, userId)
    case None => Handled(NotAuthorized, users, [])
    case Some(u) =>
      if !Authorized(u, p) then Handled(NotAuthorized, users, [])
      else
        var id := userId.value;
        var f := Freshen(p, TokensOf(u, p), now, refresh);
        if f.failure.Some? then Handled(ListFailed(f.failure.value), users, f.calls)
        else
          var after := if f.saved then users[id := Saved(WithTokens(u, p, f.tokens), now)] else users;
          var calls := f.calls + [ListCollections(p, f.tokens.accessToken)];
          match listing
          case Err(e) => Handled(ListFailed(e.message), after, calls)
          case Ok(items) => Handled(Listed(if items.Some? then items.value else []), after, calls)
  }

  /** The listing handler refuses with 401 exactly when auth status reports
      that provider as not authorized for that user. */
  lemma ListAgreesWithStatus(users: map<string, UserRecord>, p: Provider, userId: Option<string>, now: int,
                             refresh: Outcome<TokenResponse>, listing: Outcome<Option<seq<string>>>)
    requires ValidUsers(users)
    ensures ListOutcome(users, p, userId, now, refresh, listing).response.NotAuthorized?
            <==> !Flag(StatusOf(users, userId), p)
  {
    if userId.Some? && userId.value == "" {
      assert "" !in users;
    }
  }

  // -------------------------------------------------------------------- post

  /** The multipart form of `/api/post`: its text fields, each possibly
      absent, and the uploaded files. */
  datatype PostForm = PostForm(
    userId: Option<string>,
    title: Option<string>,
    description: Option<string>,
    category: Option<string>,
    link: Option<string>,
    keywords: Option<string>,
    blogId: Option<string>,
    boardId: Option<string>,
    images: seq<Image>)

  /** What the outside services answer during one publish request: the two
      refreshes, each image upload of each side, each pin creation and the
      blog post creation. */
  datatype PostEnv = PostEnv(
    pinRefresh: Outcome<TokenResponse>,
    pinUploads: seq<Outcome<string>>,
    pins: seq<Outcome<string>>,
    blogRefresh: Outcome<TokenResponse>,
    blogUploads: seq<Outcome<string>>,
    posted: Outcome<Option<string>>)

  /** There is one answer for every per-image request. */
  predicate Fits(form: PostForm, env: PostEnv)
  {
    Covers(form.images, env.pinUploads, env.pins) && |env.blogUploads| == |form.images|
  }

  /** The required fields: a user id, a title, a description, an image. */
  predicate Complete(form: PostForm)
  {
    Truthy(form.userId) && Truthy(form.title) && Truthy(form.description) && |form.images| > 0
  }

  /** A side is attempted when the user holds its access token and the form
      names its target (the board or the blog). */
  predicate Attempts(t: ProviderTokens, target: Option<string>)
  {
    Truthy(t.accessToken) && Truthy(target)
  }

  datatype PinterestResult = PinterestResult(success: bool, urls: seq<string>, error: Option<string>)
  datatype BloggerResult = BloggerResult(success: bool, url: Option<string>, error: Option<string>)

  /** One side of the publish request: its result entry, the provider's
      tokens afterwards, whether the record was saved, and its requests. */
  datatype Branch<R> = Branch(result: R, tokens: ProviderTokens, saved: bool, calls: seq<Call>)

  /** The pin every image gets: the board, the title cut to 100 characters,
      the description cut to 500, and the link. */
  function PinJobFor(accessToken: Option<string>, form: PostForm): (job: PinJob)
    requires Complete(form) && form.boardId.Some?
    ensures job.accessToken == accessToken && job.boardId == form.boardId.value && job.link == form.link
    ensures job.title == PinTitle(form.title.value) && job.description == PinDescription(form.description.value)
    ensures |job.title| <= TitleLimit && |job.description| <= DescriptionLimit
  {
    PinJob(accessToken, form.boardId.value, PinTitle(form.title.value), PinDescription(form.description.value), form.link)
  }

  /** The Pinterest side: skipped (`success: false`, no error) unless
      attempted; otherwise the refresh step, then one pin per image until the
      first failure. The URLs of the pins created before a failure stay in
      the result. */
  function PinterestBranch(t: ProviderTokens, form: PostForm, now: int, env: PostEnv): (b: Branch<PinterestResult>)
    requires Complete(form) && Fits(form, env)
    ensures !Attempts(t, form.boardId) ==> b == Branch(PinterestResult(false, [], None), t, false, [])
    ensures Attempts(t, form.boardId) ==>
      && (b.result.success <==> b.result.error.None?)
      && b.tokens == Freshen(Pinterest, t, now, env.pinRefresh).tokens
      && b.saved == Freshen(Pinterest, t, now, env.pinRefresh).saved
    ensures Attempts(t, form.boardId) && Freshen(Pinterest, t, now, env.pinRefresh).failure.Some? ==>
      && b.result == PinterestResult(false, [], Freshen(Pinterest, t, now, env.pinRefresh).failure)
      && b.calls == Freshen(Pinterest, t, now, env.pinRefresh).calls
    ensures Attempts(t, form.boardId) && Freshen(Pinterest, t, now, env.pinRefresh).failure.None? ==>
      b.calls == Freshen(Pinterest, t, now, env.pinRefresh).calls
                 + PinsFrom(PinJobFor(b.tokens.accessToken, form), form.images, env.pinUploads, env.pins, 0).calls
    ensures b.result.success ==> |b.result.urls| == |form.images|
    ensures !b.saved ==> b.tokens == t
  {
    if !Attempts(t, form.boardId) then Branch(PinterestResult(false, [], None), t, false, [])
    else
      var f := Freshen(Pinterest, t, now, env.pinRefresh);
      if f.failure.Some? then Branch(PinterestResult(false, [], f.failure), f.tokens, f.saved, f.calls)
      else
        var o := PinsFrom(PinJobFor(f.tokens.accessToken, form), form.images, env.pinUploads, env.pins, 0);
        Branch(PinterestResult(o.error.None?, o.urls, o.error), f.tokens, f.saved, f.calls + o.calls)
  }

  /** The post the Blogger side sends: labels from `category` and keywords
      from `keywords`, each split at commas and trimmed. */
  function PostOf(form: PostForm, env: PostEnv): BlogPost
    requires Complete(form) && Fits(form, env)
  {
    PostFor(form.title.value, form.description.value, form.images, env.blogUploads,
            CommaList(form.category), CommaList(form.keywords))
  }

  /** The Blogger side: skipped unless attempted; otherwise the refresh step,
      then `createBlogPost`, whose failure is recorded by its message. */
  function BloggerBranch(t: ProviderTokens, form: PostForm, now: int, env: PostEnv): (b: Branch<BloggerResult>)
    requires Complete(form) && Fits(form, env)
    ensures !Attempts(t, form.blogId) ==> b == Branch(BloggerResult(false, None, None), t, false, [])
    ensures Attempts(t, form.blogId) ==>
      && (b.result.success <==> b.result.error.None?)
      && b.tokens == Freshen(Blogger, t, now, env.blogRefresh).tokens
      && b.saved == Freshen(Blogger, t, now, env.blogRefresh).saved
    ensures b.result.success ==> env.posted.Ok? && b.result.url == env.posted.value
    ensures !b.saved ==> b.tokens == t
  {
    if !Attempts(t, form.blogId) then Branch(BloggerResult(false, None, None), t, false, [])
    else
      var f := Freshen(Blogger, t, now, env.blogRefresh);
      if f.failure.Some? then Branch(BloggerResult(false, None, f.failure), f.tokens, f.saved, f.calls)
      else
        var calls := f.calls + BlogCalls(form.images, f.tokens.accessToken, form.blogId.value, PostOf(form, env));
        match env.posted
        case Ok(url) => Branch(BloggerResult(true, url, None), f.tokens, f.saved, calls)
        case Err(e) => Branch(BloggerResult(false, None, Some(e.message)), f.tokens, f.saved, calls)
  }

  datatype PostResponse = MissingFields | UserNotFound | Published(pinterest: PinterestResult, blogger: BloggerResult)

  /** The record after both sides: each provider's tokens as its side left
      them, saved (and so stamped) when either side refreshed. */
  function AfterPost(u: UserRecord, pb: Branch<PinterestResult>, bb: Branch<BloggerResult>, now: int): UserRecord
  {
    var v := u.(pinterest := pb.tokens, blogger := bb.tokens);
    if pb.saved || bb.saved then Saved(v, now) else v
  }

  /** Saving after the Pinterest side, then after the Blogger side, leaves
      the record `AfterPost` describes. */
  lemma SaveSteps(u: UserRecord, pb: Branch<PinterestResult>, bb: Branch<BloggerResult>, now: int)
    requires !pb.saved ==> pb.tokens == u.pinterest
    requires !bb.saved ==> bb.tokens == u.blogger
    ensures var u1 := if pb.saved then Saved(u.(pinterest := pb.tokens), now) else u;
      (if bb.saved then Saved(u1.(blogger := bb.tokens), now) else u1) == AfterPost(u, pb, bb, now)
  {
  }

  /** `/api/post`: 400 when a required field is missing and 401 when the user
      has no record, both without any request or change; otherwise the
      Pinterest side, then the Blogger side, and `{ pinterest, blogger }`.
      Only the requesting user's record can change. */
  function PostOutcome(users: map<string, UserRecord>, form: PostForm, now: int, env: PostEnv): (h: Handled<PostResponse>)
    requires ValidUsers(users) && Fits(form, env)
    ensures (h.response == MissingFields) <==> !Complete(form)
    ensures (h.response == UserNotFound) <==> Complete(form) && form.userId.value !in users
    ensures !h.response.Published? ==> h.users == users && h.calls == []
    ensures h.response.Published? ==> Complete(form) && form.userId.value in users
    ensures ValidUsers(h.users) && h.users.Keys == users.Keys
    ensures forall id :: id in users && (!h.response.Published? || id != form.userId.value) ==> h.users[id] == users[id]
    ensures h.response.Published? ==>
      var u := users[form.userId.value];
      var pb := PinterestBranch(u.pinterest, form, now, env);
      var bb := BloggerBranch(u.blogger, form, now, env);
      && h.response == Published(pb.result, bb.result)
      && h.calls == pb.calls + bb.calls
      && h.users[form.userId.value] == AfterPost(u, pb, bb, now)
  {
    if !Complete(form) then Handled(MissingFields, users, [])
    else if form.userId.value !in users then Handled(UserNotFound, users, [])
    else
      var id := form.userId.value;
      var u := users[id];
      var pb := PinterestBranch(u.pinterest, form, now, env);
      var bb := BloggerBranch(u.blogger, form, now, env);
      Handled(Published(pb.result, bb.result), users[id := AfterPost(u, pb, bb, now)], pb.calls + bb.calls)
  }

  /** The Pinterest side succeeds exactly when it is attempted, the refresh
      (if one is due) succeeds and every image's upload and pin succeed;
      then it reports one pin URL per image, in image order. */
  lemma PinterestSucceedsIff(t: ProviderTokens, form: PostForm, now: int, env: PostEnv)
    requires Complete(form) && Fits(form, env)
    ensures var b := PinterestBranch(t, form, now, env);
      b.result.success <==>
        && Attempts(t, form.boardId)
        && Freshen(Pinterest, t, now, env.pinRefresh).failure.None?
        && forall k :: 0 <= k < |form.images| ==> CreatePinResult(env.pinUploads[k], env.pins[k]).Created?
    ensures var b := PinterestBranch(t, form, now, env);
      b.result.success ==>
        forall k :: 0 <= k < |form.images| ==> Created(b.result.urls[k]) == CreatePinResult(env.pinUploads[k], env.pins[k])
    ensures var b := PinterestBranch(t, form, now, env);
      Attempts(t, form.boardId) && Freshen(Pinterest, t, now, env.pinRefresh).failure.None? && !b.result.success ==>
        && |b.result.urls| < |form.images|
        && (forall k :: 0 <= k < |b.result.urls| ==> Created(b.result.urls[k]) == CreatePinResult(env.pinUploads[k], env.pins[k]))
        && CreatePinResult(env.pinUploads[|b.result.urls|], env.pins[|b.result.urls|]) == Failed(b.result.error.value)
    ensures var b := PinterestBranch(t, form, now, env);
      Attempts(t, form.boardId) && Freshen(Pinterest, t, now, env.pinRefresh).failure.None? ==>
        b.calls == Freshen(Pinterest, t, now, env.pinRefresh).calls
                   + PinCallsFrom(PinJobFor(b.tokens.accessToken, form), form.images, env.pinUploads, 0,
                                  |b.result.urls| + if b.result.error.Some? then 1 else 0)
  {
    if Attempts(t, form.boardId) {
      var f := Freshen(Pinterest, t, now, env.pinRefresh);
      if f.failure.None? {
        var job := PinJobFor(f.tokens.accessToken, form);
        PinsFromCalls(job, form.images, env.pinUploads, env.pins, 0);
        PinsSucceedIffAllCreated(job, form.images, env.pinUploads, env.pins);
        var o := PinsFrom(job, form.images, env.pinUploads, env.pins, 0);
        if o.error.None? {
          forall k | 0 <= k < |form.images|
            ensures Created(o.urls[k]) == CreatePinResult(env.pinUploads[k], env.pins[k])
          {
            assert CreatePinResult(env.pinUploads[0 + k], env.pins[0 + k]) == Created(o.urls[k]);
          }
        } else {
          forall k | 0 <= k < |o.urls|
            ensures Created(o.urls[k]) == CreatePinResult(env.pinUploads[k], env.pins[k])
          {
            assert CreatePinResult(env.pinUploads[0 + k], env.pins[0 + k]) == Created(o.urls[k]);
          }
          assert CreatePinResult(env.pinUploads[0 + |o.urls|], env.pins[0 + |o.urls|]) == Failed(o.error.value);
        }
      }
    }
  }
  /** The Blogger side succeeds exactly when it is attempted, the refresh
      (if one is due) succeeds and the post is created; then it reports the
      post's URL. A failed refresh ends it with the refresh's message and no
      further request; otherwise it sends one upload per image and the post
      built from the form, with the access token the refresh step left, and
      a failed post ends it with the post's message. */
  lemma BloggerSucceedsIff(t: ProviderTokens, form: PostForm, now: int, env: PostEnv)
    requires Complete(form) && Fits(form, env)
    ensures var b := BloggerBranch(t, form, now, env);
      b.result.success <==>
        && Attempts(t, form.blogId)
        && !(NeedsRefresh(t, now) && env.blogRefresh.Err?)
        && env.posted.Ok?
    ensures var b := BloggerBranch(t, form, now, env);
      b.result.success ==> b.result == BloggerResult(true, env.posted.value, None)
    ensures var b := BloggerBranch(t, form, now, env);
      Attempts(t, form.blogId) && NeedsRefresh(t, now) && env.blogRefresh.Err? ==>
        && b.result == BloggerResult(false, None, Some(env.blogRefresh.error.message))
        && b.calls == [RefreshToken(Blogger, t.refreshToken)]
    ensures var b := BloggerBranch(t, form, now, env);
      Attempts(t, form.blogId) && !(NeedsRefresh(t, now) && env.blogRefresh.Err?) ==>
        && b.calls == Freshen(Blogger, t, now, env.blogRefresh).calls
                      + BlogCalls(form.images, b.tokens.accessToken, form.blogId.value, PostOf(form, env))
        && (env.posted.Err? ==> b.result == BloggerResult(false, None, Some(env.posted.error.message)))
  {
  }


  /** No request in `calls` creates a pin. */
  predicate NoPinCalls(calls: seq<Call>)
  {
    forall k :: 0 <= k < |calls| ==> !calls[k].CreatePin?
  }

  lemma NoPinCallsAppend(a: seq<Call>, b: seq<Call>)
    requires NoPinCalls(a) && NoPinCalls(b)
    ensures NoPinCalls(a + b)
  {
    forall k | 0 <= k < |a + b| ensures !(a + b)[k].CreatePin? {
      if k >= |a| {
        assert (a + b)[k] == b[k - |a|];
      }
    }
  }

  lemma CarriesJobAppend(job: PinJob, a: seq<Call>, b: seq<Call>)
    requires CarriesJob(job, a) && CarriesJob(job, b)
    ensures CarriesJob(job, a + b)
  {
    forall k | 0 <= k < |a + b| && (a + b)[k].CreatePin?
      ensures (a + b)[k].accessToken == job.accessToken && (a + b)[k].pin == PinFor(job, (a + b)[k].pin.imageUrl)
    {
      if k >= |a| {
        assert (a + b)[k] == b[k - |a|];
      } else {
        assert (a + b)[k] == a[k];
      }
    }
  }

  lemma BlogCallsNoPins(images: seq<Image>, accessToken: Option<string>, blogId: string, post: BlogPost)
    ensures NoPinCalls(BlogCalls(images, accessToken, blogId, post))
  {
  }

  /** The Blogger side never creates a pin. */
  lemma BloggerSendsNoPins(t: ProviderTokens, form: PostForm, now: int, env: PostEnv)
    requires Complete(form) && Fits(form, env)
    ensures NoPinCalls(BloggerBranch(t, form, now, env).calls)
  {
    if Attempts(t, form.blogId) {
      var f := Freshen(Blogger, t, now, env.blogRefresh);
      if f.failure.None? {
        var bc := BlogCalls(form.images, f.tokens.accessToken, form.blogId.value, PostOf(form, env));
        BlogCallsNoPins(form.images, f.tokens.accessToken, form.blogId.value, PostOf(form, env));
        NoPinCallsAppend(f.calls, bc);
      }
    }
  }

  /** The Pinterest side's pin requests all carry the job built from the
      tokens it leaves; when it does not reach the pin loop it sends none. */
  lemma PinterestSendsJob(t: ProviderTokens, form: PostForm, now: int, env: PostEnv)
    requires Complete(form) && Fits(form, env)
    ensures var b := PinterestBranch(t, form, now, env);
      if Attempts(t, form.boardId) && Freshen(Pinterest, t, now, env.pinRefresh).failure.None?
      then CarriesJob(PinJobFor(b.tokens.accessToken, form), b.calls)
      else NoPinCalls(b.calls)
  {
    if Attempts(t, form.boardId) {
      var f := Freshen(Pinterest, t, now, env.pinRefresh);
      if f.failure.None? {
        var job := PinJobFor(f.tokens.accessToken, form);
        PinCallsCarryJob(job, form.images, env.pinUploads, env.pins, 0);
        assert CarriesJob(job, f.calls);
        CarriesJobAppend(job, f.calls, PinsFrom(job, form.images, env.pinUploads, env.pins, 0).calls);
      }
    }
  }

  /** A pin request carrying `accessToken`, the form's board and link, the
      form's title cut to 100 characters and its description cut to 500
      (so a title of at most 100 characters and a description of at most
      500). */
  predicate PinWithinLimits(c: Call, accessToken: Option<string>, form: PostForm)
    requires c.CreatePin? && Complete(form)
  {
    && c.accessToken == accessToken
    && form.boardId == Some(c.pin.boardId)
    && c.pin.link == (if Truthy(form.link) then form.link else None)
    && c.pin.title == PinTitle(form.title.value)
    && c.pin.description == PinDescription(form.description.value)
    && |c.pin.title| <= TitleLimit
    && |c.pin.description| <= DescriptionLimit
  }

  /** Every pin request of a publish request carries the user's Pinterest
      access token as the store holds it after the refresh step, the form's
      board and link, a title of at most 100 characters and a description of
      at most 500; the Blogger side sends no pin request. */
  lemma PinRequestsWithinLimits(users: map<string, UserRecord>, form: PostForm, now: int, env: PostEnv)
    requires ValidUsers(users) && Fits(form, env)
    ensures var h := PostOutcome(users, form, now, env);
      forall k :: 0 <= k < |h.calls| && h.calls[k].CreatePin? ==>
        && h.response.Published?
        && PinWithinLimits(h.calls[k], TokensOf(h.users[form.userId.value], Pinterest).accessToken, form)
  {
    var h := PostOutcome(users, form, now, env);
    if h.response.Published? {
      var id := form.userId.value;
      var u := users[id];
      var pb := PinterestBranch(u.pinterest, form, now, env);
      var bb := BloggerBranch(u.blogger, form, now, env);
      assert h.calls == pb.calls + bb.calls;
      assert TokensOf(h.users[id], Pinterest) == pb.tokens;
      BloggerSendsNoPins(u.blogger, form, now, env);
      PinterestSendsJob(u.pinterest, form, now, env);
      if Attempts(u.pinterest, form.boardId) && Freshen(Pinterest, u.pinterest, now, env.pinRefresh).failure.None? {
        var job := PinJobFor(pb.tokens.accessToken, form);
        CarriesJobAppend(job, pb.calls, bb.calls);
        forall k | 0 <= k < |h.calls| && h.calls[k].CreatePin?
          ensures h.calls[k].pin == PinFor(job, h.calls[k].pin.imageUrl)
        {
        }
      } else {
        NoPinCallsAppend(pb.calls, bb.calls);
      }
    }
  }

  /** The two sides do not affect each other: the Pinterest entry depends
      only on the stored Pinterest tokens and the Pinterest services'
      answers, the Blogger entry only on the Blogger ones. */
  lemma SidesIndependent(users: map<string, UserRecord>, users': map<string, UserRecord>, form: PostForm, now: int,
                         env: PostEnv, env': PostEnv)
    requires ValidUsers(users) && ValidUsers(users') && Fits(form, env) && Fits(form, env')
    requires Complete(form) && form.userId.value in users && form.userId.value in users'
    ensures var id := form.userId.value;
      users[id].pinterest == users'[id].pinterest
        && env.pinRefresh == env'.pinRefresh && env.pinUploads == env'.pinUploads && env.pins == env'.pins
      ==> PostOutcome(users, form, now, env).response.pinterest == PostOutcome(users', form, now, env').response.pinterest
    ensures var id := form.userId.value;
      users[id].blogger == users'[id].blogger
        && env.blogRefresh == env'.blogRefresh && env.blogUploads == env'.blogUploads && env.posted == env'.posted
      ==> PostOutcome(users, form, now, env).response.blogger == PostOutcome(users', form, now, env').response.blogger
  {
    var id := form.userId.value;
    if env.blogUploads == env'.blogUploads {
      assert PostOf(form, env) == PostOf(form, env');
    }
  }

  /** A published request changes the user's record only through the
      refresh steps: each provider's tokens become what its side's refresh
      left (unchanged when none was due or it failed); the id and creation
      time never change. */
  lemma PostKeepsTokensUnlessRefreshed(users: map<string, UserRecord>, form: PostForm, now: int, env: PostEnv)
    requires ValidUsers(users) && Fits(form, env) && Complete(form) && form.userId.value in users
    ensures var id := form.userId.value;
      var u := users[id];
      var after := PostOutcome(users, form, now, env).users[id];
      && after.userId == u.userId && after.createdAt == u.createdAt
      && (!Attempts(u.pinterest, form.boardId) ==> after.pinterest == u.pinterest)
      && (Attempts(u.pinterest, form.boardId) ==> after.pinterest == Freshen(Pinterest, u.pinterest, now, env.pinRefresh).tokens)
      && (!Attempts(u.blogger, form.blogId) ==> after.blogger == u.blogger)
      && (Attempts(u.blogger, form.blogId) ==> after.blogger == Freshen(Blogger, u.blogger, now, env.blogRefresh).tokens)
    ensures var u := users[form.userId.value];
      (!Attempts(u.pinterest, form.boardId) || !NeedsRefresh(u.pinterest, now)) &&
      (!Attempts(u.blogger, form.blogId) || !NeedsRefresh(u.blogger, now))
      ==> PostOutcome(users, form, now, env).users == users
  {
    var id := form.userId.value;
    var u := users[id];
    var pb := PinterestBranch(u.pinterest, form, now, env);
    var bb := BloggerBranch(u.blogger, form, now, env);
    assert PostOutcome(users, form, now, env).users == users[id := AfterPost(u, pb, bb, now)];
    if (!Attempts(u.pinterest, form.boardId) || !NeedsRefresh(u.pinterest, now)) &&
       (!Attempts(u.blogger, form.blogId) || !NeedsRefresh(u.blogger, now)) {
      assert AfterPost(u, pb, bb, now) == u;
      UpdateSame(users, id);
    }
  }

  // ------------------------------------------------------------ composition

  /** A successful callback leaves the provider reported as authorized
      exactly when the exchange returned a non-empty access token, and does
      not change what is reported for the other provider of an existing
      user. */
  lemma CallbackThenStatus(users: map<string, UserRecord>, p: Provider, code: string, id: string, now: int,
                           resp: TokenResponse)
    requires ValidUsers(users) && code != "" && id != ""
    ensures var after := CallbackOutcome(users, p, Some(code), Some(id), now, Ok(resp)).users;
      && Flag(StatusOf(after, Some(id)), p) == Truthy(resp.accessToken)
      && forall q :: q != p ==> Flag(StatusOf(after, Some(id)), q) == (id in users && Authorized(users[id], q))
  {
    var after := CallbackOutcome(users, p, Some(code), Some(id), now, Ok(resp)).users;
    forall q | q != p ensures Flag(StatusOf(after, Some(id)), q) == (id in users && Authorized(users[id], q)) {
      assert TokensOf(after[id], q) == TokensOf(Existing(users, id, now), q);
    }
  }

  /** The authorization round trip: the user id handed out in either
      provider's authorization URL is the only `state` value that URL
      carries, and the callback that receives it back with a code and a
      successful exchange stores the exchanged tokens in that user's record. */
  lemma AuthorizeThenCallback(users: map<string, UserRecord>, p: Provider, cfg: ClientConfig, id: string,
                              code: string, now: int, resp: TokenResponse)
    requires ValidUsers(users) && id != "" && code != ""
    requires '&' !in id && '#' !in id && '&' !in cfg.clientId && '#' !in cfg.clientId
    ensures Authorize(p, cfg, Some(id)).AuthorizeAt?
    ensures var states := QueryValues(Authorize(p, cfg, Some(id)).url, "state");
      && states == [id]
      && var h := CallbackOutcome(users, p, Some(code), Some(states[0]), now, Ok(resp));
         h.response == Connected(p) && TokensOf(h.users[id], p) == Exchanged(resp, now)
  {
    var r := Authorize(p, cfg, Some(id));
    assert r == AuthorizeAt(AuthUrl(p, cfg, id));
    StateRoundTrip(p, cfg, id);
    var states := QueryValues(r.url, "state");
    assert states[0] == id;
    var h := CallbackOutcome(users, p, Some(code), Some(id), now, Ok(resp));
    assert h.response == Connected(p) && TokensOf(h.users[id], p) == Exchanged(resp, now);
  }

  // ------------------------------------------------------------------ server

  /** The side of the Pinterest branch that runs the pin loop. */
  method PublishPins(t: ProviderTokens, form: PostForm, now: int, env: PostEnv) returns (b: Branch<PinterestResult>)
    requires Complete(form) && Fits(form, env)
    ensures b == PinterestBranch(t, form, now, env)
  {
    if !Attempts(t, form.boardId) {
      return Branch(PinterestResult(false, [], None), t, false, []);
    }
    var f := Freshen(Pinterest, t, now, env.pinRefresh);
    if f.failure.Some? {
      return Branch(PinterestResult(false, [], f.failure), f.tokens, f.saved, f.calls);
    }
    var job := PinJobFor(f.tokens.accessToken, form);
    var urls, error, pinCalls := PinEachImage(job, form.images, env.pinUploads, env.pins);
    b := Branch(PinterestResult(error.None?, urls, error), f.tokens, f.saved, f.calls + pinCalls);
  }

  /** The Blogger branch: the refresh step, then `createBlogPost`. */
  method PublishPost(t: ProviderTokens, form: PostForm, now: int, env: PostEnv) returns (b: Branch<BloggerResult>)
    requires Complete(form) && Fits(form, env)
    ensures b == BloggerBranch(t, form, now, env)
  {
    if !Attempts(t, form.blogId) {
      return Branch(BloggerResult(false, None, None), t, false, []);
    }
    var f := Freshen(Blogger, t, now, env.blogRefresh);
    if f.failure.Some? {
      return Branch(BloggerResult(false, None, f.failure), f.tokens, f.saved, f.calls);
    }
    var labels := CommaList(form.category);
    var keywordList := CommaList(form.keywords);
    var result, postCalls := CreateBlogPost(f.tokens.accessToken, form.blogId.value, form.title.value,
                                            form.description.value, form.images, labels, keywordList,
                                            env.blogUploads, env.posted);
    match result
    case Ok(url) => b := Branch(BloggerResult(true, url, None), f.tokens, f.saved, f.calls + postCalls);
    case Err(e) => b := Branch(BloggerResult(false, None, Some(e.message)), f.tokens, f.saved, f.calls + postCalls);
  }

  /** The server's view of the user collection, keyed by user id. */
  class App {
    var users: map<string, UserRecord>

    ghost predicate Valid()
      reads this
    {
      ValidUsers(users)
    }

    constructor ()
      ensures Valid() && users == map[]
    {
      users := map[];
    }

    /** `/callback/{provider}`; `location` is the URL handed to `res.redirect`. */
    method Callback(p: Provider, code: Option<string>, state: Option<string>, now: int, exchange: Outcome<TokenResponse>)
      returns (redirect: Redirect, location: string, calls: seq<Call>)
      requires Valid()
      modifies this
      ensures Valid()
      ensures Handled(redirect, users, calls) == CallbackOutcome(old(users), p, code, state, now, exchange)
      ensures location == RedirectUrl(redirect)
    {
      if !Truthy(code) || !Truthy(state) {
        return AuthFailed(p), RedirectUrl(AuthFailed(p)), [];
      }
      calls := [ExchangeCode(p, code.value)];
      if exchange.Err? {
        return CallbackFailed(p), RedirectUrl(CallbackFailed(p)), calls;
      }
      var tokenData := exchange.value;
      var userId := state.value;
      var user := if userId in users then users[userId] else NewUser(userId, now);
      user := WithTokens(user, p, Exchanged(tokenData, now));
      users := users[userId := Saved(user, now)];
      redirect := Connected(p);
      location := RedirectUrl(redirect);
    }

    /** `/api/auth-status`. */
    method Status(userId: Option<string>) returns (s: AuthStatus)
      ensures s == StatusOf(users, userId)
    {
      if !Truthy(userId) {
        return AuthStatus(false, false);
      }
      if userId.value !in users {
        return AuthStatus(false, false);
      }
      var user := users[userId.value];
      s := AuthStatus(Truthy(user.pinterest.accessToken), Truthy(user.blogger.accessToken));
    }

    /** `/api/pinterest/boards` and `/api/blogger/blogs`. */
    method List(p: Provider, userId: Option<string>, now: int, refresh: Outcome<TokenResponse>,
                listing: Outcome<Option<seq<string>>>)
      returns (response: ListResponse, calls: seq<Call>)
      requires Valid()
      modifies this
      ensures Valid()
      ensures Handled(response, users, calls) == ListOutcome(old(users), p, userId, now, refresh, listing)
    {
      if userId.None? || userId.value !in users {
        return NotAuthorized, [];
      }
      var id := userId.value;
      var user := users[id];
      if !Truthy(TokensOf(user, p).accessToken) {
        return NotAuthorized, [];
      }
      calls := [];
      var t := TokensOf(user, p);
      ghost var f := Freshen(p, t, now, refresh);
      if NeedsRefresh(t, now) {
        calls := calls + [RefreshToken(p, t.refreshToken)];
        if refresh.Err? {
          return ListFailed(refresh.error.message), calls;
        }
        user := Saved(WithTokens(user, p, Refreshed(p, t, refresh.value, now)), now);
        users := users[id := user];
      }
      assert calls == f.calls && TokensOf(user, p) == f.tokens;
      calls := calls + [ListCollections(p, TokensOf(user, p).accessToken)];
      match listing
      case Err(e) => response := ListFailed(e.message);
      case Ok(items) => response := Listed(if items.Some? then items.value else []);
    }

    /** `/api/post`. */
    method Post(form: PostForm, now: int, env: PostEnv) returns (response: PostResponse, calls: seq<Call>)
      requires Valid() && Fits(form, env)
      modifies this
      ensures Valid()
      ensures Handled(response, users, calls) == PostOutcome(old(users), form, now, env)
    {
      if !Complete(form) {
        return MissingFields, [];
      }
      var id := form.userId.value;
      if id !in users {
        return UserNotFound, [];
      }
      var user := users[id];
      ghost var u := user;
      var pinterest := PublishPins(user.pinterest, form, now, env);
      if pinterest.saved {
        user := Saved(user.(pinterest := pinterest.tokens), now);
        users := users[id := user];
      } else {
        UpdateSame(users, id);
      }
      var blogger := PublishPost(user.blogger, form, now, env);
      if blogger.saved {
        ghost var before := user;
        user := Saved(user.(blogger := blogger.tokens), now);
        users := users[id := user];
        UpdateTwice(old(users), id, before, user);
      }
      SaveSteps(u, pinterest, blogger, now);
      calls := pinterest.calls + blogger.calls;
      response := Published(pinterest.result, blogger.result);
    }
  }

  // ----------------------------------------------------------- map helpers
  // Map updates that overwrite or repeat an entry; proof steps only.

  lemma UpdateSame(m: map<string, UserRecord>, k: string)
    requires k in m
    ensures m[k := m[k]] == m
  {
  }

  lemma UpdateTwice(m: map<string, UserRecord>, k: string, a: UserRecord, b: UserRecord)
    ensures m[k := a][k := b] == m[k := b]
  {
  }
}
