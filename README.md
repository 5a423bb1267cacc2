# pintblog credential-and-publish core, in Dafny

pintblog is a small Express server that cross-posts one piece of content
(a title, a description, images, keywords) to Pinterest and to Blogger.
These files model its server logic in `api/index.js`:

- the OAuth authorization URLs and the callbacks that store each provider's
  tokens in a per-user record;
- the refresh-before-use rule for expired access tokens;
- the auth-status query and the board and blog listings;
- the `/api/post` handler, which validates the form, looks the user up and
  then runs a Pinterest branch (one pin per image) and a Blogger branch (one
  post with an HTML body), each catching its own errors.

Every outside service is abstract. That covers the token endpoints, the
image host, the pin, post and listing APIs. Each call the model makes is
recorded in a trace of `Call` values. What the call answered comes in as an
`Outcome` (a value, or an error with a `message`). The user collection is a
`map` from user id to record, held by the class `Server.App`. Each handler
that reads or writes the store (the callbacks, auth status, the listings and
`/api/post`) is a method of that class, proved equal to a pure function of
the store before the request. `/auth/{provider}` touches no store and is the
function `OAuth.Authorize`. Those functions return the response, the store after the
request and the trace. The clock is a parameter `now` (milliseconds),
one instant per request.

Modules, one per file:

| file | module | what it holds |
|---|---|---|
| `types.dfy` | `Types` | `Option`, `Outcome`, JavaScript truthiness of an optional string |
| `text.dfy` | `Text` | `split`, `join`, `trim`, the comma lists, title and description truncation |
| `uri.dfy` | `Uri` | `encodeURIComponent` and reading query parameters back out of a URL |
| `upstream.dfy` | `Upstream` | the outside services' requests and answers |
| `oauth.dfy` | `OAuth` | the authorization URLs, `/auth/{provider}`, the `state` round trip |
| `credentials.dfy` | `Credentials` | the user record, the exchange and refresh rules |
| `pins.dfy` | `Pins` | `createPin` and the loop over images |
| `blog_posts.dfy` | `BlogPosts` | the upload fallback, the post body, `createBlogPost` |
| `server.dfy` | `Server` | the handlers as functions, the store class `App` and its methods |

## Model

| member | source | states |
|---|---|---|
| Text.Split | api/index.js:493-494 | `split(',')` gives exactly one more piece than the field has commas (so `[""]` for the empty field) |
| Text.SplitPiecesOmitSeparator | api/index.js:493-494 | no piece of a split holds the separator |
| Text.JoinSplit | api/index.js:493-494 | joining the pieces of a split with the separator gives back the original field |
| Text.SplitJoin | api/index.js:493-494 | splitting a join of separator-free pieces gives back exactly those pieces |
| Text.Trim | api/index.js:493-494 | `trim()` returns a contiguous infix whose dropped ends are all JavaScript white space and whose own ends are not |
| Text.CommaList | api/index.js:493-494 | the labels or keywords: `[]` for an absent or empty field, otherwise one trimmed entry per comma-separated piece, in order |
| Text.CommaListEntries | api/index.js:493-494 | no entry holds a comma or starts or ends with white space, and the pieces the entries come from rejoin to the field |
| Text.PinDescription | api/index.js:469 | at most 500 characters; unchanged when at most 500; otherwise exactly 500: the first 497 characters and `...` |
| Text.PinTitle | api/index.js:472 | `substring(0, 100)`: the first `min(100, length)` characters of the title |
| Uri.EncodeUriComponent | api/index.js:76 | the output holds only unreserved characters and `%` (so no `&`, `=`, `#`, `?`), and text made of unreserved characters is unchanged |
| OAuth.Authorize | api/index.js:259-269 | 400 exactly when the user id is absent or empty; otherwise the provider's authorization URL for that id |
| OAuth.AuthorizationUrlState | api/index.js:74-77 | in the URL template shared by both providers, `state` has exactly one value, the user id, whatever the scopes and redirect URI |
| OAuth.PinterestState | api/index.js:74-77 | Pinterest's authorization URL carries the user id as its one `state` value |
| OAuth.BloggerState | api/index.js:157-160 | Blogger's authorization URL, with `access_type` and `prompt` added, carries the user id as its one `state` value |
| OAuth.StateRoundTrip | api/index.js:76 | for either provider, the `state` read back from the authorization URL is the user id put in (ids and client ids without `&` or `#`) |
| Credentials.NewUser | api/index.js:288-290 | a new record has the id, no tokens for either provider, and both timestamps at the current time |
| Credentials.Exchanged | api/index.js:292-294 | a code exchange overwrites all three token fields, including with an absent refresh token; expiry is `now + expires_in * 1000` |
| Credentials.Refreshed | api/index.js:389-394 | after a refresh the access token and expiry are the response's; Pinterest takes a non-empty new refresh token and keeps the old one otherwise; Blogger always keeps the old one |
| Credentials.StoreTouchesOneProvider | api/index.js:292-296 | storing an exchange or a refresh changes only that provider's tokens and `updatedAt`; the other provider, the id and `createdAt` are unchanged |
| Credentials.RefreshAsymmetry | api/index.js:389-424 | for the same response carrying a new refresh token, Pinterest stores it and Blogger does not |
| Credentials.FreshAfterStore | api/index.js:389-395 | a refresh or exchange granting a positive lifetime leaves a token that does not need refreshing at that instant |
| Credentials.AuthorizedAfterStore | api/index.js:368-371 | after storing tokens for a provider, its status flag is whether the new access token is non-empty; the other flag is unchanged |
| Pins.PinFor | api/index.js:127-139 | the pin carries the board, title, description and hosted URL, and a `link` exactly when the form's link is truthy |
| Pins.PinUrlRoundTrip | api/index.js:148 | the pin id can be read back from `https://www.pinterest.com/pin/<id>/` |
| Pins.PinError | api/index.js:151 | the rethrown message is the upstream body's non-empty `message`, otherwise the fixed text |
| Pins.CreatePinResult | api/index.js:112-153 | a pin is created exactly when both the upload and the pin request succeed; a failure of either gives its rethrown message |
| Pins.CreatePinCalls | api/index.js:118-146 | `createPin` uploads first and requests the pin, with the hosted URL, only when the upload succeeded |
| Pins.PinsFrom | api/index.js:471-474 | without a failure there is one URL per image, in image order; otherwise the URLs are those of the images before the first failing one, whose message is the error |
| Pins.PinsFromCalls | api/index.js:471-474 | the loop sends, in image order, `createPin`'s upload-then-pin requests for each image it tries, the failing image included, and nothing for the images after it |
| Pins.PinsSucceedIffAllCreated | api/index.js:471-476 | the loop finishes without error exactly when every image's pin is created |
| Pins.PinCallsCarryJob | api/index.js:472 | every pin request the loop sends carries the request's access token, board, title, description and link |
| Pins.PinEachImage | api/index.js:471-474 | the loop's URLs, error and requests are those of `PinsFrom` |
| BlogPosts.ImageSource | api/index.js:183-199 | the hosted link when the upload succeeds; the image's `data:<mimetype>;base64,<data>` URL when it fails |
| BlogPosts.ImgSrcRoundTrip | api/index.js:208 | the `src` attribute read back from an image element is the source put in, when it holds no double quote |
| BlogPosts.ImgTagsAppend | api/index.js:206-209 | the elements of two source lists in sequence are the elements of the first followed by those of the second |
| BlogPosts.ImgTagsInOrder | api/index.js:206-209 | the `k`-th image's element comes after those of the earlier images and before those of the later ones |
| BlogPosts.BlogHtmlImageAt | api/index.js:202-215 | in the post body, the `k`-th image's element follows the description block, the images opening tag and the earlier images' elements |
| BlogPosts.BlogCalls | api/index.js:201-236 | `createBlogPost` uploads each image once, in order, then sends exactly one post request carrying the token, blog id and post |
| BlogPosts.AppendImages | api/index.js:206-209 | the loop appends one element per image, from its upload result, in image order, and uploads each image once |
| BlogPosts.CreateBlogPost | api/index.js:201-236 | the `+=` construction produces the description block, the images block only with images, the keywords block joined by `, ` only with keywords; the API's answer is the result |
| Server.CallbackOutcome | api/index.js:276-304 | without code or state, `auth_failed` and nothing else; a failed exchange gives `callback_failed` with the store unchanged; otherwise `success`, the state's record created if needed with only that provider's tokens overwritten, and no other record touched |
| Server.StatusOf | api/index.js:353-376 | both flags false without an id or a record; otherwise each flag is "access token non-empty", with no expiry check |
| Server.Freshen | api/index.js:389-395 | a refresh request is sent exactly when the stored expiry has passed; its failure ends the request with its message and stores nothing; its success stores the refreshed tokens |
| Server.FreshenLeavesUsable | api/index.js:389-395 | unless the refresh fails, the tokens used afterwards are not expired at that instant, given a positive lifetime |
| Server.ListOutcome | api/index.js:379-406 | 401 exactly when the record or its access token is missing, with nothing sent or changed; a refresh exactly when expired; the listing uses the stored (refreshed) token; a refresh saved before a failed listing stays; a successful listing answers `items || []` and a failed one its message; unless a due refresh fails, the requests are the refresh (if any) followed by one listing with the stored token |
| Server.ListAgreesWithStatus | api/index.js:384-387 | the listing refuses with 401 exactly when auth status reports that provider as not authorized |
| Server.PinJobFor | api/index.js:469-472 | every pin of a request gets the board, the link, the access token, the title cut to 100 characters and the description cut to 500 |
| Server.PinterestBranch | api/index.js:459-481 | skipped, with its initial result, unless token and board are present; when attempted, success exactly when there is no error; a failed refresh leaves no URLs and the refresh's message; success reports one URL per image; the tokens change only when saved; after a successful or skipped refresh the requests are the refresh's followed by the pin loop's, with the token the refresh left |
| Server.BloggerBranch | api/index.js:484-504 | skipped, with its initial result, unless token and blog are present; when attempted, success exactly when there is no error; success reports the post's URL; the tokens change only when saved |
| Server.BloggerSucceedsIff | api/index.js:484-504 | the Blogger side succeeds exactly when attempted, refreshed when due and the post created, and then reports the post's URL; a failed refresh gives its message after the refresh request alone; otherwise the uploads and the post built from the form are sent with the refreshed token, and a failed post gives its message |
| Server.PostOutcome | api/index.js:438-511 | 400 exactly when the user id, title or description is missing or there are no images; 401 exactly for an unknown user; neither sends or changes anything; otherwise the answer is the two branches' results for the user's stored tokens, the trace is the Pinterest requests then the Blogger ones, and the user's record is what the two branches left; no record but the user's changes |
| Server.PinterestSucceedsIff | api/index.js:471-480 | the Pinterest side succeeds exactly when attempted, refreshed when due, and every pin created; on a failure after the refresh it keeps the URLs of the images before the failing one; the requests sent are the refresh's followed by upload-then-pin for exactly the images tried |
| Server.PinRequestsWithinLimits | api/index.js:469-472 | every pin request of a publish request carries the stored Pinterest token, the board and link, the title cut to 100 characters and the description cut to 500 (so at most 100 and 500) |
| Server.SidesIndependent | api/index.js:459-504 | each side's result depends only on its own provider's tokens and services, so an error on one side does not change the other's result |
| Server.PostKeepsTokensUnlessRefreshed | api/index.js:459-491 | publishing changes a provider's tokens only through its refresh; with no refresh due the store is unchanged |
| Server.CallbackThenStatus | api/index.js:292-298 | after a successful callback, auth status reports the provider as authorized exactly when the new access token is non-empty |
| Server.AuthorizeThenCallback | api/index.js:276-298 | the `state` of the authorization URL handed to a user is that user's id, and the callback receiving it stores the exchanged tokens in that user's record |
| Server.PublishPins | api/index.js:459-481 | the Pinterest branch's steps give `PinterestBranch` |
| Server.PublishPost | api/index.js:484-504 | the Blogger branch's steps give `BloggerBranch` |
| Server.App.constructor | api/index.js:31-41 | the store starts empty and valid |
| Server.App.Callback | api/index.js:276-304 | the callback's field assignments and save give `CallbackOutcome` and keep every record under its own non-empty id; the URL it redirects to is `RedirectUrl` of the outcome |
| Server.RedirectUrlInjective | api/index.js:282-301 | the three redirect URLs of each provider differ from each other and from the other provider's, so each outcome is visible to the page |
| Server.App.Status | api/index.js:353-376 | the auth-status steps give `StatusOf` |
| Server.App.List | api/index.js:379-406 | the listing steps (mutate, save, list) give `ListOutcome` |
| Server.App.Post | api/index.js:438-511 | the publish steps, with a save after each refresh, give `PostOutcome` |

`Server.App.Callback` also models the Blogger callback (api/index.js:323-351).
`Server.App.List` also models the blog listing (api/index.js:409-435), and
`OAuth.Authorize` also models `/auth/blogger` (api/index.js:306-321). The two
providers' handlers differ only in their names and fields, except for the
refresh step: Pinterest keeps `refresh_token || old`, while Blogger's
refresh never writes its refresh token (api/index.js:389-394 against
419-423, and 461-466 against 486-490). `Credentials.Refreshed` states that
difference.

## Left out

- HTTP plumbing is not modelled: routing, `res.json`/`res.redirect`, static files, CORS, body parsing and the health endpoint. Each handler returns a response datatype instead.
- `connectDB` and its failures are not modelled, nor is any other exception outside the outside services (for example a failing `save`). Saves always succeed. In the source, such an exception in a callback redirects with `callback_failed`. In a listing it answers 500. Inside one of the two branches of `/api/post` it would be caught by that branch and become the branch's `error`. Before the branches it answers 500.
- Mongoose is replaced by a map from user id to record. Only the pre-save stamp of `updatedAt` is kept.
- `findOne({ userId })` with no `userId` at all is modelled as "no record". Mongoose's treatment of an undefined filter value is not modelled.
- The outside services are modelled only by what each request carries and what it answers. Request URLs, headers, client secrets, the Basic authorization header, the image host's client id and form encodings are not modelled.
- Base64 encoding is a library call. An `Image` carries its base64 text as given.
- Multer's limits are not modelled: 5 MB per file, the MIME type filter, at most 10 files.
- The clock is one integer `now` per request. `Date` objects are not modelled, nor invalid dates. The model gives `expires_in` as an integer; a response without it would give an invalid expiry in the source.
- Lengths count Unicode characters as Dafny strings do. JavaScript's `length` and `substring` count UTF-16 code units. For text outside the Basic Multilingual Plane the cut points of the title and description differ, and `substring` can split a surrogate pair.
- OAuth.StateRoundTrip: reads query values raw, without percent-decoding. The user id is spliced into the URL unencoded, so the property is stated for ids without `&` or `#`. For ids that also lack `%` and `+`, decoding changes nothing.
- Form fields are strings or absent. Repeated fields that body parsing turns into arrays are not modelled.
- Listing items and link/id fields of upstream answers are opaque strings. The JSON shapes around them are not modelled.
- Console logging is not modelled.
- Concurrent requests on the same record are not modelled.
- `public/script.js` and the random client-side user id are not part of this model.
