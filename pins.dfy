/** The Pinterest side of a publish request: `createPin` (upload the image to
    the image host, then create a pin that references the hosted URL) and
    the loop that creates one pin per uploaded image. */
module Pins {
  import opened Types
  import opened Upstream

  /** The arguments every `createPin` call of one request shares. */
  datatype PinJob = PinJob(accessToken: Option<string>, boardId: string, title: string, description: string, link: Option<string>)

  /** `pinData`: the board, title, description and hosted image URL, plus
      `link` only when it is truthy. */
  function PinFor(job: PinJob, imageUrl: string): (r: PinRequest)
    ensures r.boardId == job.boardId && r.title == job.title && r.description == job.description
    ensures r.imageUrl == imageUrl
    ensures r.link.Some? <==> Truthy(job.link)
    ensures r.link.Some? ==> r.link == job.link
  {
    PinRequest(job.boardId, job.title, job.description, if Truthy(job.link) then job.link else None, imageUrl)
  }

  const PinUrlPrefix := "https://www.pinterest.com/pin/"

  /** `https://www.pinterest.com/pin/${response.data.id}/`. */
  function PinUrl(id: string): string
  {
    PinUrlPrefix + id + "/"
  }

  /** Reads the pin id back out of a pin URL. */
  function PinIdOf(url: string): Option<string>
  {
    if |url| > |PinUrlPrefix| && url[..|PinUrlPrefix|] == PinUrlPrefix && url[|url| - 1] == '/'
    then Some(url[|PinUrlPrefix|..|url| - 1])
    else None
  }

  /** A pin URL determines its pin id, so distinct pins give distinct URLs. */
  lemma PinUrlRoundTrip(id: string)
    ensures PinIdOf(PinUrl(id)) == Some(id)
  {
    var url := PinUrl(id);
    assert url[..|PinUrlPrefix|] == PinUrlPrefix;
    assert url[|PinUrlPrefix|..|url| - 1] == id;
  }

  const DefaultPinError := "Failed to create Pinterest pin"

  /** The message `createPin` rethrows: the upstream body's `message` when it
      is truthy, otherwise a fixed text. */
  function PinError(e: ExternalError): (m: string)
    ensures Truthy(e.dataMessage) ==> m == e.dataMessage.value
    ensures !Truthy(e.dataMessage) ==> m == DefaultPinError
  {
    if Truthy(e.dataMessage) then e.dataMessage.value else DefaultPinError
  }

  datatype PinAttempt = Created(url: string) | Failed(message: string)

  /** The result of `createPin` for one image, given what the image host and
      the pin API answered: the pin's URL, or the rethrown message when
      either call failed. */
  function CreatePinResult(upload: Outcome<string>, pin: Outcome<string>): (r: PinAttempt)
    ensures r.Created? <==> upload.Ok? && pin.Ok?
    ensures r.Created? ==> r.url == PinUrl(pin.value)
    ensures upload.Err? ==> r == Failed(PinError(upload.error))
    ensures upload.Ok? && pin.Err? ==> r == Failed(PinError(pin.error))
  {
    match upload
    case Err(e) => Failed(PinError(e))
    case Ok(_) =>
      match pin
      case Err(e) => Failed(PinError(e))
      case Ok(id) => Created(PinUrl(id))
  }

  /** The requests `createPin` sends for one image: the upload, then the pin
      creation only when the upload returned a URL. */
  function CreatePinCalls(job: PinJob, image: Image, upload: Outcome<string>): (cs: seq<Call>)
    ensures |cs| == if upload.Ok? then 2 else 1
    ensures cs[0] == UploadImage(image)
    ensures upload.Ok? ==> cs[1] == CreatePin(job.accessToken, PinFor(job, upload.value))
  {
    [UploadImage(image)] + (if upload.Ok? then [CreatePin(job.accessToken, PinFor(job, upload.value))] else [])
  }

  /** What the pin loop produces: the URLs pushed, the message that stopped
      it, and the requests it sent. */
  datatype PinsOutcome = PinsOutcome(urls: seq<string>, error: Option<string>, calls: seq<Call>)

  /** Whether the pin loop may use these outcomes: one upload outcome and one
      pin outcome per image. */
  predicate Covers(images: seq<Image>, uploads: seq<Outcome<string>>, pins: seq<Outcome<string>>)
  {
    |uploads| == |images| && |pins| == |images|
  }

  /** The requests `createPin` sends for the `n` images from `i` on, image
      after image: each one's upload, then its pin when the upload worked. */
  function PinCallsFrom(job: PinJob, images: seq<Image>, uploads: seq<Outcome<string>>, i: nat, n: nat): seq<Call>
    requires i + n <= |images| && |uploads| == |images|
    decreases n
  {
    if n == 0 then [] else CreatePinCalls(job, images[i], uploads[i]) + PinCallsFrom(job, images, uploads, i + 1, n - 1)
  }

  /** The pin loop from image `i` on: one pin per image in order, stopping at
      the first failure. The URLs are those of the images tried before the
      failure, in order; with no failure there is one URL per image. */
  function PinsFrom(job: PinJob, images: seq<Image>, uploads: seq<Outcome<string>>,
                    pins: seq<Outcome<string>>, i: nat): (r: PinsOutcome)
    requires Covers(images, uploads, pins) && i <= |images|
    ensures r.error.None? ==>
      && |r.urls| == |images| - i
      && forall k :: 0 <= k < |r.urls| ==> CreatePinResult(uploads[i + k], pins[i + k]) == Created(r.urls[k])
    ensures r.error.Some? ==>
      && i + |r.urls| < |images|
      && (forall k :: 0 <= k < |r.urls| ==> CreatePinResult(uploads[i + k], pins[i + k]) == Created(r.urls[k]))
      && CreatePinResult(uploads[i + |r.urls|], pins[i + |r.urls|]) == Failed(r.error.value)
    decreases |images| - i
  {
    if i == |images| then PinsOutcome([], None, [])
    else
      var cs := CreatePinCalls(job, images[i], uploads[i]);
      match CreatePinResult(uploads[i], pins[i])
      case Failed(m) => PinsOutcome([], Some(m), cs)
      case Created(u) =>
        var rest := PinsFrom(job, images, uploads, pins, i + 1);
        PinsOutcome([u] + rest.urls, rest.error, cs + rest.calls)
  }

  /** The loop's requests are `createPin`'s for every image it tried, the
      failing one included, in image order, and for no other image. */
  lemma {:induction false} PinsFromCalls(job: PinJob, images: seq<Image>, uploads: seq<Outcome<string>>,
                                         pins: seq<Outcome<string>>, i: nat)
    requires Covers(images, uploads, pins) && i <= |images|
    decreases |images| - i
    ensures var r := PinsFrom(job, images, uploads, pins, i);
      r.calls == PinCallsFrom(job, images, uploads, i, |r.urls| + if r.error.Some? then 1 else 0)
  {
    if i < |images| {
      var cs := CreatePinCalls(job, images[i], uploads[i]);
      if CreatePinResult(uploads[i], pins[i]).Created? {
        PinsFromCalls(job, images, uploads, pins, i + 1);
      } else {
        assert cs + [] == cs;
      }
    }
  }

  /** The loop succeeds exactly when every image's pin is created, and then
      gives one URL per image, in image order. */
  lemma PinsSucceedIffAllCreated(job: PinJob, images: seq<Image>, uploads: seq<Outcome<string>>, pins: seq<Outcome<string>>)
    requires Covers(images, uploads, pins)
    ensures var r := PinsFrom(job, images, uploads, pins, 0);
      r.error.None? <==> forall k :: 0 <= k < |images| ==> CreatePinResult(uploads[k], pins[k]).Created?
  {
    var r := PinsFrom(job, images, uploads, pins, 0);
    if r.error.Some? {
      assert CreatePinResult(uploads[0 + |r.urls|], pins[0 + |r.urls|]).Failed?;
    } else {
      forall k | 0 <= k < |images| ensures CreatePinResult(uploads[k], pins[k]).Created? {
        assert CreatePinResult(uploads[0 + k], pins[0 + k]) == Created(r.urls[k]);
      }
    }
  }

  /** Every pin creation request in `calls` carries the job's access token and
      the job's board, title, description and link. */
  predicate CarriesJob(job: PinJob, calls: seq<Call>)
  {
    forall k :: 0 <= k < |calls| && calls[k].CreatePin? ==>
      calls[k].accessToken == job.accessToken && calls[k].pin == PinFor(job, calls[k].pin.imageUrl)
  }

  /** Every pin creation request of the loop carries the request's access
      token and the shared board, title, description and link. */
  lemma {:induction false} PinCallsCarryJob(job: PinJob, images: seq<Image>, uploads: seq<Outcome<string>>,
                                            pins: seq<Outcome<string>>, i: nat)
    requires Covers(images, uploads, pins) && i <= |images|
    decreases |images| - i
    ensures CarriesJob(job, PinsFrom(job, images, uploads, pins, i).calls)
  {
    if i < |images| {
      var cs := CreatePinCalls(job, images[i], uploads[i]);
      if CreatePinResult(uploads[i], pins[i]).Created? {
        PinCallsCarryJob(job, images, uploads, pins, i + 1);
        var rest := PinsFrom(job, images, uploads, pins, i + 1).calls;
        var all := cs + rest;
        assert PinsFrom(job, images, uploads, pins, i).calls == all;
        forall k | 0 <= k < |all| && all[k].CreatePin?
          ensures all[k].accessToken == job.accessToken && all[k].pin == PinFor(job, all[k].pin.imageUrl)
        {
          if k >= |cs| {
            assert all[k] == rest[k - |cs|];
          } else {
            assert all[k] == cs[k];
          }
        }
      }
    }
  }

  /** One step of the pin loop at image `i`. */
  lemma PinsStep(job: PinJob, images: seq<Image>, uploads: seq<Outcome<string>>, pins: seq<Outcome<string>>, i: nat)
    requires Covers(images, uploads, pins) && i < |images|
    ensures var cs := CreatePinCalls(job, images[i], uploads[i]);
      match CreatePinResult(uploads[i], pins[i])
      case Failed(m) => PinsFrom(job, images, uploads, pins, i) == PinsOutcome([], Some(m), cs)
      case Created(u) =>
        var rest := PinsFrom(job, images, uploads, pins, i + 1);
        PinsFrom(job, images, uploads, pins, i) == PinsOutcome([u] + rest.urls, rest.error, cs + rest.calls)
  {
  }

  /** `for (const image of images) { urls.push(await createPin(…)) }`, the
      loop stopping at the first `createPin` that throws. */
  method PinEachImage(job: PinJob, images: seq<Image>, uploads: seq<Outcome<string>>, pins: seq<Outcome<string>>)
    returns (urls: seq<string>, error: Option<string>, calls: seq<Call>)
    requires Covers(images, uploads, pins)
    ensures PinsOutcome(urls, error, calls) == PinsFrom(job, images, uploads, pins, 0)
  {
    ghost var whole := PinsFrom(job, images, uploads, pins, 0);
    urls, error, calls := [], None, [];
    var i := 0;
    while i < |images|
      invariant 0 <= i <= |images| && error.None?
      invariant whole.urls == urls + PinsFrom(job, images, uploads, pins, i).urls
      invariant whole.error == PinsFrom(job, images, uploads, pins, i).error
      invariant whole.calls == calls + PinsFrom(job, images, uploads, pins, i).calls
    {
      PinsStep(job, images, uploads, pins, i);
      var cs := CreatePinCalls(job, images[i], uploads[i]);
      var attempt := CreatePinResult(uploads[i], pins[i]);
      if attempt.Failed? {
        calls := calls + cs;
        error := Some(attempt.message);
        assert urls == urls + [];
        break;
      }
      ghost var rest := PinsFrom(job, images, uploads, pins, i + 1);
      assert urls + ([attempt.url] + rest.urls) == (urls + [attempt.url]) + rest.urls;
      assert calls + (cs + rest.calls) == (calls + cs) + rest.calls;
      calls := calls + cs;
      urls := urls + [attempt.url];
      i := i + 1;
    }
    if i == |images| {
      assert urls == urls + [] && calls == calls + [];
    }
  }
}
