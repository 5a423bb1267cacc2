/** The Blogger side of a publish request: `uploadImageToImgur` with its
    inline fallback, the HTML body of the post, and `createBlogPost`, which
    builds that body image by image and sends it. */
module BlogPosts {
  import opened Types
  import opened Text
  import opened Uri
  import opened Upstream

  /** `data:<mimetype>;base64,<bytes>`: the image inlined into the page. */
  function DataUrl(image: Image): string
  {
    "data:" + image.mimetype + ";base64," + image.base64
  }

  /** What `uploadImageToImgur` resolves to: the hosted link when the upload
      succeeds, the data URL of the image itself when it fails. It never
      fails. */
  function ImageSource(image: Image, upload: Outcome<string>): (src: string)
    ensures upload.Ok? ==> src == upload.value
    ensures upload.Err? ==> src == DataUrl(image)
  {
    match upload
    case Ok(link) => link
    case Err(_) => DataUrl(image)
  }

  /** The image sources of a post, one per image, in image order. */
  function Sources(images: seq<Image>, uploads: seq<Outcome<string>>): (r: seq<string>)
    requires |uploads| == |images|
    ensures |r| == |images| && forall k :: 0 <= k < |r| ==> r[k] == ImageSource(images[k], uploads[k])
  {
    seq(|images|, k requires 0 <= k < |images| => ImageSource(images[k], uploads[k]))
  }

  const ImgOpen := "<img src=\""
  const ImgAlt := "\" alt=\""
  const ImgClose := "\" style=\"max-width: 100%; height: auto; margin: 10px 0;\" />"

  /** One image element: the source and the post title are placed inside
      the attribute quotes as they are, without escaping. */
  function ImgTag(src: string, title: string): string
  {
    ImgOpen + src + ImgAlt + title + ImgClose
  }

  /** The `src` attribute of an image element, read back. */
  function SrcOf(tag: string): string
  {
    if |tag| >= |ImgOpen| && tag[..|ImgOpen|] == ImgOpen then Before(tag[|ImgOpen|..], '"') else ""
  }

  /** Reading the `src` attribute back out of an image element gives the
      source that was put in, whenever the source holds no double quote. */
  lemma ImgSrcRoundTrip(src: string, title: string)
    requires '"' !in src
    ensures SrcOf(ImgTag(src, title)) == src
  {
    var tag := ImgTag(src, title);
    assert tag[..|ImgOpen|] == ImgOpen;
    var rest := ImgAlt[1..] + title + ImgClose;
    assert tag[|ImgOpen|..] == src + ['"'] + rest;
    BeforeSplit(src, '"', rest);
  }

  /** The image elements of the given sources, concatenated in order. */
  function ImgTags(srcs: seq<string>, title: string): string
  {
    if srcs == [] then "" else ImgTags(srcs[..|srcs| - 1], title) + ImgTag(srcs[|srcs| - 1], title)
  }

  /** Concatenating source lists concatenates their image elements. */
  lemma {:induction false} ImgTagsAppend(a: seq<string>, b: seq<string>, title: string)
    ensures ImgTags(a + b, title) == ImgTags(a, title) + ImgTags(b, title)
  {
    if b == [] {
      assert a + b == a;
    } else {
      var b' := b[..|b| - 1];
      assert (a + b)[..|a + b| - 1] == a + b';
      ImgTagsAppend(a, b', title);
    }
  }

  /** The element of the `k`-th source sits between those of the sources
      before it and those after it: the page shows images in upload order. */
  lemma ImgTagsInOrder(srcs: seq<string>, title: string, k: nat)
    requires k < |srcs|
    ensures ImgTags(srcs, title) == ImgTags(srcs[..k], title) + ImgTag(srcs[k], title) + ImgTags(srcs[k + 1..], title)
  {
    assert srcs == srcs[..k] + [srcs[k]] + srcs[k + 1..];
    ImgTagsAppend(srcs[..k] + [srcs[k]], srcs[k + 1..], title);
    ImgTagsAppend(srcs[..k], [srcs[k]], title);
    assert ImgTags([srcs[k]], title) == ImgTag(srcs[k], title) by {
      assert [srcs[k]][..0] == [];
    }
  }

  const ImagesOpen := "<div class=\"images\">"
  const KeywordsOpen := "<div class=\"keywords\"><p><strong>Keywords:</strong> "
  const KeywordsClose := "</p></div>"

  /** The images block, present only when there is at least one image. */
  function ImagesSection(srcs: seq<string>, title: string): string
  {
    if |srcs| > 0 then ImagesOpen + ImgTags(srcs, title) + "</div>" else ""
  }

  /** The keywords block, present only when there is at least one keyword;
      the keywords are joined with `, `. */
  function KeywordsSection(keywords: seq<string>): string
  {
    if |keywords| > 0 then KeywordsOpen + Join(keywords, ", ") + KeywordsClose else ""
  }

  /** The post body: the description in its own block, then the images
      block, then the keywords block. */
  function BlogHtml(description: string, title: string, srcs: seq<string>, keywords: seq<string>): string
  {
    "<div>" + description + "</div>" + ImagesSection(srcs, title) + KeywordsSection(keywords)
  }

  /** In the post body, the element of the `k`-th image comes right after
      the description block, the images block's opening tag and the elements
      of the images before it. */
  lemma BlogHtmlImageAt(description: string, title: string, srcs: seq<string>, keywords: seq<string>, k: nat)
    requires k < |srcs|
    ensures exists rest ::
      BlogHtml(description, title, srcs, keywords)
      == "<div>" + description + "</div>" + ImagesOpen + ImgTags(srcs[..k], title) + ImgTag(srcs[k], title) + rest
  {
    ImgTagsInOrder(srcs, title, k);
    var rest := ImgTags(srcs[k + 1..], title) + "</div>" + KeywordsSection(keywords);
    var lead := "<div>" + description + "</div>";
    var before := ImgTags(srcs[..k], title);
    var tag := ImgTag(srcs[k], title);
    Regroup(lead, ImagesOpen, before, tag, ImgTags(srcs[k + 1..], title), "</div>", KeywordsSection(keywords));
  }

  /** Each image uploaded to the image host, in image order. */
  function UploadCalls(images: seq<Image>): (r: seq<Call>)
    ensures |r| == |images| && forall k :: 0 <= k < |r| ==> r[k] == UploadImage(images[k])
  {
    seq(|images|, k requires 0 <= k < |images| => UploadImage(images[k]))
  }

  /** The requests of `createBlogPost`: one upload per image, in order, then
      exactly one post creation, carrying the access token, the blog id and
      the post. */
  function BlogCalls(images: seq<Image>, accessToken: Option<string>, blogId: string, post: BlogPost): (r: seq<Call>)
    ensures |r| == |images| + 1
    ensures forall k :: 0 <= k < |images| ==> r[k] == UploadImage(images[k])
    ensures r[|images|] == CreatePost(accessToken, blogId, post)
  {
    UploadCalls(images) + [CreatePost(accessToken, blogId, post)]
  }

  /** The post `createBlogPost` sends: the title, the built body and the
      labels. */
  function PostFor(title: string, description: string, images: seq<Image>, uploads: seq<Outcome<string>>,
                   labels: seq<string>, keywords: seq<string>): BlogPost
    requires |uploads| == |images|
  {
    BlogPost(title, BlogHtml(description, title, Sources(images, uploads), keywords), labels)
  }

  lemma ImgTagsSnoc(srcs: seq<string>, i: nat, title: string)
    requires i < |srcs|
    ensures ImgTags(srcs[..i + 1], title) == ImgTags(srcs[..i], title) + ImgTag(srcs[i], title)
  {
    assert srcs[..i + 1][..i] == srcs[..i];
  }

  lemma UploadCallsSnoc(images: seq<Image>, i: nat)
    requires i < |images|
    ensures UploadCalls(images[..i + 1]) == UploadCalls(images[..i]) + [UploadImage(images[i])]
  {
  }

  /** The `for (const image of images)` loop of `createBlogPost`: waits for
      each upload in turn and appends that image's element to `html`. */
  method AppendImages(html: string, title: string, images: seq<Image>, uploads: seq<Outcome<string>>)
    returns (out: string, calls: seq<Call>)
    requires |uploads| == |images|
    ensures out == html + ImgTags(Sources(images, uploads), title)
    ensures calls == UploadCalls(images)
  {
    ghost var srcs := Sources(images, uploads);
    out, calls := html, [];
    var i := 0;
    assert srcs[..0] == [] && html + "" == html;
    while i < |images|
      invariant 0 <= i <= |images|
      invariant out == html + ImgTags(srcs[..i], title)
      invariant calls == UploadCalls(images[..i])
    {
      var imageUrl := ImageSource(images[i], uploads[i]);
      assert imageUrl == srcs[i];
      ImgTagsSnoc(srcs, i, title);
      UploadCallsSnoc(images, i);
      Associate(html, ImgTags(srcs[..i], title), ImgTag(imageUrl, title));
      out := out + ImgTag(imageUrl, title);
      calls := calls + [UploadImage(images[i])];
      i := i + 1;
    }
    assert srcs[..|images|] == srcs;
    assert images[..|images|] == images;
  }

  /** `createBlogPost`: the description block, the images block built as
      each upload resolves, the keywords block, then the post request.
      `posted` is what the blog API answers; its `url` (possibly absent) is
      the result, and its failure is the failure of the whole call. Upload
      failures never fail the call: the image is inlined instead. */
  method CreateBlogPost(accessToken: Option<string>, blogId: string, title: string, description: string,
                        images: seq<Image>, labels: seq<string>, keywords: seq<string>,
                        uploads: seq<Outcome<string>>, posted: Outcome<Option<string>>)
    returns (result: Outcome<Option<string>>, calls: seq<Call>)
    requires |uploads| == |images|
    ensures calls == BlogCalls(images, accessToken, blogId, PostFor(title, description, images, uploads, labels, keywords))
    ensures result == posted
  {
    ghost var srcs := Sources(images, uploads);
    var html := "<div>" + description + "</div>";
    ghost var lead := html;
    calls := [];
    if |images| > 0 {
      var tags;
      tags, calls := AppendImages(ImagesOpen, title, images, uploads);
      html := html + tags + "</div>";
      assert html == lead + ImagesSection(srcs, title);
    } else {
      assert html == lead + ImagesSection(srcs, title);
    }
    if |keywords| > 0 {
      var block := KeywordsOpen + Join(keywords, ", ") + KeywordsClose;
      assert block == KeywordsSection(keywords);
      html := html + block;
    } else {
      assert html == html + KeywordsSection(keywords);
    }
    calls := calls + [CreatePost(accessToken, blogId, BlogPost(title, html, labels))];
    result := posted;
  }

  // ------------------------------------------------ concatenation helpers
  // Regrouping of `+` on strings; proof steps only.

  lemma Regroup(a: string, b: string, c: string, d: string, e: string, f: string, g: string)
    ensures a + (b + (c + d + e) + f) + g == a + b + c + d + (e + f + g)
  {
  }

  lemma Associate(a: string, b: string, c: string)
    ensures a + b + c == a + (b + c)
  {
  }
}
