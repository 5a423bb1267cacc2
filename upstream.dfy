/** The outside services the server talks to, seen from the server: the two
    OAuth providers, the image host, and the pin and blog-post APIs. Every
    call the model makes is recorded as a `Call`; what a call returns is an
    `Outcome` supplied from outside the model. */
module Upstream {
  import opened Types

  datatype Provider = Pinterest | Blogger

  /** The body of a successful token exchange or refresh response
      (`access_token`, `refresh_token`, `expires_in` in seconds). */
  datatype TokenResponse = TokenResponse(accessToken: Option<string>, refreshToken: Option<string>, expiresIn: int)

  /** An uploaded image file: its MIME type and the base64 text of its bytes
      (the encoding itself is a library call outside the model). */
  datatype Image = Image(mimetype: string, base64: string)

  /** The JSON body of a pin creation request. `link` is absent from the
      body when `None`. */
  datatype PinRequest = PinRequest(boardId: string, title: string, description: string, link: Option<string>, imageUrl: string)

  /** The JSON body of a blog post creation request. */
  datatype BlogPost = BlogPost(title: string, content: string, labels: seq<string>)

  /** One request sent to an outside service, with what it carries. */
  datatype Call =
    | ExchangeCode(provider: Provider, code: string)
    | RefreshToken(provider: Provider, refreshToken: Option<string>)
    | ListCollections(provider: Provider, accessToken: Option<string>)
    | UploadImage(image: Image)
    | CreatePin(accessToken: Option<string>, pin: PinRequest)
    | CreatePost(accessToken: Option<string>, blogId: string, post: BlogPost)
}
