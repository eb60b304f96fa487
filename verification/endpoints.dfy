/**
 Choice of the creation endpoint. A post goes to a fixed path; a comment goes
 to the comments path with the parent post's id interpolated into the query
 string exactly as a template literal would, so an absent id becomes the text
 "undefined". `Route` is the server-side reading of those URLs and serves as
 the inverse that pins `Endpoint` down.
 */
module Endpoints {
  import opened Types

  const PostsPath: string := "/api/posts"
  const CommentsPrefix: string := "/api/comments?postId="

  /** What the server is asked to create. */
  datatype Target = CreatePost | CreateComment(postId: string)

  /** Template-literal interpolation of an optional string. */
  function Interpolate(x: Option<string>): (r: string)
    ensures x.Some? ==> r == x.value
    ensures x.None? ==> r == "undefined"
  {
    match x
    case Some(v) => v
    case None => "undefined"
  }

  /** The URL a submission is posted to. */
  function Endpoint(cfg: Config): (url: string)
    ensures Route(url) == Some(Intended(cfg))
  {
    if cfg.isComment then
      var id := Interpolate(cfg.postId);
      var u := CommentsPrefix + id;
      assert u[..|CommentsPrefix|] == CommentsPrefix;
      assert u[|CommentsPrefix|..] == id;
      u
    else
      PostsPath
  }

  /** The creation the configuration asks for. */
  function Intended(cfg: Config): Target {
    if cfg.isComment then CreateComment(Interpolate(cfg.postId)) else CreatePost
  }

  /** How the two creation URLs are read back: the fixed posts path, or the
      comments prefix followed by the id text. */
  function Route(url: string): (r: Option<Target>)
    ensures r == Some(CreatePost) <==> url == PostsPath
    ensures forall id :: r == Some(CreateComment(id)) <==> url == CommentsPrefix + id
  {
    if url == PostsPath then Some(CreatePost)
    else if CommentsPrefix <= url then
      assert url == CommentsPrefix + url[|CommentsPrefix|..];
      Some(CreateComment(url[|CommentsPrefix|..]))
    else None
  }

  /** Different comment targets never share a URL, and a comment URL is never
      the posts URL. */
  lemma EndpointInjective(a: Config, b: Config)
    requires Endpoint(a) == Endpoint(b)
    ensures Intended(a) == Intended(b)
  {
  }

  lemma CommentExample()
    ensures Endpoint(Config(true, Some("42"))) == "/api/comments?postId=42"
  {
  }

  lemma PostExample(id: Option<string>)
    ensures Endpoint(Config(false, id)) == "/api/posts"
  {
  }

  lemma MissingIdExample()
    ensures Endpoint(Config(true, None)) == "/api/comments?postId=undefined"
  {
  }
}
