/** The GraphQL exchanges of the beta and new unsee.cc clients
    (unsee_dl/unsee_beta.py, unsee_dl/unsee_new.py): the request a client
    posts, the bearer header it sends, the `errors` check on every response,
    the image list of a `getAlbum` answer and the token of a `getToken` one. */
module Graphql {
  import opened Values

  /** A GraphQL POST: the endpoint, the operation, its variables and the
      `authorization` header when one is sent. The query text is left out. */
  datatype Request = Request(url: string, operationName: string, variables: Json, authorization: Option<string>)

  const BearerPrefix: string := "Bearer "

  /** `f"Bearer {self.token}"`. */
  function BearerHeader(token: Json): (r: Result<string>)
    ensures r.Ok? <==> PyText(token).Some?
    ensures r.Ok? ==> |r.value| >= |BearerPrefix| && r.value[..|BearerPrefix|] == BearerPrefix
                      && r.value[|BearerPrefix|..] == PyText(token).value
  {
    match PyText(token)
    case None => Err(NotModelled)
    case Some(t) => Ok(BearerPrefix + t)
  }

  /** The header carries the token it was built from: distinct tokens
      rendering differently give distinct headers. */
  lemma BearerHeaderInjective(t1: Json, t2: Json)
    requires BearerHeader(t1).Ok? && BearerHeader(t1) == BearerHeader(t2)
    ensures PyText(t1) == PyText(t2)
  {
    assert PyText(t1).value == BearerHeader(t1).value[|BearerPrefix|..];
  }

  /** `if "errors" in content and len(content["errors"]) > 0: raise`. The
      membership test and the subscript can themselves raise on a response
      that is not an object. */
  function CheckErrors(content: Json): (r: Result<()>)
    ensures content.JObj? ==>
              (r.Err? <==> "errors" in content.fields && (Len(content.fields["errors"]).Err? || Len(content.fields["errors"]).value > 0))
    ensures content.JObj? && r.Err? ==>
              r.error == (if Len(content.fields["errors"]).Ok? then GraphqlErrors else TypeError)
    ensures r == Err(GraphqlErrors) ==> Contains(content, "errors") == Ok(true)
  {
    match Contains(content, "errors")
    case Err(e) => Err(e)
    case Ok(has) =>
      if !has then Ok(())
      else match Get(content, "errors")
        case Err(e) => Err(e)
        case Ok(errors) =>
          match Len(errors)
          case Err(e) => Err(e)
          case Ok(n) => if n > 0 then Err(GraphqlErrors) else Ok(())
  }

  /** `content["data"]["getAlbum"]["images"]`. */
  function ImagesField(content: Json): Result<Json>
  {
    match Get(content, "data")
    case Err(e) => Err(e)
    case Ok(data) =>
      match Get(data, "getAlbum")
      case Err(e) => Err(e)
      case Ok(album) => Get(album, "images")
  }

  /** The images `_original_size_images` yields for the `getAlbum` answer
      `content`, or the exception it raises before yielding any. A null or
      empty list yields nothing and returns normally; a list yields its
      elements in order; a string yields its characters. */
  function AlbumItems(content: Json): (r: Result<seq<Json>>)
    ensures CheckErrors(content).Err? ==> r == Err(CheckErrors(content).error)
    ensures r.Ok? ==> CheckErrors(content).Ok? && ImagesField(content).Ok?
    ensures CheckErrors(content).Ok? && ImagesField(content).Err? ==> r == Err(ImagesField(content).error)
    ensures CheckErrors(content).Ok? && ImagesField(content).Ok? && !Truthy(ImagesField(content).value) ==> r == Ok([])
    ensures CheckErrors(content).Ok? && ImagesField(content).Ok? && ImagesField(content).value.JArr? ==>
              r == Ok(ImagesField(content).value.items)
    ensures r.Ok? && r.value != [] ==> Truthy(ImagesField(content).value)
  {
    match CheckErrors(content)
    case Err(e) => Err(e)
    case Ok(_) =>
      match ImagesField(content)
      case Err(e) => Err(e)
      case Ok(items) =>
        if !Truthy(items) then Ok([])
        else match Len(items)
          case Err(e) => Err(e)
          case Ok(n) =>
            if n <= 0 then Ok([])
            else match items
              case JArr(xs) => Ok(xs)
              case JStr(s) => Ok(Characters(s))
              case _ => Err(NotModelled)
  }

  /** Each character of a string, as a one-character string. */
  function Characters(s: string): (cs: seq<Json>)
    ensures |cs| == |s|
    ensures forall i :: 0 <= i < |s| ==> cs[i] == JStr([s[i]])
    decreases |s|
  {
    if s == [] then [] else [JStr([s[0]])] + Characters(s[1..])
  }

  /** A response with a non-empty `errors` array raises before any image,
      whatever else it holds. */
  lemma ErrorsComeFirst(fields: map<string, Json>, errors: seq<Json>)
    requires "errors" in fields && fields["errors"] == JArr(errors) && errors != []
    ensures AlbumItems(JObj(fields)) == Err(GraphqlErrors)
  {
  }

  /** `{"data": {"getAlbum": {"images": images}}}`. */
  function AlbumAnswer(images: Json): Json
  {
    JObj(map["data" := JObj(map["getAlbum" := JObj(map["images" := images])])])
  }

  /** An answer without errors yields exactly the images it lists, and none
      when the list is null or empty. */
  lemma AlbumAnswerYieldsItsImages(items: seq<Json>)
    ensures AlbumItems(AlbumAnswer(JArr(items))) == Ok(items)
    ensures AlbumItems(AlbumAnswer(JNull)) == Ok([])
  {
    assert Contains(AlbumAnswer(JArr(items)), "errors") == Ok(false);
    assert ImagesField(AlbumAnswer(JArr(items))) == Ok(JArr(items));
    assert ImagesField(AlbumAnswer(JNull)) == Ok(JNull);
  }

  /** `content["data"]["getToken"]["token"]`, the token of a `getToken` answer. */
  function TokenOf(content: Json): (r: Result<Json>)
    ensures r.Ok? <==> content.JObj? && "data" in content.fields
                       && content.fields["data"].JObj? && "getToken" in content.fields["data"].fields
                       && content.fields["data"].fields["getToken"].JObj?
                       && "token" in content.fields["data"].fields["getToken"].fields
    ensures r.Ok? ==> r.value == content.fields["data"].fields["getToken"].fields["token"]
  {
    match Get(content, "data")
    case Err(e) => Err(e)
    case Ok(data) =>
      match Get(data, "getToken")
      case Err(e) => Err(e)
      case Ok(tokens) => Get(tokens, "token")
  }

  /** `{"data": {"getToken": {"token": t}}}`. */
  function TokenAnswer(t: Json): Json
  {
    JObj(map["data" := JObj(map["getToken" := JObj(map["token" := t])])])
  }

  /** The token read back from a `getToken` answer is the token it carries. */
  lemma TokenOfTokenAnswer(t: Json)
    ensures TokenOf(TokenAnswer(t)) == Ok(t)
  {
  }
}
