/** unsee_dl/unsee_beta.py: the client of the beta GraphQL site. It builds
    its image records with the record of unsee_dl/unsee.py, passing four
    positional arguments to a constructor that takes two, so the first image
    of a non-empty album raises TypeError and nothing is ever saved. */
module UnseeBeta {
  import opened Values
  import opened Graphql
  import Unsee

  const GraphqlUrl: string := "https://api3.unsee.cc/graphql"
  const Referrer: string := "https://beta.unsee.cc/"

  /** The `getToken` request of `anonymous_login`: no variables, no header. */
  function LoginRequest(): Request
  {
    Request(GraphqlUrl, "getToken", JObj(map[]), None)
  }

  /** The `getAlbum` request for an album. */
  function AlbumRequest(albumId: string, authorization: string): Request
  {
    Request(GraphqlUrl, "getAlbum", JObj(map["chat" := JStr(albumId)]), Some(authorization))
  }

  /** The `getSessions` request of `_create_session`. */
  function SessionsRequest(albumId: string, authorization: string): Request
  {
    Request(GraphqlUrl, "getSessions", JObj(map["filter" := JObj(map["chat" := JStr(albumId)])]), Some(authorization))
  }

  /** The `sessionCreate` request of `_create_session`. */
  function SessionCreateRequest(albumId: string, authorization: string): Request
  {
    Request(GraphqlUrl, "sessionCreate",
            JObj(map["input" := JObj(map["chat" := JStr(albumId), "referrer" := JStr(Referrer)])]), Some(authorization))
  }

  /** How `download_album` ends on the yielded images: with nothing to do
      when there are none; otherwise at the first image, whose `["id"]`
      lookup or record construction raises. */
  function BetaOutcome(items: Result<seq<Json>>): (r: Result<()>)
    ensures items.Err? ==> r == Err(items.error)
    ensures items.Ok? ==> (r.Ok? <==> items.value == [])
    ensures items.Ok? && items.value != [] && Get(items.value[0], "id").Ok? ==> r == Err(TypeError)
  {
    match items
    case Err(e) => Err(e)
    case Ok(images) =>
      if images == [] then Ok(())
      else match Get(images[0], "id")
        case Err(e) => Err(e)
        case Ok(_) => Unsee.ConstructorCall(4, {})
  }

  /** The beta client downloads nothing: an album either has no images and
      returns normally, or raises at its first image. */
  lemma BetaNeverSaves(items: seq<Json>)
    ensures BetaOutcome(Ok(items)).Ok? <==> items == []
    ensures items != [] ==> BetaOutcome(Ok(items)).Err?
  {
    Unsee.FourArgumentConstructorCallRaises();
  }

  /** `Client(session=None, out_path=".", group_album=True)`; the token starts as None. */
  class Client {
    const outPath: string
    const groupAlbum: bool
    var token: Json

    constructor (outPath: string := ".", groupAlbum: bool := true)
      ensures this.outPath == outPath && this.groupAlbum == groupAlbum && token == JNull
    {
      this.outPath := outPath;
      this.groupAlbum := groupAlbum;
      token := JNull;
    }

    /** `anonymous_login`: posts `getToken` and keeps the token of the
        answer; a malformed answer raises and leaves the token as it was. */
    method AnonymousLogin(post: Request -> Json) returns (status: Result<()>)
      modifies this`token
      ensures var t := TokenOf(post(LoginRequest()));
              && (status.Ok? <==> t.Ok?)
              && (t.Err? ==> status == Err(t.error) && token == old(token))
              && (t.Ok? ==> token == t.value)
    {
      var content := post(LoginRequest());
      var tokens := TokenOf(content);
      if tokens.Err? {
        return Err(tokens.error);
      }
      token := tokens.value;
      status := Ok(());
    }

    /** `_create_session` (its only call is commented out): `getSessions`,
        then `sessionCreate` only if the first answer has no errors. Returns
        the requests posted, in order. */
    method CreateSession(albumId: string, post: Request -> Json) returns (sent: seq<Request>, status: Result<()>)
      ensures BearerHeader(token).Err? ==> sent == [] && status == Err(BearerHeader(token).error)
      ensures BearerHeader(token).Ok? ==> |sent| >= 1 && sent[0] == SessionsRequest(albumId, BearerHeader(token).value)
      ensures |sent| == 2 <==> BearerHeader(token).Ok? && CheckErrors(post(sent[0])).Ok?
      ensures |sent| == 2 ==>
                sent[1] == SessionCreateRequest(albumId, BearerHeader(token).value) && status == CheckErrors(post(sent[1]))
      ensures |sent| == 1 ==> status == CheckErrors(post(sent[0])) && status.Err?
      ensures |sent| <= 2
    {
      var header := BearerHeader(token);
      if header.Err? {
        return [], Err(header.error);
      }
      var first := SessionsRequest(albumId, header.value);
      sent := [first];
      status := CheckErrors(post(first));
      if status.Err? {
        return;
      }
      var second := SessionCreateRequest(albumId, header.value);
      sent := sent + [second];
      status := CheckErrors(post(second));
    }

    /** `download_album(album_id)`, given the server's answers `post`. The
        loop of the source never passes its first image. */
    method DownloadAlbum(albumId: string, post: Request -> Json) returns (status: Result<()>)
      ensures BearerHeader(token).Err? ==> status == Err(BearerHeader(token).error)
      ensures BearerHeader(token).Ok? ==> status == BetaOutcome(AlbumItems(post(AlbumRequest(albumId, BearerHeader(token).value))))
    {
      var header := BearerHeader(token);
      if header.Err? {
        return Err(header.error);
      }
      var items := AlbumItems(post(AlbumRequest(albumId, header.value)));
      if items.Err? {
        return Err(items.error);
      }
      if |items.value| == 0 {
        return Ok(());
      }
      var id := Get(items.value[0], "id");
      if id.Err? {
        return Err(id.error);
      }
      Unsee.FourArgumentConstructorCallRaises();
      status := Err(TypeError);
    }
  }
}
