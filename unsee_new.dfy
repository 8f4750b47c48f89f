/** unsee_dl/unsee_new.py: the client of the current unsee.cc site. It logs
    in per album over HTTP, asks the GraphQL endpoint for the album's images
    and saves each, in list order, with the record of unsee_dl/unsee_old.py
    as `{album_id}_{id}.jpg`. Nothing isolates one image from the next: the
    first failure ends the album. */
module UnseeNew {
  import opened Values
  import opened Files
  import opened Naming
  import opened Graphql
  import UnseeOld

  const BaseUrl: string := "https://unsee.cc"

  /** `f"{_BASE_URL}/auth?chat={album_id}"`. */
  function AuthUrl(albumId: string): (u: string)
    ensures |u| == |BaseUrl| + 11 + |albumId|
    ensures u[..|BaseUrl| + 11] == BaseUrl + "/auth?chat=" && u[|BaseUrl| + 11..] == albumId
  {
    BaseUrl + "/auth?chat=" + albumId
  }

  const GraphqlUrl: string := BaseUrl + "/graphql"

  /** The `getAlbum` request for an album. */
  function AlbumRequest(albumId: string, authorization: string): Request
  {
    Request(GraphqlUrl, "getAlbum", JObj(map["chat" := JStr(albumId)]), Some(authorization))
  }

  /** The record id and the download URL of one yielded image, or the
      exception computing them raises: `album_image["id"]` is looked up
      first, then `_BASE_URL + "/" + album_image["urlBig"]`, which needs a
      string. */
  function Source(image: Json): (r: Result<(Json, string)>)
    ensures r.Ok? <==> Get(image, "id").Ok? && Get(image, "urlBig").Ok? && Get(image, "urlBig").value.JStr?
    ensures r.Ok? ==> r.value.0 == Get(image, "id").value
                      && r.value.1 == BaseUrl + "/" + Get(image, "urlBig").value.s
    ensures Get(image, "id").Err? ==> r == Err(Get(image, "id").error)
  {
    match Get(image, "id")
    case Err(e) => Err(e)
    case Ok(id) =>
      match Get(image, "urlBig")
      case Err(e) => Err(e)
      case Ok(big) => if big.JStr? then Ok((id, BaseUrl + "/" + big.s)) else Err(TypeError)
  }

  /** Where one image is saved and the URL it is fetched from, or why it fails. */
  function Target(albumId: string, outPath: string, groupAlbum: bool, denied: set<FilePath>, image: Json): (r: Result<(FilePath, string)>)
    ensures r.Ok? ==> Source(image).Ok? && r.value.1 == Source(image).value.1
    ensures r.Ok? ==> Truthy(Source(image).value.0) && PyText(Source(image).value.0).Some?
    ensures r.Ok? ==> r.value.0 == OutputFilePath(outPath, groupAlbum, albumId,
                                     StreamBasename(albumId, PyText(Source(image).value.0).value))
    ensures Source(image).Ok? && !Truthy(Source(image).value.0) ==> r == Err(ValueError)
  {
    match Source(image)
    case Err(e) => Err(e)
    case Ok((id, url)) =>
      match StreamFile(albumId, id, outPath, groupAlbum, denied)
      case Err(e) => Err(e)
      case Ok(p) => Ok((p, url))
  }

  /** The number of images saved before the first failure. */
  function Saved(albumId: string, outPath: string, groupAlbum: bool, denied: set<FilePath>, images: seq<Json>): (k: nat)
    ensures k <= |images|
    ensures forall i :: 0 <= i < k ==> Target(albumId, outPath, groupAlbum, denied, images[i]).Ok?
    ensures k < |images| ==> Target(albumId, outPath, groupAlbum, denied, images[k]).Err?
    decreases |images|
  {
    if images == [] || Target(albumId, outPath, groupAlbum, denied, images[0]).Err? then 0
    else
      var k := Saved(albumId, outPath, groupAlbum, denied, images[1..]);
      assert forall i :: 0 <= i < k ==> images[1..][i] == images[i + 1];
      1 + k
  }

  /** The files the first `k` images write, in list order: each holds the
      whole body fetched from its URL. */
  function Writes(albumId: string, outPath: string, groupAlbum: bool, denied: set<FilePath>, images: seq<Json>,
                  fetch: string -> seq<seq<byte>>, k: nat): (ws: seq<(FilePath, seq<byte>)>)
    requires k <= Saved(albumId, outPath, groupAlbum, denied, images)
    ensures |ws| == k
  {
    seq(k, i requires 0 <= i < k =>
      var t := Target(albumId, outPath, groupAlbum, denied, images[i]).value;
      (t.0, StreamContent(fetch(t.1))))
  }

  /** How the album ends on its yielded images. */
  function Outcome(albumId: string, outPath: string, groupAlbum: bool, denied: set<FilePath>, images: seq<Json>): (r: Result<()>)
    ensures r.Ok? <==> Saved(albumId, outPath, groupAlbum, denied, images) == |images|
  {
    var k := Saved(albumId, outPath, groupAlbum, denied, images);
    if k < |images| then Err(Target(albumId, outPath, groupAlbum, denied, images[k]).error) else Ok(())
  }

  /** One more image saved, one more write. */
  lemma WritesSnoc(albumId: string, outPath: string, groupAlbum: bool, denied: set<FilePath>, images: seq<Json>,
                   fetch: string -> seq<seq<byte>>, files: map<FilePath, seq<byte>>, k: nat)
    requires k < Saved(albumId, outPath, groupAlbum, denied, images)
    ensures var t := Target(albumId, outPath, groupAlbum, denied, images[k]).value;
            ApplyWrites(files, Writes(albumId, outPath, groupAlbum, denied, images, fetch, k + 1))
              == ApplyWrites(files, Writes(albumId, outPath, groupAlbum, denied, images, fetch, k))[t.0 := StreamContent(fetch(t.1))]
  {
    var ws := Writes(albumId, outPath, groupAlbum, denied, images, fetch, k);
    var t := Target(albumId, outPath, groupAlbum, denied, images[k]).value;
    assert Writes(albumId, outPath, groupAlbum, denied, images, fetch, k + 1) == ws + [(t.0, StreamContent(fetch(t.1)))];
    ApplyWritesSnoc(files, ws, t.0, StreamContent(fetch(t.1)));
  }

  /** When the saved images carry ids with distinct renderings, every one of
      them keeps the body it was fetched with. */
  lemma SavedImagesKept(albumId: string, outPath: string, groupAlbum: bool, denied: set<FilePath>, images: seq<Json>,
                        fetch: string -> seq<seq<byte>>, files: map<FilePath, seq<byte>>, i: nat)
    requires i < Saved(albumId, outPath, groupAlbum, denied, images)
    requires forall a, b :: 0 <= a < b < Saved(albumId, outPath, groupAlbum, denied, images) ==>
               PyText(Source(images[a]).value.0) != PyText(Source(images[b]).value.0)
    ensures var ws := Writes(albumId, outPath, groupAlbum, denied, images, fetch, Saved(albumId, outPath, groupAlbum, denied, images));
            var t := Target(albumId, outPath, groupAlbum, denied, images[i]).value;
            t.0 in ApplyWrites(files, ws) && ApplyWrites(files, ws)[t.0] == StreamContent(fetch(t.1))
  {
    var k := Saved(albumId, outPath, groupAlbum, denied, images);
    var ws := Writes(albumId, outPath, groupAlbum, denied, images, fetch, k);
    forall j | i < j < |ws| ensures ws[j].0 != ws[i].0 {
      var ti := Target(albumId, outPath, groupAlbum, denied, images[i]).value;
      var tj := Target(albumId, outPath, groupAlbum, denied, images[j]).value;
      var idi, idj := PyText(Source(images[i]).value.0).value, PyText(Source(images[j]).value.0).value;
      if ti.0 == tj.0 {
        OutputFilePathInjective(outPath, groupAlbum, albumId, StreamBasename(albumId, idi), StreamBasename(albumId, idj));
        StreamBasenameInjective(albumId, idi, idj);
        assert false;
      }
    }
    ApplyWritesLastWins(files, ws, i);
  }

  /** `Client(session=None, out_path=".", group_album=True)`; the token starts as None. */
  class Client {
    const outPath: string
    const groupAlbum: bool
    var token: Json

    constructor (outPath: string := ".", groupAlbum: bool := true)
      ensures this.outPath == outPath && this.groupAlbum == groupAlbum && token == JNull
    {
      this.outPath := outPath;
      this.groupAlbum := groupAlbum;
      token := JNull;
    }

    /** `anonymous_login(album_id)`: GETs the album's auth URL and keeps its
        `token`; a malformed answer raises and leaves the token as it was. */
    method AnonymousLogin(albumId: string, getJson: string -> Json) returns (status: Result<()>)
      modifies this`token
      ensures var t := Get(getJson(AuthUrl(albumId)), "token");
              && (status.Ok? <==> t.Ok?)
              && (t.Err? ==> status == Err(t.error) && token == old(token))
              && (t.Ok? ==> token == t.value)
    {
      var content := getJson(AuthUrl(albumId));
      var t := Get(content, "token");
      if t.Err? {
        return Err(t.error);
      }
      token := t.value;
      status := Ok(());
    }

    /** `download_album(album_id)`, given the server's answers: `post` for
        the GraphQL request, `fetch` for each image URL. */
    method DownloadAlbum(albumId: string, post: Request -> Json, fetch: string -> seq<seq<byte>>, fs: FileSystem)
      returns (status: Result<()>)
      modifies fs`files
      ensures BearerHeader(token).Err? ==> status == Err(BearerHeader(token).error) && fs.files == old(fs.files)
      ensures BearerHeader(token).Ok? ==>
                var items := AlbumItems(post(AlbumRequest(albumId, BearerHeader(token).value)));
                && (items.Err? ==> status == Err(items.error) && fs.files == old(fs.files))
                && (items.Ok? ==> status == Outcome(albumId, outPath, groupAlbum, fs.denied, items.value)
                                  && fs.files == ApplyWrites(old(fs.files),
                                       Writes(albumId, outPath, groupAlbum, fs.denied, items.value, fetch,
                                              Saved(albumId, outPath, groupAlbum, fs.denied, items.value))))
    {
      var header := BearerHeader(token);
      if header.Err? {
        return Err(header.error);
      }
      var items := AlbumItems(post(AlbumRequest(albumId, header.value)));
      if items.Err? {
        return Err(items.error);
      }
      status := SaveAll(albumId, items.value, fetch, fs);
    }

    /** The loop of `download_album` over the yielded images. */
    method SaveAll(albumId: string, images: seq<Json>, fetch: string -> seq<seq<byte>>, fs: FileSystem)
      returns (status: Result<()>)
      modifies fs`files
      ensures status == Outcome(albumId, outPath, groupAlbum, fs.denied, images)
      ensures fs.files == ApplyWrites(old(fs.files), Writes(albumId, outPath, groupAlbum, fs.denied, images, fetch,
                                                          Saved(albumId, outPath, groupAlbum, fs.denied, images)))
    {
      ghost var k := Saved(albumId, outPath, groupAlbum, fs.denied, images);
      assert Writes(albumId, outPath, groupAlbum, fs.denied, images, fetch, 0) == [];
      var i := 0;
      while i < |images|
        invariant i <= k
        invariant fs.files == ApplyWrites(old(fs.files), Writes(albumId, outPath, groupAlbum, fs.denied, images, fetch, i))
      {
        var r := SaveImage(albumId, images[i], fetch, fs);
        if r.Err? {
          return r;
        }
        WritesSnoc(albumId, outPath, groupAlbum, fs.denied, images, fetch, old(fs.files), i);
        i := i + 1;
      }
      status := Ok(());
    }

    /** One turn of the loop: the record `UnseeImage(album_id, image["id"],
        out_path, group_album)`, the URL, the GET and the stream write. */
    method SaveImage(albumId: string, image: Json, fetch: string -> seq<seq<byte>>, fs: FileSystem)
      returns (r: Result<()>)
      modifies fs`files
      ensures var t := Target(albumId, outPath, groupAlbum, fs.denied, image);
              && (r.Ok? <==> t.Ok?)
              && (r.Err? ==> r.error == t.error && fs.files == old(fs.files))
              && (r.Ok? ==> fs.files == old(fs.files)[t.value.0 := StreamContent(fetch(t.value.1))])
    {
      var id := Get(image, "id");
      if id.Err? {
        return Err(id.error);
      }
      var record := new UnseeOld.Image(albumId, id.value, outPath, groupAlbum);
      var big := Get(image, "urlBig");
      if big.Err? {
        return Err(big.error);
      }
      if !big.value.JStr? {
        return Err(TypeError);
      }
      var url := BaseUrl + "/" + big.value.s;
      var stream := new ChunkStream(fetch(url));
      assert stream.chunks[0..] == stream.chunks;
      var written := record.WriteFileFromStream(stream, fs);
      if written.Err? {
        return Err(written.error);
      }
      r := Ok(());
    }
  }
}
