/** unsee_co/unsee_co.py: the client of unsee.co, whose album listing is a
    JSON document naming the image uploads. Its image record is imported from
    `unsee_cc.unsee`, which is not part of this model; the record of
    unsee_dl/unsee_old.py, whose constructor takes the same four arguments,
    stands in for it. */
module UnseeCo {
  import opened Values
  import opened Files
  import opened Naming
  import UnseeOld

  const ListingPrefix: string := "https://api.unsee.co/api/v1/getfile/"
  const UploadsPrefix: string := "https://api.unsee.co/api/v1/getfile/uploads/"

  /** The listing URL of an album. */
  function ListingUrl(albumId: string): (u: string)
    ensures |u| == |ListingPrefix| + |albumId|
    ensures u[..|ListingPrefix|] == ListingPrefix && u[|ListingPrefix|..] == albumId
  {
    ListingPrefix + albumId
  }

  /** The image URLs `get_image_urls` yields, in order, and how the generator
      ends: normally, or with the exception it raises after the last of them. */
  datatype Listing = Listing(urls: seq<string>, end: Result<()>)

  predicate IsUploadUrl(u: string)
  {
    |u| >= |UploadsPrefix| && u[..|UploadsPrefix|] == UploadsPrefix
  }

  /** The URLs of the list `otherUrls`, each rendered with `str()`. */
  function RenderAll(items: seq<Json>): (l: Listing)
    ensures forall i :: 0 <= i < |l.urls| ==> IsUploadUrl(l.urls[i])
    ensures |l.urls| <= |items|
    ensures l.end.Ok? ==> |l.urls| == |items|
    ensures forall i :: 0 <= i < |l.urls| ==> PyText(items[i]).Some? && l.urls[i] == UploadsPrefix + PyText(items[i]).value
    decreases |items|
  {
    if items == [] then Listing([], Ok(()))
    else match PyText(items[0])
      case None => Listing([], Err(NotModelled))
      case Some(t) =>
        var rest := RenderAll(items[1..]);
        Listing([UploadsPrefix + t] + rest.urls, rest.end)
  }

  /** The URLs of a string `otherUrls`: one per character. */
  function CharUrls(s: string): (us: seq<string>)
    ensures |us| == |s|
    ensures forall i :: 0 <= i < |s| ==> us[i] == UploadsPrefix + [s[i]] && IsUploadUrl(us[i])
    decreases |s|
  {
    if s == [] then [] else [UploadsPrefix + [s[0]]] + CharUrls(s[1..])
  }

  /** `for url in content["otherUrls"] or []`: a falsy value is no list at
      all; a string is iterated character by character; a number or `True`
      is not iterable. */
  function OtherUrls(other: Json): (l: Listing)
    ensures forall i :: 0 <= i < |l.urls| ==> IsUploadUrl(l.urls[i])
    ensures !Truthy(other) ==> l == Listing([], Ok(()))
  {
    if !Truthy(other) then Listing([], Ok(()))
    else match other
      case JArr(items) => RenderAll(items)
      case JStr(s) => Listing(CharUrls(s), Ok(()))
      case JObj(_) => Listing([], Err(NotModelled))
      case _ => Listing([], Err(TypeError))
  }

  /** `get_image_urls(album_id)` on the decoded listing `content`. The
      "not-found" sentinel, or a listing without "url", yields nothing; the
      main upload is yielded before `otherUrls` is looked up, so a missing
      `otherUrls` ends the generator only after the first image. */
  function ImageUrls(content: Json): (l: Listing)
    ensures forall i :: 0 <= i < |l.urls| ==> IsUploadUrl(l.urls[i])
    ensures Get(content, "url") == Ok(JStr("not-found")) ==> l == Listing([], Err(AlbumNotFound))
    ensures Get(content, "url").Err? ==> l == Listing([], Err(Get(content, "url").error))
    ensures l.urls != [] <==> Get(content, "url").Ok? && Get(content, "url").value != JStr("not-found")
                              && PyText(Get(content, "url").value).Some?
    ensures l.urls != [] ==> l.urls[0] == UploadsPrefix + PyText(Get(content, "url").value).value
  {
    match Get(content, "url")
    case Err(e) => Listing([], Err(e))
    case Ok(u) =>
      if u == JStr("not-found") then Listing([], Err(AlbumNotFound))
      else match PyText(u)
        case None => Listing([], Err(NotModelled))
        case Some(t) =>
          var primary := UploadsPrefix + t;
          match Get(content, "otherUrls")
          case Err(e) => Listing([primary], Err(e))
          case Ok(other) =>
            var rest := OtherUrls(other);
            Listing([primary] + rest.urls, rest.end)
  }

  /** A list of scalar values renders completely. */
  lemma {:induction false} RenderAllOfScalars(items: seq<Json>)
    requires forall i :: 0 <= i < |items| ==> PyText(items[i]).Some?
    ensures RenderAll(items).end == Ok(())
    decreases |items|
  {
    if items != [] {
      assert PyText(items[0]).Some?;
      forall i | 0 <= i < |items[1..]| ensures PyText(items[1..][i]).Some? {
        assert items[1..][i] == items[i + 1];
      }
      RenderAllOfScalars(items[1..]);
    }
  }

  /** A listing whose `otherUrls` is a list of scalars yields the main upload
      and then every one of them, in order, and ends normally. */
  lemma ListingOfScalars(main: string, items: seq<Json>)
    requires main != "not-found"
    requires forall i :: 0 <= i < |items| ==> PyText(items[i]).Some?
    ensures var l := ImageUrls(JObj(map["url" := JStr(main), "otherUrls" := JArr(items)]));
            && l.end == Ok(()) && |l.urls| == |items| + 1 && l.urls[0] == UploadsPrefix + main
            && forall i :: 0 <= i < |items| ==> l.urls[i + 1] == UploadsPrefix + PyText(items[i]).value
  {
    var content := JObj(map["url" := JStr(main), "otherUrls" := JArr(items)]);
    assert Get(content, "url") == Ok(JStr(main));
    assert Get(content, "otherUrls") == Ok(JArr(items));
    RenderAllOfScalars(items);
  }

  /** `get_album_id_from_url`: the path without its leading character on
      unsee.co, otherwise the whole path when there is one. */
  function GetAlbumIdFromUrl(url: Url): (r: Option<string>)
    ensures r.None? <==> url.netloc != "unsee.co" && url.path == ""
    ensures url.netloc == "unsee.co" ==> r == Some(if url.path == "" then "" else url.path[1..])
    ensures url.netloc != "unsee.co" && r.Some? ==> r.value == url.path
  {
    if url.netloc == "unsee.co" then Some(if |url.path| >= 1 then url.path[1..] else "")
    else if |url.path| > 0 then Some(url.path)
    else None
  }

  /** The found id is the path, or the path with one leading character dropped. */
  lemma AlbumIdIsPathSuffix(url: Url)
    requires GetAlbumIdFromUrl(url).Some?
    ensures var id := GetAlbumIdFromUrl(url).value;
            id <= url.path || (|url.path| == |id| + 1 && url.path[1..] == id)
  {
  }

  // ----- saving -----

  /** The record built for the `index`-th URL names its file after the index. */
  function ImageId(index: nat): Json
  {
    JStr(NatToString(index))
  }

  /** Where the `index`-th image of an album is saved, or why the save fails. */
  function Target(albumId: string, outPath: string, groupAlbum: bool, denied: set<FilePath>, index: nat): (r: Result<FilePath>)
    ensures r.Ok? <==> OutputFilePath(outPath, groupAlbum, albumId, StreamBasename(albumId, NatToString(index))) !in denied
    ensures r.Ok? ==> r.value == OutputFilePath(outPath, groupAlbum, albumId, StreamBasename(albumId, NatToString(index)))
    ensures r.Err? ==> r.error == OSError
  {
    StreamFile(albumId, ImageId(index), outPath, groupAlbum, denied)
  }

  /** Distinct indices save to distinct files, so no image of an album
      overwrites another. */
  lemma TargetsDistinct(albumId: string, outPath: string, groupAlbum: bool, denied: set<FilePath>, i: nat, j: nat)
    requires Target(albumId, outPath, groupAlbum, denied, i).Ok? && Target(albumId, outPath, groupAlbum, denied, j).Ok?
    requires i != j
    ensures Target(albumId, outPath, groupAlbum, denied, i).value != Target(albumId, outPath, groupAlbum, denied, j).value
  {
    if Target(albumId, outPath, groupAlbum, denied, i).value == Target(albumId, outPath, groupAlbum, denied, j).value {
      OutputFilePathInjective(outPath, groupAlbum, albumId,
        StreamBasename(albumId, NatToString(i)), StreamBasename(albumId, NatToString(j)));
      StreamBasenameInjective(albumId, NatToString(i), NatToString(j));
      NatToStringInjective(i, j);
    }
  }

  /** The number of images saved before the first one whose file cannot be
      opened, out of the first `n`. */
  function Saved(albumId: string, outPath: string, groupAlbum: bool, denied: set<FilePath>, n: nat): (k: nat)
    ensures k <= n
    ensures forall i :: 0 <= i < k ==> Target(albumId, outPath, groupAlbum, denied, i).Ok?
    ensures k < n ==> Target(albumId, outPath, groupAlbum, denied, k).Err?
  {
    if n == 0 then 0
    else
      var k := Saved(albumId, outPath, groupAlbum, denied, n - 1);
      if k < n - 1 || Target(albumId, outPath, groupAlbum, denied, n - 1).Err? then k else n
  }

  /** The files the first `k` saves write: the `i`-th holds the whole body
      fetched from the `i`-th URL. */
  function Writes(albumId: string, outPath: string, groupAlbum: bool, denied: set<FilePath>, urls: seq<string>,
                  fetch: string -> seq<seq<byte>>, k: nat): (ws: seq<(FilePath, seq<byte>)>)
    requires k <= Saved(albumId, outPath, groupAlbum, denied, |urls|)
    ensures |ws| == k
  {
    seq(k, i requires 0 <= i < k => (Target(albumId, outPath, groupAlbum, denied, i).value, StreamContent(fetch(urls[i]))))
  }

  /** One more save, one more write. */
  lemma WritesSnoc(albumId: string, outPath: string, groupAlbum: bool, denied: set<FilePath>, urls: seq<string>,
                   fetch: string -> seq<seq<byte>>, files: map<FilePath, seq<byte>>, k: nat)
    requires k < Saved(albumId, outPath, groupAlbum, denied, |urls|)
    ensures ApplyWrites(files, Writes(albumId, outPath, groupAlbum, denied, urls, fetch, k + 1))
         == ApplyWrites(files, Writes(albumId, outPath, groupAlbum, denied, urls, fetch, k))
              [Target(albumId, outPath, groupAlbum, denied, k).value := StreamContent(fetch(urls[k]))]
  {
    var ws := Writes(albumId, outPath, groupAlbum, denied, urls, fetch, k);
    var p, data := Target(albumId, outPath, groupAlbum, denied, k).value, StreamContent(fetch(urls[k]));
    assert Writes(albumId, outPath, groupAlbum, denied, urls, fetch, k + 1) == ws + [(p, data)];
    ApplyWritesSnoc(files, ws, p, data);
  }

  /** How `download_album` ends: with the first failed save, or else as the
      URL generator ends. */
  function Outcome(albumId: string, outPath: string, groupAlbum: bool, denied: set<FilePath>, l: Listing): (r: Result<()>)
    ensures Saved(albumId, outPath, groupAlbum, denied, |l.urls|) < |l.urls| ==> r == Err(OSError)
    ensures Saved(albumId, outPath, groupAlbum, denied, |l.urls|) == |l.urls| ==> r == l.end
  {
    var k := Saved(albumId, outPath, groupAlbum, denied, |l.urls|);
    if k < |l.urls| then Err(Target(albumId, outPath, groupAlbum, denied, k).error) else l.end
  }

  /** Every image saved keeps the body it was fetched with: a later save of
      the same album never writes over it. */
  lemma SavedImagesKept(albumId: string, outPath: string, groupAlbum: bool, denied: set<FilePath>, urls: seq<string>,
                        fetch: string -> seq<seq<byte>>, files: map<FilePath, seq<byte>>, i: nat)
    requires i < Saved(albumId, outPath, groupAlbum, denied, |urls|)
    ensures var ws := Writes(albumId, outPath, groupAlbum, denied, urls, fetch, Saved(albumId, outPath, groupAlbum, denied, |urls|));
            var p := Target(albumId, outPath, groupAlbum, denied, i).value;
            p in ApplyWrites(files, ws) && ApplyWrites(files, ws)[p] == StreamContent(fetch(urls[i]))
  {
    var k := Saved(albumId, outPath, groupAlbum, denied, |urls|);
    var ws := Writes(albumId, outPath, groupAlbum, denied, urls, fetch, k);
    forall j | i < j < |ws| ensures ws[j].0 != ws[i].0 {
      TargetsDistinct(albumId, outPath, groupAlbum, denied, i, j);
    }
    ApplyWritesLastWins(files, ws, i);
  }

  /** `UnseeCo(session=None, out_path=".", group_album=True)`. */
  class Client {
    const outPath: string
    const groupAlbum: bool

    constructor (outPath: string := ".", groupAlbum: bool := true)
      ensures this.outPath == outPath && this.groupAlbum == groupAlbum
    {
      this.outPath := outPath;
      this.groupAlbum := groupAlbum;
    }

    /** `download_album(album_id)`, given what the server answers: `getJson`
        the decoded document at a URL, `fetch` the body chunks at a URL. The
        `index`-th image URL is saved by a record with id `str(index)`, and
        the first failure ends the album. */
    method DownloadAlbum(albumId: string, getJson: string -> Json, fetch: string -> seq<seq<byte>>, fs: FileSystem)
      returns (status: Result<()>)
      modifies fs`files
      ensures var urls := ImageUrls(getJson(ListingUrl(albumId)));
              && status == Outcome(albumId, outPath, groupAlbum, fs.denied, urls)
              && fs.files == ApplyWrites(old(fs.files), Writes(albumId, outPath, groupAlbum, fs.denied, urls.urls, fetch,
                                                              Saved(albumId, outPath, groupAlbum, fs.denied, |urls.urls|)))
    {
      var listing := ImageUrls(getJson(ListingUrl(albumId)));
      status := SaveAll(albumId, listing, fetch, fs);
    }

    /** The loop of `download_album` over the yielded URLs. */
    method SaveAll(albumId: string, listing: Listing, fetch: string -> seq<seq<byte>>, fs: FileSystem)
      returns (status: Result<()>)
      modifies fs`files
      ensures status == Outcome(albumId, outPath, groupAlbum, fs.denied, listing)
      ensures fs.files == ApplyWrites(old(fs.files), Writes(albumId, outPath, groupAlbum, fs.denied, listing.urls, fetch,
                                                          Saved(albumId, outPath, groupAlbum, fs.denied, |listing.urls|)))
    {
      ghost var k := Saved(albumId, outPath, groupAlbum, fs.denied, |listing.urls|);
      assert Writes(albumId, outPath, groupAlbum, fs.denied, listing.urls, fetch, 0) == [];
      var index := 0;
      while index < |listing.urls|
        invariant index <= k
        invariant fs.files == ApplyWrites(old(fs.files), Writes(albumId, outPath, groupAlbum, fs.denied, listing.urls, fetch, index))
      {
        ghost var before := fs.files;
        var r := SaveImage(albumId, index, listing.urls[index], fetch, fs);
        if r.Err? {
          return r;
        }
        WritesSnoc(albumId, outPath, groupAlbum, fs.denied, listing.urls, fetch, old(fs.files), index);
        index := index + 1;
      }
      status := listing.end;
    }

    /** `UnseeImage(album_id, f"{index}", out_path, group_album)` and
        `_download_and_save_image` for one URL. */
    method SaveImage(albumId: string, index: nat, url: string, fetch: string -> seq<seq<byte>>, fs: FileSystem)
      returns (r: Result<()>)
      modifies fs`files
      ensures var t := Target(albumId, outPath, groupAlbum, fs.denied, index);
              && (r.Ok? <==> t.Ok?)
              && (r.Err? ==> r.error == t.error && fs.files == old(fs.files))
              && (r.Ok? ==> fs.files == old(fs.files)[t.value := StreamContent(fetch(url))])
    {
      var image := new UnseeOld.Image(albumId, ImageId(index), outPath, groupAlbum);
      var stream := new ChunkStream(fetch(url));
      assert stream.chunks[0..] == stream.chunks;
      var written := image.WriteFileFromStream(stream, fs);
      if written.Err? {
        return Err(written.error);
      }
      r := Ok(());
    }
  }
}
