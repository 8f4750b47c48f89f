/** unsee_dl/unsee_old.py: the image record that keeps its output settings,
    and the client of the old websocket site (pub/sub, then imgpush). */
module UnseeOld {
  import opened Values
  import opened Files
  import opened Naming
  import opened SocketProtocol

  /** `UnseeImage(album_id, image_id=None, out_path=".", group_album=False)`. */
  class Image {
    const albumId: string
    var imageId: Json
    const outPath: string
    const groupAlbum: bool

    constructor (albumId: string, imageId: Json := JNull, outPath: string := ".", groupAlbum: bool := false)
      ensures this.albumId == albumId && this.imageId == imageId
      ensures this.outPath == outPath && this.groupAlbum == groupAlbum
    {
      this.albumId := albumId;
      this.imageId := imageId;
      this.outPath := outPath;
      this.groupAlbum := groupAlbum;
    }

    /** `write_file_from_blob`: derives the id when it is falsy, then writes
        the blob to `{image_id}.jpg`. */
    method WriteFileFromBlob(data: seq<byte>, fs: FileSystem, sha: Hasher) returns (r: Result<FilePath>)
      modifies this`imageId, fs`files
      ensures imageId == IdAfterBlob(albumId, old(imageId), sha(data))
      ensures r == BlobFile(albumId, imageId, outPath, groupAlbum, fs.denied)
      ensures fs.files == if r.Ok? then old(fs.files)[r.value := data] else old(fs.files)
    {
      if !Truthy(imageId) {
        var digest := sha(data);
        imageId := JStr(DerivedId(albumId, digest));
      }
      var text := PyText(imageId);
      if text.None? {
        return Err(NotModelled);
      }
      var p := OutputFilePath(outPath, groupAlbum, albumId, BlobBasename(text.value));
      var ok := fs.Open(p);
      if !ok {
        return Err(OSError);
      }
      fs.Append(p, data);
      assert [] + data == data;
      r := Ok(p);
    }

    /** `write_file_from_stream`: raises ValueError without an id, otherwise
        copies the stream into `{album_id}_{image_id}.jpg`. */
    method WriteFileFromStream(stream: ChunkStream, fs: FileSystem) returns (r: Result<FilePath>)
      requires stream.Valid()
      modifies stream`pos, fs`files
      ensures stream.Valid()
      ensures r == StreamFile(albumId, imageId, outPath, groupAlbum, fs.denied)
      ensures r.Ok? ==> fs.files == old(fs.files)[r.value := StreamContent(stream.chunks[old(stream.pos)..])]
      ensures r.Ok? ==> stream.pos == old(stream.pos) + Consumed(stream.chunks[old(stream.pos)..])
      ensures r.Err? ==> fs.files == old(fs.files) && stream.pos == old(stream.pos)
    {
      if !Truthy(imageId) {
        return Err(ValueError);
      }
      var text := PyText(imageId);
      if text.None? {
        return Err(NotModelled);
      }
      var p := OutputFilePath(outPath, groupAlbum, albumId, StreamBasename(albumId, text.value));
      var ok := fs.Open(p);
      if !ok {
        return Err(OSError);
      }
      ghost var content := StreamContent(stream.chunks[stream.pos..]);
      CopyStream(stream, fs, p);
      assert [] + content == content;
      r := Ok(p);
    }
  }

  /** One imgpush payload of the old client. `len(data.data)` runs outside
      the `try`, and the `data` of an ERROR message is an exception, so an
      ERROR ends the album with TypeError. A TEXT payload makes `sha256`
      raise TypeError inside the `try`. A BINARY payload is written under
      its derived id unless the open fails. */
  function OldHandled(albumId: string, outPath: string, groupAlbum: bool, sha: Hasher, denied: set<FilePath>,
                      m: WsMessage<seq<byte>>): Handled
  {
    match m
    case WsError => Fatal(TypeError)
    case WsText(_) => Swallowed
    case WsBinary(data) =>
      var id := DerivedId(albumId, sha(data));
      match BlobFile(albumId, JStr(id), outPath, groupAlbum, denied)
      case Ok(p) => Written(id, p, data)
      case Err(_) => Swallowed
  }

  function OldHandles(albumId: string, outPath: string, groupAlbum: bool, sha: Hasher, denied: set<FilePath>,
                      msgs: seq<WsMessage<seq<byte>>>): (hs: seq<Handled>)
    ensures |hs| == |msgs|
    ensures forall i :: 0 <= i < |msgs| ==> hs[i] == OldHandled(albumId, outPath, groupAlbum, sha, denied, msgs[i])
  {
    seq(|msgs|, i requires 0 <= i < |msgs| => OldHandled(albumId, outPath, groupAlbum, sha, denied, msgs[i]))
  }

  /** Each written payload is a file named after its own derived id, holding
      exactly the payload. */
  lemma OldWrittenIsDerivedBlob(albumId: string, outPath: string, groupAlbum: bool, sha: Hasher, denied: set<FilePath>,
                                m: WsMessage<seq<byte>>)
    requires OldHandled(albumId, outPath, groupAlbum, sha, denied, m).Written?
    ensures m.WsBinary?
    ensures var h := OldHandled(albumId, outPath, groupAlbum, sha, denied, m);
            && h.imageId == DerivedId(albumId, sha(m.data))
            && h.path == OutputFilePath(outPath, groupAlbum, albumId, h.imageId + ".jpg")
            && h.path !in denied && h.data == m.data
  {
  }

  /** `ClientOld(session=None, out_path=".", group_album=True)`. */
  class ClientOld {
    const outPath: string
    const groupAlbum: bool

    constructor (outPath: string := ".", groupAlbum: bool := true)
      ensures this.outPath == outPath && this.groupAlbum == groupAlbum
    {
      this.outPath := outPath;
      this.groupAlbum := groupAlbum;
    }

    /** `download_album`, given what the three channels deliver: the
        settings document, the pub/sub messages and the imgpush messages. */
    method DownloadAlbum(albumId: string, settings: Json, pubsub: seq<WsMessage<Json>>,
                         imgpush: seq<WsMessage<seq<byte>>>, fs: FileSystem, sha: Hasher)
      returns (report: AlbumReport)
      modifies fs`files
      ensures report == SocketAlbum(true, albumId, settings, Collect(pubsub),
                                    OldHandles(albumId, outPath, groupAlbum, sha, fs.denied, imgpush))
      ensures fs.files == ApplyWrites(old(fs.files),
                            WritesOf(OldHandles(albumId, outPath, groupAlbum, sha, fs.denied, imgpush)[..Pushed(report)]))
    {
      ghost var hs := OldHandles(albumId, outPath, groupAlbum, sha, fs.denied, imgpush);
      assert hs[..0] == [];
      var manifest, status := PubSub(pubsub);
      if status.Err? {
        return AlbumReport(manifest, None, None, status);
      }
      var notice := AlbumNotice(settings, albumId, |manifest|);
      if notice.Err? {
        return AlbumReport(manifest, None, None, Err(notice.error));
      }
      if |manifest| <= 0 {
        return AlbumReport(manifest, Some(notice.value), None, Ok(()));
      }
      var pushed := ImgPush(albumId, manifest, imgpush, fs, sha);
      report := AlbumReport(manifest, Some(notice.value), Some(pushed), pushed.status);
    }

    /** The imgpush loop of `download_album`: each payload is handled inside
        the `try`, and the channel is closed once the manifest is empty. */
    method ImgPush(albumId: string, manifest: seq<Json>, imgpush: seq<WsMessage<seq<byte>>>, fs: FileSystem, sha: Hasher)
      returns (pushed: Reconciled)
      requires manifest != []
      modifies fs`files
      ensures pushed == Run(manifest, OldHandles(albumId, outPath, groupAlbum, sha, fs.denied, imgpush))
      ensures fs.files == ApplyWrites(old(fs.files),
                            WritesOf(OldHandles(albumId, outPath, groupAlbum, sha, fs.denied, imgpush)[..pushed.consumed]))
    {
      ghost var hs := OldHandles(albumId, outPath, groupAlbum, sha, fs.denied, imgpush);
      assert hs[..0] == [];
      var remaining := manifest;
      var i := 0;
      var closed := false;
      while i < |imgpush| && !closed
        invariant i <= |imgpush|
        invariant closed ==> remaining == [] && Run(manifest, hs) == Reconciled([], i, true, Ok(()))
        invariant !closed ==> remaining != [] && Run(manifest, hs) == Shifted(Run(remaining, hs[i..]), i)
        invariant fs.files == ApplyWrites(old(fs.files), WritesOf(hs[..i]))
      {
        RunAt(remaining, hs, i);
        ApplyHandled(old(fs.files), hs, i);
        if imgpush[i].WsError? {
          return Reconciled(remaining, i + 1, false, Err(TypeError));
        }
        remaining := HandlePayload(albumId, remaining, imgpush[i], fs, sha);
        i := i + 1;
        if |remaining| <= 0 {
          closed := true;
        }
      }
      pushed := Reconciled(remaining, i, closed, Ok(()));
    }

    /** The body of the `try` for one payload that is not an ERROR message. */
    method HandlePayload(albumId: string, remaining: seq<Json>, m: WsMessage<seq<byte>>, fs: FileSystem, sha: Hasher)
      returns (next: seq<Json>)
      requires !m.WsError?
      modifies fs`files
      ensures var h := OldHandled(albumId, outPath, groupAlbum, sha, fs.denied, m);
              && next == Step(remaining, h)
              && fs.files == if h.Written? then old(fs.files)[h.path := h.data] else old(fs.files)
    {
      next := remaining;
      if m.WsBinary? {
        var image := new Image(albumId, JNull, outPath, groupAlbum);
        var written := image.WriteFileFromBlob(m.data, fs, sha);
        if written.Ok? {
          var found := FirstWhere(IdIs(image.imageId.s), remaining);
          if found.Ok? && found.value.Some? {
            var removed := ListRemove(remaining, remaining[found.value.value]);
            if removed.Ok? {
              next := removed.value;
            }
          }
        }
      }
    }
  }

  /** A payload that cannot be written (its open fails) still counts as
      taken, but crosses nothing off: the album goes on with the next one. */
  lemma FailedWriteKeepsManifest(albumId: string, outPath: string, groupAlbum: bool, sha: Hasher, denied: set<FilePath>,
                                 manifest: seq<Json>, data: seq<byte>)
    requires OutputFilePath(outPath, groupAlbum, albumId, BlobBasename(DerivedId(albumId, sha(data)))) in denied
    ensures Step(manifest, OldHandled(albumId, outPath, groupAlbum, sha, denied, WsBinary(data))) == manifest
  {
  }
}
