/** unsee_dl/unsee.py: the image record whose output directory and grouping
    are given on each call instead of at construction. */
module Unsee {
  import opened Values
  import opened Files
  import opened Naming

  /** The parameters of `UnseeImage.__init__` after `self`; only the first has no default. */
  const ConstructorParams: seq<string> := ["album_id", "image_id"]

  /** Whether `UnseeImage(...)` with `positional` positional arguments and the
      keyword arguments `keywords` binds; a call that does not bind raises TypeError. */
  function ConstructorCall(positional: nat, keywords: set<string>): (r: Result<()>)
    ensures r.Ok? <==> Binds(ConstructorParams, 1, positional, keywords)
    ensures r.Err? ==> r.error == TypeError
  {
    if Binds(ConstructorParams, 1, positional, keywords) then Ok(()) else Err(TypeError)
  }

  /** The record accepts its own forms of call, and only those: one or two
      positional arguments, or the id by keyword. */
  lemma ConstructorAcceptsItsSignature()
    ensures ConstructorCall(1, {}).Ok? && ConstructorCall(2, {}).Ok? && ConstructorCall(1, {"image_id"}).Ok?
    ensures ConstructorCall(0, {}).Err? && ConstructorCall(3, {}).Err?
  {
    var noKeywords: set<string> := {};
    assert ConstructorParams[0] !in noKeywords;
  }

  /** `UnseeImage(album_id, out_path=…, group_album=…)` (unsee_dl/unsee_dl.py)
      raises TypeError: the record has no such parameters. */
  lemma KeywordConstructorCallRaises()
    ensures ConstructorCall(1, {"out_path", "group_album"}) == Err(TypeError)
  {
    assert "out_path" !in ConstructorParams[1..];
  }

  /** `UnseeImage(album_id, id, out_path, group_album)` (unsee_dl/unsee_beta.py)
      raises TypeError: four positional arguments for two parameters. */
  lemma FourArgumentConstructorCallRaises()
    ensures ConstructorCall(4, {}) == Err(TypeError)
  {
  }

  /** `UnseeImage(album_id, image_id=None)`. */
  class Image {
    const albumId: string
    var imageId: Json

    constructor (albumId: string, imageId: Json := JNull)
      ensures this.albumId == albumId && this.imageId == imageId
    {
      this.albumId := albumId;
      this.imageId := imageId;
    }

    /** `write_file_from_blob(image_data, out_path=".", group_album=False)`. */
    method WriteFileFromBlob(data: seq<byte>, fs: FileSystem, sha: Hasher, outPath: string := ".", groupAlbum: bool := false)
      returns (r: Result<FilePath>)
      modifies this`imageId, fs`files
      ensures imageId == IdAfterBlob(albumId, old(imageId), sha(data))
      ensures r == BlobFile(albumId, imageId, outPath, groupAlbum, fs.denied)
      ensures fs.files == if r.Ok? then old(fs.files)[r.value := data] else old(fs.files)
    {
      if !Truthy(imageId) {
        var digest := sha(data);
        imageId := JStr(DerivedId(albumId, digest));
      }
      var text := PyText(imageId);
      if text.None? {
        return Err(NotModelled);
      }
      var p := OutputFilePath(outPath, groupAlbum, albumId, BlobBasename(text.value));
      var ok := fs.Open(p);
      if !ok {
        return Err(OSError);
      }
      fs.Append(p, data);
      assert [] + data == data;
      r := Ok(p);
    }

    /** `write_file_from_stream(stream, out_path=".", group_album=False)`. */
    method WriteFileFromStream(stream: ChunkStream, fs: FileSystem, outPath: string := ".", groupAlbum: bool := false)
      returns (r: Result<FilePath>)
      requires stream.Valid()
      modifies stream`pos, fs`files
      ensures stream.Valid()
      ensures r == StreamFile(albumId, imageId, outPath, groupAlbum, fs.denied)
      ensures r.Ok? ==> fs.files == old(fs.files)[r.value := StreamContent(stream.chunks[old(stream.pos)..])]
      ensures r.Ok? ==> stream.pos == old(stream.pos) + Consumed(stream.chunks[old(stream.pos)..])
      ensures r.Err? ==> fs.files == old(fs.files) && stream.pos == old(stream.pos)
    {
      if !Truthy(imageId) {
        return Err(ValueError);
      }
      var text := PyText(imageId);
      if text.None? {
        return Err(NotModelled);
      }
      var p := OutputFilePath(outPath, groupAlbum, albumId, StreamBasename(albumId, text.value));
      var ok := fs.Open(p);
      if !ok {
        return Err(OSError);
      }
      ghost var content := StreamContent(stream.chunks[stream.pos..]);
      CopyStream(stream, fs, p);
      assert [] + content == content;
      r := Ok(p);
    }
  }
}
