/** How an image record names its file: the id derived from the content
    hash, the two basename forms and the output path under `out_path`. */
module Naming {
  import opened Values
  import opened Files

  predicate IsHexDigit(c: char)
  {
    '0' <= c <= '9' || 'a' <= c <= 'f'
  }

  /** `sha256(data).hexdigest()`: 64 lower-case hexadecimal characters. */
  type HexDigest = s: string | |s| == 64 && forall i :: 0 <= i < |s| ==> IsHexDigit(s[i])
    witness seq(64, _ => '0')

  /** SHA-256 is taken as given: any function from bytes to a digest. */
  type Hasher = seq<byte> -> HexDigest

  /** `"{}_{}".format(album_id, digest[:16])`. */
  function DerivedId(albumId: string, digest: HexDigest): (id: string)
    ensures |id| == |albumId| + 17
    ensures id[..|albumId|] == albumId && id[|albumId|] == '_'
    ensures forall i :: |albumId| < i < |id| ==> IsHexDigit(id[i])
  {
    albumId + "_" + digest[..16]
  }

  /** Two payloads of one album get the same derived id exactly when their
      digests agree on the first 16 characters. */
  lemma DerivedIdCollision(albumId: string, d1: HexDigest, d2: HexDigest)
    ensures DerivedId(albumId, d1) == DerivedId(albumId, d2) <==> d1[..16] == d2[..16]
  {
    if DerivedId(albumId, d1) == DerivedId(albumId, d2) {
      assert d1[..16] == DerivedId(albumId, d1)[|albumId| + 1..];
      assert d2[..16] == DerivedId(albumId, d2)[|albumId| + 1..];
    }
  }

  /** `"{}.jpg".format(image_id)`, the name of a file written from a blob. */
  function BlobBasename(imageId: string): string
  {
    imageId + ".jpg"
  }

  /** `"{}_{}.jpg".format(album_id, image_id)`, the name of a file written from a stream. */
  function StreamBasename(albumId: string, imageId: string): string
  {
    albumId + "_" + imageId + ".jpg"
  }

  /** `_get_output_file_path`: `out_path`, then the album id when grouping, then the basename. */
  function OutputFilePath(outPath: string, groupAlbum: bool, albumId: string, basename: string): (p: FilePath)
    ensures p.root == outPath && |p.segments| >= 1 && p.segments[|p.segments| - 1] == basename
    ensures groupAlbum <==> |p.segments| == 2
    ensures groupAlbum ==> p.segments[0] == albumId
  {
    FilePath(outPath, if groupAlbum then [albumId, basename] else [basename])
  }

  /** Within one output directory, distinct basenames give distinct files. */
  lemma OutputFilePathInjective(outPath: string, groupAlbum: bool, albumId: string, b1: string, b2: string)
    requires OutputFilePath(outPath, groupAlbum, albumId, b1) == OutputFilePath(outPath, groupAlbum, albumId, b2)
    ensures b1 == b2
  {
    var s1 := OutputFilePath(outPath, groupAlbum, albumId, b1).segments;
    assert s1[|s1| - 1] == b1;
  }

  /** Blob basenames of distinct ids differ. */
  lemma BlobBasenameInjective(i1: string, i2: string)
    requires BlobBasename(i1) == BlobBasename(i2)
    ensures i1 == i2
  {
    assert i1 == BlobBasename(i1)[..|i1|];
  }

  /** Within one album, stream basenames of distinct ids differ. */
  lemma StreamBasenameInjective(albumId: string, i1: string, i2: string)
    requires StreamBasename(albumId, i1) == StreamBasename(albumId, i2)
    ensures i1 == i2
  {
    assert i1 == StreamBasename(albumId, i1)[|albumId| + 1..|albumId| + 1 + |i1|];
  }

  /** The id a record holds after `write_file_from_blob`: a falsy id is
      replaced by the id derived from the digest, any other is kept. */
  function IdAfterBlob(albumId: string, imageId: Json, digest: HexDigest): (id: Json)
    ensures Truthy(id)
    ensures Truthy(imageId) ==> id == imageId
    ensures !Truthy(imageId) ==> id == JStr(DerivedId(albumId, digest))
  {
    if Truthy(imageId) then imageId else JStr(DerivedId(albumId, digest))
  }

  /** The file a blob write of a record with id `imageId` opens, or why it
      fails: the id has no modelled `str()` rendering, or the open fails. */
  function BlobFile(albumId: string, imageId: Json, outPath: string, groupAlbum: bool, denied: set<FilePath>): (r: Result<FilePath>)
    ensures r.Ok? <==> PyText(imageId).Some?
                       && OutputFilePath(outPath, groupAlbum, albumId, BlobBasename(PyText(imageId).value)) !in denied
    ensures r.Ok? ==> r.value == OutputFilePath(outPath, groupAlbum, albumId, BlobBasename(PyText(imageId).value))
    ensures r.Err? ==> r.error == (if PyText(imageId).None? then NotModelled else OSError)
  {
    match PyText(imageId)
    case None => Err(NotModelled)
    case Some(text) =>
      var p := OutputFilePath(outPath, groupAlbum, albumId, BlobBasename(text));
      if p in denied then Err(OSError) else Ok(p)
  }

  /** The file a stream write opens, or why it fails: ValueError for a falsy
      id comes first, before any name is formatted or file opened. */
  function StreamFile(albumId: string, imageId: Json, outPath: string, groupAlbum: bool, denied: set<FilePath>): (r: Result<FilePath>)
    ensures r == Err(ValueError) <==> !Truthy(imageId)
    ensures r.Ok? <==> Truthy(imageId) && PyText(imageId).Some?
                       && OutputFilePath(outPath, groupAlbum, albumId, StreamBasename(albumId, PyText(imageId).value)) !in denied
    ensures r.Ok? ==> r.value == OutputFilePath(outPath, groupAlbum, albumId, StreamBasename(albumId, PyText(imageId).value))
  {
    if !Truthy(imageId) then Err(ValueError)
    else match PyText(imageId)
      case None => Err(NotModelled)
      case Some(text) =>
        var p := OutputFilePath(outPath, groupAlbum, albumId, StreamBasename(albumId, text));
        if p in denied then Err(OSError) else Ok(p)
  }

  /** After a blob write the record always has an id, so a later stream write
      by the same record cannot raise ValueError. */
  lemma BlobWriteEnablesStreamWrite(albumId: string, imageId: Json, digest: HexDigest, outPath: string, groupAlbum: bool, denied: set<FilePath>)
    ensures StreamFile(albumId, IdAfterBlob(albumId, imageId, digest), outPath, groupAlbum, denied) != Err(ValueError)
  {
  }
}
