/** unsee/unsee_dl.py: the stand-alone downloader built on the `websockets`
    library. It differs from the aiohttp clients in three ways: every message
    is parsed as JSON, text or bytes alike; no message kind stands for an
    error; and the imgpush channel is opened even when the manifest is empty. */
module LegacyDl {
  import opened Values
  import opened Files
  import opened Naming
  import opened SocketProtocol
  import UnseeOld

  /** A message of the `websockets` library: bytes or text. */
  datatype Frame = Bytes(data: seq<byte>) | Text(text: string)

  /** `UnseeImage(album_id, image_data)`: the id is derived from the content
      when the record is built and never changes. */
  class Image {
    const id: string
    const albumId: string
    const imageData: seq<byte>

    constructor (albumId: string, imageData: seq<byte>, sha: Hasher)
      ensures id == DerivedId(albumId, sha(imageData))
      ensures this.albumId == albumId && this.imageData == imageData
    {
      id := DerivedId(albumId, sha(imageData));
      this.albumId := albumId;
      this.imageData := imageData;
    }

    /** `write_file(out_path=".", group_album=False)`: `{id}.jpg` under the
        output path, holding exactly the image data. */
    method WriteFile(fs: FileSystem, outPath: string := ".", groupAlbum: bool := false) returns (r: Result<FilePath>)
      modifies fs`files
      ensures r == BlobFile(albumId, JStr(id), outPath, groupAlbum, fs.denied)
      ensures fs.files == if r.Ok? then old(fs.files)[r.value := imageData] else old(fs.files)
    {
      var p := OutputFilePath(outPath, groupAlbum, albumId, BlobBasename(id));
      var ok := fs.Open(p);
      if !ok {
        return Err(OSError);
      }
      fs.Append(p, imageData);
      assert [] + imageData == imageData;
      r := Ok(p);
    }
  }

  /** The item a search result points at. */
  function ItemAt<T>(s: seq<T>, r: Result<Option<nat>>): Result<Option<T>>
    requires r.Ok? && r.value.Some? ==> r.value.value < |s|
  {
    match r
    case Err(e) => Err(e)
    case Ok(None) => Ok(None)
    case Ok(Some(k)) => Ok(Some(s[k]))
  }

  /** `find(f, seq)`: the first item for which `f` holds, None when there is
      none; an exception raised by `f` propagates. */
  method Find<T>(f: T -> Result<bool>, s: seq<T>) returns (r: Result<Option<T>>)
    ensures r == ItemAt(s, FirstWhere(f, s))
  {
    var i := 0;
    while i < |s|
      invariant i <= |s|
      invariant forall j :: 0 <= j < i ==> f(s[j]) == Ok(false)
    {
      FirstWhereSkip(f, s, i);
      assert s[i..][0] == s[i];
      var hit := f(s[i]);
      if hit.Err? {
        return Err(hit.error);
      }
      if hit.value {
        return Ok(Some(s[i]));
      }
      i := i + 1;
    }
    FirstWhereSkip(f, s, |s|);
    r := Ok(None);
  }

  // ----- album ids -----

  /** `s.split(sep)`: the pieces between separators, empty ones included. */
  function Split(s: string, sep: char): (parts: seq<string>)
    ensures |parts| >= 1
    ensures forall i :: 0 <= i < |parts| ==> sep !in parts[i]
    decreases |s|
  {
    if s == [] then [""]
    else
      var rest := Split(s[1..], sep);
      if s[0] == sep then [""] + rest else [[s[0]] + rest[0]] + rest[1..]
  }

  /** `sep.join(parts)`. */
  function Join(parts: seq<string>, sep: char): string
    requires |parts| >= 1
    decreases |parts|
  {
    if |parts| == 1 then parts[0] else parts[0] + [sep] + Join(parts[1..], sep)
  }

  /** Splitting loses nothing: joining the pieces gives the string back. */
  lemma {:induction false} JoinSplit(s: string, sep: char)
    ensures Join(Split(s, sep), sep) == s
    decreases |s|
  {
    if s != [] {
      var rest := Split(s[1..], sep);
      JoinSplit(s[1..], sep);
      if s[0] == sep {
        assert Split(s, sep)[1..] == rest;
      } else if |rest| == 1 {
        assert Split(s, sep) == [[s[0]] + rest[0]];
      } else {
        var parts := Split(s, sep);
        assert parts[1..] == rest[1..];
        assert Join(rest, sep) == rest[0] + [sep] + Join(rest[1..], sep);
        assert [s[0]] + (rest[0] + [sep] + Join(rest[1..], sep)) == parts[0] + [sep] + Join(parts[1..], sep);
      }
    }
  }

  /** A piece without the separator, followed by the separator, splits off as one part. */
  lemma {:induction false} SplitAfterPiece(x: string, y: string, sep: char)
    requires sep !in x
    ensures Split(x + [sep] + y, sep) == [x] + Split(y, sep)
    decreases |x|
  {
    if x == [] {
      assert ([] + [sep] + y)[1..] == y;
    } else {
      SplitAfterPiece(x[1..], y, sep);
      assert (x + [sep] + y)[1..] == x[1..] + [sep] + y;
      assert [x[0]] + x[1..] == x;
    }
  }

  /** A string without the separator is a single part. */
  lemma {:induction false} SplitWithoutSeparator(x: string, sep: char)
    requires sep !in x
    ensures Split(x, sep) == [x]
    decreases |x|
  {
    if x != [] {
      SplitWithoutSeparator(x[1..], sep);
      assert [x[0]] + x[1..] == x;
    }
  }

  /** Joining and splitting again gives back parts that hold no separator. */
  lemma {:induction false} SplitJoin(parts: seq<string>, sep: char)
    requires |parts| >= 1
    requires forall i :: 0 <= i < |parts| ==> sep !in parts[i]
    ensures Split(Join(parts, sep), sep) == parts
    decreases |parts|
  {
    if |parts| == 1 {
      SplitWithoutSeparator(parts[0], sep);
    } else {
      forall i | 0 <= i < |parts[1..]| ensures sep !in parts[1..][i] {
        assert parts[1..][i] == parts[i + 1];
      }
      SplitJoin(parts[1..], sep);
      SplitAfterPiece(parts[0], Join(parts[1..], sep), sep);
      assert [parts[0]] + parts[1..] == parts;
    }
  }

  /** `[path for path in parts if len(path) > 0]`. */
  function NonEmpty(parts: seq<string>): (r: seq<string>)
    ensures forall i :: 0 <= i < |r| ==> r[i] != "" && r[i] in parts
    ensures r == [] <==> forall j :: 0 <= j < |parts| ==> parts[j] == ""
    decreases |parts|
  {
    if parts == [] then []
    else (if parts[0] != "" then [parts[0]] else []) + NonEmpty(parts[1..])
  }

  /** The first non-empty part is the first part that is not empty. */
  lemma {:induction false} NonEmptyHead(parts: seq<string>)
    requires NonEmpty(parts) != []
    ensures exists k :: 0 <= k < |parts| && parts[k] == NonEmpty(parts)[0] && forall j :: 0 <= j < k ==> parts[j] == ""
    decreases |parts|
  {
    if parts[0] == "" {
      NonEmptyHead(parts[1..]);
      var k :| 0 <= k < |parts[1..]| && parts[1..][k] == NonEmpty(parts[1..])[0]
               && forall j :: 0 <= j < k ==> parts[1..][j] == "";
      assert parts[k + 1] == NonEmpty(parts)[0];
      forall j | 0 <= j < k + 1 ensures parts[j] == "" {
        if j > 0 { assert parts[j] == parts[1..][j - 1]; }
      }
    } else {
      assert parts[0] == NonEmpty(parts)[0];
    }
  }

  /** `get_album_id_from_url`: for a URL on unsee.cc or without a host, the
      first non-empty segment of the path. */
  function GetAlbumIdFromUrl(url: Url): (r: Option<string>)
    ensures r.Some? ==> url.netloc == "" || url.netloc == "unsee.cc"
    ensures r.Some? ==> r.value != [] && '/' !in r.value
  {
    if url.netloc != "" && url.netloc != "unsee.cc" then None
    else
      var path := NonEmpty(Split(url.path, '/'));
      if |path| < 1 then None else Some(path[0])
  }

  /** An id is found exactly when the host is allowed and some segment of the
      path is non-empty, and it is the first such segment. */
  lemma AlbumIdIsFirstSegment(url: Url)
    ensures GetAlbumIdFromUrl(url).Some? <==>
              (url.netloc == "" || url.netloc == "unsee.cc")
              && exists k :: 0 <= k < |Split(url.path, '/')| && Split(url.path, '/')[k] != ""
    ensures GetAlbumIdFromUrl(url).Some? ==>
              var parts := Split(url.path, '/');
              exists k :: 0 <= k < |parts| && parts[k] == GetAlbumIdFromUrl(url).value && forall j :: 0 <= j < k ==> parts[j] == ""
  {
    var parts := Split(url.path, '/');
    if NonEmpty(parts) != [] {
      NonEmptyHead(parts);
      var k :| 0 <= k < |parts| && parts[k] == NonEmpty(parts)[0] && forall j :: 0 <= j < k ==> parts[j] == "";
      assert parts[k] != "";
    }
    assert url.netloc == "" || url.netloc == "unsee.cc" ==>
      GetAlbumIdFromUrl(url) == if NonEmpty(parts) == [] then None else Some(NonEmpty(parts)[0]);
  }

  // ----- one album -----

  /** The `websockets` copy parses every pub/sub message, as the aiohttp
      copies parse their BINARY ones. */
  function AsBinary(msgs: seq<Json>): (ms: seq<WsMessage<Json>>)
    ensures |ms| == |msgs|
    ensures forall i :: 0 <= i < |msgs| ==> ms[i] == WsBinary(msgs[i])
  {
    seq(|msgs|, i requires 0 <= i < |msgs| => WsBinary(msgs[i]))
  }

  /** One imgpush payload. `len(data)` cannot fail on bytes or text; text
      makes `sha256` raise TypeError inside the `try`; bytes are written
      under their derived id unless the open fails. */
  function LegacyHandled(albumId: string, outPath: string, groupAlbum: bool, sha: Hasher, denied: set<FilePath>,
                         f: Frame): (h: Handled)
    ensures !h.Fatal?
    ensures h.Written? <==> f.Bytes? && OutputFilePath(outPath, groupAlbum, albumId, BlobBasename(DerivedId(albumId, sha(f.data)))) !in denied
  {
    match f
    case Text(_) => Swallowed
    case Bytes(data) =>
      var id := DerivedId(albumId, sha(data));
      match BlobFile(albumId, JStr(id), outPath, groupAlbum, denied)
      case Ok(p) => Written(id, p, data)
      case Err(_) => Swallowed
  }

  function LegacyHandles(albumId: string, outPath: string, groupAlbum: bool, sha: Hasher, denied: set<FilePath>,
                         frames: seq<Frame>): (hs: seq<Handled>)
    ensures |hs| == |frames|
    ensures forall i :: 0 <= i < |frames| ==> hs[i] == LegacyHandled(albumId, outPath, groupAlbum, sha, denied, frames[i])
  {
    seq(|frames|, i requires 0 <= i < |frames| => LegacyHandled(albumId, outPath, groupAlbum, sha, denied, frames[i]))
  }

  /** A bytes payload is written to the same file, with the same id, as the
      record of unsee_dl/unsee_old.py writes it. */
  lemma LegacyAgreesWithOldRecord(albumId: string, outPath: string, groupAlbum: bool, sha: Hasher, denied: set<FilePath>,
                                  data: seq<byte>)
    ensures LegacyHandled(albumId, outPath, groupAlbum, sha, denied, Bytes(data))
         == UnseeOld.OldHandled(albumId, outPath, groupAlbum, sha, denied, WsBinary(data))
  {
  }

  /** With an empty manifest the imgpush channel still takes one payload
      (when there is one) before it is closed. */
  lemma EmptyManifestTakesOnePayload(hs: seq<Handled>)
    requires forall j :: 0 <= j < |hs| ==> !hs[j].Fatal?
    ensures Run([], hs) == if hs == [] then Reconciled([], 0, false, Ok(())) else Reconciled([], 1, true, Ok(()))
  {
    if hs != [] {
      assert Step([], hs[0]) == [];
    }
  }

  /** One album as `download_album` handles it; no payload raises, so only
      pub/sub or the notice can make the album fail. */
  function LegacyAlbum(albumId: string, outPath: string, groupAlbum: bool, sha: Hasher, denied: set<FilePath>,
                       settings: Json, pubsub: seq<Json>, imgpush: seq<Frame>): (r: AlbumReport)
    ensures r.listed == Collect(AsBinary(pubsub)).manifest
    ensures r.push.Some? <==> r.notice.Some?
    ensures r.push.Some? ==> r.status.Ok?
  {
    SocketAlbum(false, albumId, settings, Collect(AsBinary(pubsub)), LegacyHandles(albumId, outPath, groupAlbum, sha, denied, imgpush))
  }

  /** The files one album writes, in order. */
  function LegacyAlbumWrites(albumId: string, outPath: string, groupAlbum: bool, sha: Hasher, denied: set<FilePath>,
                             settings: Json, pubsub: seq<Json>, imgpush: seq<Frame>): seq<(FilePath, seq<byte>)>
  {
    var hs := LegacyHandles(albumId, outPath, groupAlbum, sha, denied, imgpush);
    var r := SocketAlbum(false, albumId, settings, Collect(AsBinary(pubsub)), hs);
    WritesOf(hs[..Pushed(r)])
  }

  /** Every file an album writes is `{album_id}_{digest[:16]}.jpg` under the
      output path, holding a bytes payload's content. */
  lemma LegacyWritesAreDerivedBlobs(albumId: string, outPath: string, groupAlbum: bool, sha: Hasher, denied: set<FilePath>,
                                    settings: Json, pubsub: seq<Json>, imgpush: seq<Frame>, w: (FilePath, seq<byte>))
    requires w in LegacyAlbumWrites(albumId, outPath, groupAlbum, sha, denied, settings, pubsub, imgpush)
    ensures exists j :: 0 <= j < |imgpush| && imgpush[j].Bytes? && w.1 == imgpush[j].data
              && w.0 == OutputFilePath(outPath, groupAlbum, albumId, BlobBasename(DerivedId(albumId, sha(imgpush[j].data))))
              && w.0 !in denied
  {
    var hs := LegacyHandles(albumId, outPath, groupAlbum, sha, denied, imgpush);
    var r := SocketAlbum(false, albumId, settings, Collect(AsBinary(pubsub)), hs);
    var taken := hs[..Pushed(r)];
    WritesOfAreWritten(taken);
    var j :| 0 <= j < |taken| && taken[j].Written? && w == (taken[j].path, taken[j].data);
    assert taken[j] == LegacyHandled(albumId, outPath, groupAlbum, sha, denied, imgpush[j]);
  }

  /** `download_album(album_id, out_path, group_album)`, given the settings
      document, the pub/sub messages and the imgpush payloads. */
  method DownloadAlbum(albumId: string, outPath: string, groupAlbum: bool, settings: Json, pubsub: seq<Json>,
                       imgpush: seq<Frame>, fs: FileSystem, sha: Hasher)
    returns (report: AlbumReport)
    modifies fs`files
    ensures report == LegacyAlbum(albumId, outPath, groupAlbum, sha, fs.denied, settings, pubsub, imgpush)
    ensures fs.files == ApplyWrites(old(fs.files), LegacyAlbumWrites(albumId, outPath, groupAlbum, sha, fs.denied, settings, pubsub, imgpush))
  {
    ghost var hs := LegacyHandles(albumId, outPath, groupAlbum, sha, fs.denied, imgpush);
    assert hs[..0] == [];
    var manifest, status := PubSub(AsBinary(pubsub));
    if status.Err? {
      return AlbumReport(manifest, None, None, status);
    }
    var notice := AlbumNotice(settings, albumId, |manifest|);
    if notice.Err? {
      return AlbumReport(manifest, None, None, Err(notice.error));
    }
    var pushed := ImgPush(albumId, outPath, groupAlbum, manifest, imgpush, fs, sha);
    report := AlbumReport(manifest, Some(notice.value), Some(pushed), pushed.status);
  }

  /** The imgpush loop: every payload is handled inside the `try`, and the
      channel is closed once the manifest is empty. */
  method ImgPush(albumId: string, outPath: string, groupAlbum: bool, manifest: seq<Json>, imgpush: seq<Frame>,
                 fs: FileSystem, sha: Hasher)
    returns (pushed: Reconciled)
    modifies fs`files
    ensures pushed == Run(manifest, LegacyHandles(albumId, outPath, groupAlbum, sha, fs.denied, imgpush))
    ensures fs.files == ApplyWrites(old(fs.files),
                          WritesOf(LegacyHandles(albumId, outPath, groupAlbum, sha, fs.denied, imgpush)[..pushed.consumed]))
  {
    ghost var hs := LegacyHandles(albumId, outPath, groupAlbum, sha, fs.denied, imgpush);
    assert hs[..0] == [];
    var remaining := manifest;
    var i := 0;
    var closed := false;
    while i < |imgpush| && !closed
      invariant i <= |imgpush|
      invariant closed ==> remaining == [] && Run(manifest, hs) == Reconciled([], i, true, Ok(()))
      invariant !closed ==> Run(manifest, hs) == Shifted(Run(remaining, hs[i..]), i)
      invariant fs.files == ApplyWrites(old(fs.files), WritesOf(hs[..i]))
    {
      RunAt(remaining, hs, i);
      ApplyHandled(old(fs.files), hs, i);
      remaining := HandleFrame(albumId, outPath, groupAlbum, remaining, imgpush[i], fs, sha);
      i := i + 1;
      if |remaining| <= 0 {
        closed := true;
      }
    }
    pushed := Reconciled(remaining, i, closed, Ok(()));
  }

  /** The body of the `try` for one payload. */
  method HandleFrame(albumId: string, outPath: string, groupAlbum: bool, remaining: seq<Json>, f: Frame,
                     fs: FileSystem, sha: Hasher)
    returns (next: seq<Json>)
    modifies fs`files
    ensures var h := LegacyHandled(albumId, outPath, groupAlbum, sha, fs.denied, f);
            && next == Step(remaining, h)
            && fs.files == if h.Written? then old(fs.files)[h.path := h.data] else old(fs.files)
  {
    next := remaining;
    if f.Bytes? {
      var image := new Image(albumId, f.data, sha);
      var written := image.WriteFile(fs, outPath, groupAlbum);
      if written.Ok? {
        var found := Find(IdIs(image.id), remaining);
        if found.Ok? && found.value.Some? {
          var removed := ListRemove(remaining, found.value.value);
          if removed.Ok? {
            next := removed.value;
          }
        }
      }
    }
  }

  // ----- the command line -----

  /** What the loop of `main` did with one argument. */
  datatype Attempt =
    | Unparsed(error: Error)                       // no album id: formatting None with `{:s}` raises TypeError
    | Attempted(albumId: string, report: AlbumReport)

  /** What the server delivers while the `i`-th argument is downloaded. */
  datatype Channels = Channels(settings: Json, pubsub: seq<Json>, imgpush: seq<Frame>)

  function LegacyAttempt(arg: Url, ch: Channels, outPath: string, groupAlbum: bool, sha: Hasher, denied: set<FilePath>): Attempt
  {
    match GetAlbumIdFromUrl(arg)
    case None => Unparsed(TypeError)
    case Some(id) => Attempted(id, LegacyAlbum(id, outPath, groupAlbum, sha, denied, ch.settings, ch.pubsub, ch.imgpush))
  }

  function AttemptWrites(arg: Url, ch: Channels, outPath: string, groupAlbum: bool, sha: Hasher, denied: set<FilePath>): seq<(FilePath, seq<byte>)>
  {
    match GetAlbumIdFromUrl(arg)
    case None => []
    case Some(id) => LegacyAlbumWrites(id, outPath, groupAlbum, sha, denied, ch.settings, ch.pubsub, ch.imgpush)
  }

  /** The files the first `n` arguments write, in order. */
  function RunWrites(args: seq<Url>, serve: nat -> Channels, outPath: string, groupAlbum: bool, sha: Hasher, denied: set<FilePath>,
                     n: nat): seq<(FilePath, seq<byte>)>
    requires n <= |args|
  {
    if n == 0 then []
    else RunWrites(args, serve, outPath, groupAlbum, sha, denied, n - 1) + AttemptWrites(args[n - 1], serve(n - 1), outPath, groupAlbum, sha, denied)
  }

  /** The arguments `urlparse` accepts before the first it rejects: `main`
      calls `get_album_id_from_url` outside its `try`, so a ValueError of
      `urlparse` (an unbalanced `[` in the host, say) ends the run there. */
  function ParsedPrefix(args: seq<Result<Url>>): (urls: seq<Url>)
    ensures |urls| <= |args|
    ensures forall i :: 0 <= i < |urls| ==> args[i] == Ok(urls[i])
    ensures |urls| < |args| ==> args[|urls|].Err?
    decreases |args|
  {
    if args == [] || args[0].Err? then [] else [args[0].value] + ParsedPrefix(args[1..])
  }

  /** The download loop of `main`, over what `urlparse` made of each
      argument: the arguments are attempted in order up to the first that
      does not parse, and the failure of one album does not stop the others;
      a parse error ends the run with that error. */
  method RunAll(args: seq<Result<Url>>, serve: nat -> Channels, outPath: string, groupAlbum: bool, fs: FileSystem, sha: Hasher)
    returns (attempts: seq<Attempt>, status: Result<()>)
    modifies fs`files
    ensures |attempts| == |ParsedPrefix(args)|
    ensures forall i :: 0 <= i < |attempts| ==>
              attempts[i] == LegacyAttempt(ParsedPrefix(args)[i], serve(i), outPath, groupAlbum, sha, fs.denied)
    ensures fs.files == ApplyWrites(old(fs.files), RunWrites(ParsedPrefix(args), serve, outPath, groupAlbum, sha, fs.denied, |attempts|))
    ensures status == if |attempts| < |args| then Err(args[|attempts|].error) else Ok(())
  {
    ghost var urls := ParsedPrefix(args);
    attempts := [];
    var i := 0;
    while i < |args|
      invariant i <= |urls| && |attempts| == i
      invariant forall j :: 0 <= j < i ==> attempts[j] == LegacyAttempt(urls[j], serve(j), outPath, groupAlbum, sha, fs.denied)
      invariant fs.files == ApplyWrites(old(fs.files), RunWrites(urls, serve, outPath, groupAlbum, sha, fs.denied, i))
    {
      ParsedPrefixAt(args, i);
      if args[i].Err? {
        return attempts, Err(args[i].error);
      }
      var url := args[i].value;
      ApplyWritesConcat(old(fs.files), RunWrites(urls, serve, outPath, groupAlbum, sha, fs.denied, i),
                        AttemptWrites(url, serve(i), outPath, groupAlbum, sha, fs.denied));
      var attempt := AttemptOne(url, serve(i), outPath, groupAlbum, fs, sha);
      attempts := attempts + [attempt];
      i := i + 1;
    }
    status := Ok(());
  }

  /** Where the loop of `RunAll` stands at argument `i`: an accepted argument
      is the next parsed URL, a rejected one ends the parsed prefix. */
  lemma ParsedPrefixAt(args: seq<Result<Url>>, i: nat)
    requires i < |args| && i <= |ParsedPrefix(args)|
    ensures args[i].Ok? ==> i < |ParsedPrefix(args)| && ParsedPrefix(args)[i] == args[i].value
    ensures args[i].Err? ==> i == |ParsedPrefix(args)|
  {
    var urls := ParsedPrefix(args);
    if i < |urls| {
      assert args[i] == Ok(urls[i]);
    }
  }

  /** One turn of the loop of `main`. */
  method AttemptOne(arg: Url, ch: Channels, outPath: string, groupAlbum: bool, fs: FileSystem, sha: Hasher)
    returns (attempt: Attempt)
    modifies fs`files
    ensures attempt == LegacyAttempt(arg, ch, outPath, groupAlbum, sha, fs.denied)
    ensures fs.files == ApplyWrites(old(fs.files), AttemptWrites(arg, ch, outPath, groupAlbum, sha, fs.denied))
  {
    var albumId := GetAlbumIdFromUrl(arg);
    if albumId.None? {
      return Unparsed(TypeError);
    }
    var report := DownloadAlbum(albumId.value, outPath, groupAlbum, ch.settings, ch.pubsub, ch.imgpush, fs, sha);
    attempt := Attempted(albumId.value, report);
  }
}
