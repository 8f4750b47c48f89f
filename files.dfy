/** The output side of every downloader: paths, a filesystem that maps a
    path to the bytes of the file written there, and the chunked response
    stream that `write_file_from_stream` drains. */
module Files {
  import opened Values

  /** `Path(root).joinpath(s1).joinpath(s2)…`, kept as its parts (no normalisation). */
  datatype FilePath = FilePath(root: string, segments: seq<string>)

  /** The files written so far. Opening a path in `denied` fails (an OSError:
      missing permission, a directory in the way, a full disk). */
  class FileSystem {
    var files: map<FilePath, seq<byte>>
    const denied: set<FilePath>

    constructor (initial: map<FilePath, seq<byte>>, denied: set<FilePath>)
      ensures files == initial && this.denied == denied
    {
      files := initial;
      this.denied := denied;
    }

    /** `path.open("wb")`: creates or truncates the file, or fails. */
    method Open(p: FilePath) returns (ok: bool)
      modifies this`files
      ensures ok == (p !in denied)
      ensures files == if ok then old(files)[p := []] else old(files)
    {
      ok := p !in denied;
      if ok {
        files := files[p := []];
      }
    }

    /** `file.write(data)` on a file opened for writing. */
    method Append(p: FilePath, data: seq<byte>)
      requires p in files
      modifies this`files
      ensures files == old(files)[p := old(files)[p] + data]
    {
      files := files[p := files[p] + data];
    }
  }

  /** The body of an HTTP response, read a chunk at a time. Past the end a
      read returns the empty chunk; an empty chunk inside `chunks` stands for
      an end of stream reported early. */
  class ChunkStream {
    const chunks: seq<seq<byte>>
    var pos: nat

    ghost predicate Valid()
      reads this
    {
      pos <= |chunks|
    }

    constructor (chunks: seq<seq<byte>>)
      ensures Valid() && this.chunks == chunks && pos == 0
    {
      this.chunks := chunks;
      pos := 0;
    }

    /** `await stream.read(buffer_size)`. */
    method Read() returns (chunk: seq<byte>)
      requires Valid()
      modifies this`pos
      ensures Valid()
      ensures old(pos) < |chunks| ==> chunk == chunks[old(pos)] && pos == old(pos) + 1
      ensures old(pos) == |chunks| ==> chunk == [] && pos == old(pos)
    {
      if pos < |chunks| {
        chunk := chunks[pos];
        pos := pos + 1;
      } else {
        chunk := [];
      }
    }
  }

  /** The chunks a read-until-empty loop writes: those before the first empty one. */
  function UntilEmpty(s: seq<seq<byte>>): seq<seq<byte>>
  {
    if s == [] || s[0] == [] then [] else [s[0]] + UntilEmpty(s[1..])
  }

  /** How many chunks such a loop takes from the stream, the empty one included. */
  function Consumed(s: seq<seq<byte>>): nat
  {
    if s == [] then 0 else if s[0] == [] then 1 else 1 + Consumed(s[1..])
  }

  function Concat(s: seq<seq<byte>>): seq<byte>
  {
    if s == [] then [] else s[0] + Concat(s[1..])
  }

  /** The bytes a read-until-empty loop writes for the chunks `s`. */
  function StreamContent(s: seq<seq<byte>>): seq<byte>
  {
    Concat(UntilEmpty(s))
  }

  /** The loop writes exactly the longest prefix of non-empty chunks, and
      reads the chunk after it (the empty one) but nothing further. */
  lemma {:induction false} UntilEmptyIsLongestNonEmptyPrefix(s: seq<seq<byte>>)
    ensures UntilEmpty(s) <= s
    ensures forall i :: 0 <= i < |UntilEmpty(s)| ==> UntilEmpty(s)[i] != []
    ensures |UntilEmpty(s)| == |s| || s[|UntilEmpty(s)|] == []
    ensures Consumed(s) == if |UntilEmpty(s)| == |s| then |s| else |UntilEmpty(s)| + 1
  {
    if s != [] && s[0] != [] {
      UntilEmptyIsLongestNonEmptyPrefix(s[1..]);
      assert UntilEmpty(s) == [s[0]] + UntilEmpty(s[1..]);
      assert forall i :: 1 <= i < |UntilEmpty(s)| ==> UntilEmpty(s)[i] == UntilEmpty(s[1..])[i - 1];
    }
  }

  /** A stream without an empty chunk is written out whole. */
  lemma {:induction false} StreamContentWithoutEmptyChunk(s: seq<seq<byte>>)
    requires forall i :: 0 <= i < |s| ==> s[i] != []
    ensures StreamContent(s) == Concat(s)
  {
    if s != [] {
      StreamContentWithoutEmptyChunk(s[1..]);
    }
  }

  /** The chunk-copy loop of write_file_from_stream: appends every chunk read
      to the open file `p` and stops at the first empty chunk. */
  method CopyStream(stream: ChunkStream, fs: FileSystem, p: FilePath)
    requires stream.Valid() && p in fs.files
    modifies stream`pos, fs`files
    ensures stream.Valid()
    ensures fs.files == old(fs.files)[p := old(fs.files)[p] + StreamContent(stream.chunks[old(stream.pos)..])]
    ensures stream.pos == old(stream.pos) + Consumed(stream.chunks[old(stream.pos)..])
  {
    ghost var start := stream.pos;
    ghost var written: seq<byte> := [];
    assert fs.files[p] + written == fs.files[p];
    while true
      invariant stream.Valid() && start <= stream.pos
      invariant p in fs.files
      invariant fs.files == old(fs.files)[p := old(fs.files)[p] + written]
      invariant written + StreamContent(stream.chunks[stream.pos..]) == StreamContent(stream.chunks[start..])
      invariant stream.pos - start + Consumed(stream.chunks[stream.pos..]) == Consumed(stream.chunks[start..])
      decreases |stream.chunks| - stream.pos
    {
      ghost var before := stream.pos;
      var chunk := stream.Read();
      if chunk == [] {
        assert StreamContent(stream.chunks[before..]) == [];
        assert written == StreamContent(stream.chunks[start..]);
        break;
      }
      assert stream.chunks[before..][1..] == stream.chunks[stream.pos..];
      ghost var prev := fs.files[p];
      fs.Append(p, chunk);
      assert prev + chunk == old(fs.files)[p] + (written + chunk);
      written := written + chunk;
    }
  }

  /** The files after `path.open("wb")` and a write of the whole content, for
      each (path, content) pair in turn: a later write to a path replaces an
      earlier one. */
  function ApplyWrites(files: map<FilePath, seq<byte>>, ws: seq<(FilePath, seq<byte>)>): map<FilePath, seq<byte>>
  {
    if ws == [] then files
    else ApplyWrites(files, ws[..|ws| - 1])[ws[|ws| - 1].0 := ws[|ws| - 1].1]
  }

  lemma ApplyWritesSnoc(files: map<FilePath, seq<byte>>, ws: seq<(FilePath, seq<byte>)>, p: FilePath, data: seq<byte>)
    ensures ApplyWrites(files, ws + [(p, data)]) == ApplyWrites(files, ws)[p := data]
  {
    assert (ws + [(p, data)])[..|ws|] == ws;
  }

  /** Writing `a` and then `b` is writing `a + b`. */
  lemma {:induction false} ApplyWritesConcat(files: map<FilePath, seq<byte>>, a: seq<(FilePath, seq<byte>)>, b: seq<(FilePath, seq<byte>)>)
    ensures ApplyWrites(files, a + b) == ApplyWrites(ApplyWrites(files, a), b)
  {
    if b == [] {
      assert a + b == a;
    } else {
      ApplyWritesConcat(files, a, b[..|b| - 1]);
      assert (a + b)[..|a + b| - 1] == a + b[..|b| - 1];
    }
  }

  /** A path written by the last write to it holds that write's content. */
  lemma {:induction false} ApplyWritesLastWins(files: map<FilePath, seq<byte>>, ws: seq<(FilePath, seq<byte>)>, k: nat)
    requires k < |ws|
    requires forall j :: k < j < |ws| ==> ws[j].0 != ws[k].0
    ensures ws[k].0 in ApplyWrites(files, ws) && ApplyWrites(files, ws)[ws[k].0] == ws[k].1
  {
    if k < |ws| - 1 {
      ApplyWritesLastWins(files, ws[..|ws| - 1], k);
    }
  }

  /** A path no write targets keeps its presence and content. */
  lemma {:induction false} ApplyWritesElsewhere(files: map<FilePath, seq<byte>>, ws: seq<(FilePath, seq<byte>)>, p: FilePath)
    requires forall j :: 0 <= j < |ws| ==> ws[j].0 != p
    ensures (p in ApplyWrites(files, ws)) == (p in files)
    ensures p in files ==> ApplyWrites(files, ws)[p] == files[p]
  {
    if ws != [] {
      ApplyWritesElsewhere(files, ws[..|ws| - 1], p);
    }
  }
}
