/** The websocket protocol shared by the three socket clients
    (unsee_dl/unsee_old.py, unsee_dl/unsee_dl.py, unsee/unsee_dl.py):
    the pub/sub channel announces the album's images, building a manifest;
    the imgpush channel then delivers the images, each delivery crossing
    off the first manifest entry with the same id, and the client closes the
    channel as soon as the manifest is empty. */
module SocketProtocol {
  import opened Values
  import opened Files

  /** A message as `async for` over an aiohttp websocket yields it. CLOSE,
      CLOSING and CLOSED end the iteration instead of being yielded. */
  datatype WsMessage<T> = WsBinary(data: T) | WsText(text: string) | WsError

  // ----- pub/sub -----

  /** What the pub/sub loop does with one message. */
  datatype PubSubAction =
    | Append          // `images_info.append(message)`
    | Close           // `ws_pubsub.close()`: the iteration ends
    | Skip            // a message kind the loop ignores
    | Break           // an ERROR message
    | Raise(error: Error)

  /** `if message["type"] == "image"` on a parsed message. */
  function TypeAction(message: Json): (a: PubSubAction)
    ensures a == Append <==> Get(message, "type") == Ok(JStr("image"))
    ensures a.Raise? <==> Get(message, "type").Err?
    ensures a.Raise? ==> a.error == Get(message, "type").error
    ensures !a.Skip? && !a.Break?
  {
    match Get(message, "type")
    case Err(e) => Raise(e)
    case Ok(t) => if t == JStr("image") then Append else Close
  }

  /** The aiohttp copies parse only BINARY messages and break on ERROR. */
  function ActionOf(m: WsMessage<Json>): PubSubAction
  {
    match m
    case WsBinary(message) => TypeAction(message)
    case WsText(_) => Skip
    case WsError => Break
  }

  datatype Collected = Collected(manifest: seq<Json>, status: Result<()>)

  /** The manifest the pub/sub loop builds from `msgs`, and whether the loop
      raised. Every entry is an "image" message. */
  function Collect(msgs: seq<WsMessage<Json>>): (c: Collected)
    ensures forall i :: 0 <= i < |c.manifest| ==> Get(c.manifest[i], "type") == Ok(JStr("image"))
    ensures |c.manifest| <= |msgs|
  {
    if msgs == [] then Collected([], Ok(()))
    else match ActionOf(msgs[0])
      case Append =>
        var rest := Collect(msgs[1..]);
        Collected([msgs[0].data] + rest.manifest, rest.status)
      case Skip => Collect(msgs[1..])
      case Raise(e) => Collected([], Err(e))
      case _ => Collected([], Ok(()))
  }

  /** `prefix` already appended, then the rest of the loop. */
  function Prepend(prefix: seq<Json>, c: Collected): Collected
  {
    Collected(prefix + c.manifest, c.status)
  }

  /** The pub/sub loop of the aiohttp clients. */
  method PubSub(msgs: seq<WsMessage<Json>>) returns (manifest: seq<Json>, status: Result<()>)
    ensures Collected(manifest, status) == Collect(msgs)
  {
    manifest, status := [], Ok(());
    var i := 0;
    while i < |msgs|
      invariant i <= |msgs|
      invariant Collect(msgs) == Prepend(manifest, Collect(msgs[i..]))
    {
      assert msgs[i..][1..] == msgs[i + 1..];
      var action := ActionOf(msgs[i]);
      if action.Raise? {
        status := Err(action.error);
        return;
      } else if action.Close? || action.Break? {
        assert manifest + [] == manifest;
        return;
      } else if action.Append? {
        assert manifest + ([msgs[i].data] + Collect(msgs[i + 1..]).manifest)
            == (manifest + [msgs[i].data]) + Collect(msgs[i + 1..]).manifest;
        manifest := manifest + [msgs[i].data];
      }
      i := i + 1;
    }
    assert manifest + [] == manifest;
  }

  /** Whether a message ends the pub/sub loop. */
  predicate Ends(m: WsMessage<Json>)
  {
    var a := ActionOf(m);
    !a.Append? && !a.Skip?
  }

  /** The index of the message that ends the loop, or |msgs| if none does. */
  function EndOfAnnouncements(msgs: seq<WsMessage<Json>>): (k: nat)
    ensures k <= |msgs|
    ensures forall j :: 0 <= j < k ==> !Ends(msgs[j])
    ensures k < |msgs| ==> Ends(msgs[k])
  {
    if msgs == [] || Ends(msgs[0]) then 0 else 1 + EndOfAnnouncements(msgs[1..])
  }

  /** The payloads of the "image" messages among `msgs`, in arrival order. */
  function ImageMessages(msgs: seq<WsMessage<Json>>): seq<Json>
  {
    if msgs == [] then []
    else (if ActionOf(msgs[0]).Append? then [msgs[0].data] else []) + ImageMessages(msgs[1..])
  }

  /** The manifest holds exactly the "image" messages that arrive before the
      first message that ends the loop, and the loop raises exactly when that
      message is a BINARY message without a readable "type". */
  lemma {:induction false} CollectIsImagesBeforeEnd(msgs: seq<WsMessage<Json>>)
    ensures Collect(msgs).manifest == ImageMessages(msgs[..EndOfAnnouncements(msgs)])
    ensures Collect(msgs).status ==
      if EndOfAnnouncements(msgs) < |msgs| && ActionOf(msgs[EndOfAnnouncements(msgs)]).Raise?
      then Err(ActionOf(msgs[EndOfAnnouncements(msgs)]).error)
      else Ok(())
  {
    if msgs != [] && !Ends(msgs[0]) {
      CollectIsImagesBeforeEnd(msgs[1..]);
      var k := EndOfAnnouncements(msgs[1..]);
      assert msgs[..k + 1][1..] == msgs[1..][..k];
    }
  }

  // ----- imgpush -----

  /** What handling one imgpush payload came to: a file written for the
      image id, an exception the `except` clause swallowed, or one raised
      outside the `try`, which ends the album. */
  datatype Handled =
    | Written(imageId: string, path: FilePath, data: seq<byte>)
    | Swallowed
    | Fatal(error: Error)

  /** `lambda info: info["id"] == image_id`. */
  function IdIs(imageId: string): Json -> Result<bool>
  {
    info => match Get(info, "id")
            case Err(e) => Err(e)
            case Ok(v) => Ok(v == JStr(imageId))
  }

  /** The manifest after one payload: a written image removes the first entry
      whose id equals its own; an exception raised while searching (an entry
      without "id") is swallowed and leaves the manifest as it was. */
  function Step(manifest: seq<Json>, h: Handled): seq<Json>
  {
    if !h.Written? then manifest
    else match FirstWhere(IdIs(h.imageId), manifest)
      case Ok(Some(k)) =>
        (match ListRemove(manifest, manifest[k])
         case Ok(rest) => rest
         case Err(_) => manifest)
      case _ => manifest
  }

  /** `images_info.remove(image_info)` removes the very entry the search found. */
  lemma StepRemovesFirstMatch(manifest: seq<Json>, imageId: string, path: FilePath, data: seq<byte>, k: nat)
    requires FirstWhere(IdIs(imageId), manifest) == Ok(Some(k))
    ensures k < |manifest| && Get(manifest[k], "id") == Ok(JStr(imageId))
    ensures forall j :: 0 <= j < k ==> Get(manifest[j], "id").Ok? && Get(manifest[j], "id") != Ok(JStr(imageId))
    ensures Step(manifest, Written(imageId, path, data)) == manifest[..k] + manifest[k + 1..]
  {
    var f := IdIs(imageId);
    assert f(manifest[k]) == Ok(true);
    forall j | 0 <= j < k
      ensures manifest[j] != manifest[k]
      ensures Get(manifest[j], "id").Ok? && Get(manifest[j], "id") != Ok(JStr(imageId))
    {
      assert f(manifest[j]) == Ok(false);
    }
    ListRemoveAt(manifest, k);
  }

  /** A payload removes at most one entry, and only one carrying its id. */
  lemma StepRemovesAtMostOne(manifest: seq<Json>, h: Handled)
    ensures Step(manifest, h) == manifest
            || exists k :: 0 <= k < |manifest| && Get(manifest[k], "id") == Ok(JStr(h.imageId))
                           && Step(manifest, h) == manifest[..k] + manifest[k + 1..]
  {
    if h.Written? {
      var found := FirstWhere(IdIs(h.imageId), manifest);
      if found.Ok? && found.value.Some? {
        StepRemovesFirstMatch(manifest, h.imageId, h.path, h.data, found.value.value);
      }
    }
  }

  /** How the imgpush loop ended: the manifest left, how many payloads were
      taken from the channel, whether the client closed the channel, and
      whether a payload raised. */
  datatype Reconciled = Reconciled(remaining: seq<Json>, consumed: nat, closed: bool, status: Result<()>)

  /** The imgpush loop over the handled payloads `hs`. */
  function Run(manifest: seq<Json>, hs: seq<Handled>): (r: Reconciled)
    ensures r.consumed <= |hs|
    ensures r.closed ==> r.remaining == [] && r.status.Ok? && r.consumed >= 1
    ensures r.status.Err? ==> r.consumed >= 1 && hs[r.consumed - 1] == Fatal(r.status.error)
    ensures r.status.Ok? && !r.closed ==> r.consumed == |hs|
    decreases |hs|
  {
    if hs == [] then Reconciled(manifest, 0, false, Ok(()))
    else if hs[0].Fatal? then Reconciled(manifest, 1, false, Err(hs[0].error))
    else
      var next := Step(manifest, hs[0]);
      if next == [] then Reconciled([], 1, true, Ok(()))
      else
        var r := Run(next, hs[1..]);
        r.(consumed := r.consumed + 1)
  }

  /** `r` after `n` earlier payloads that left the manifest non-empty. */
  function Shifted(r: Reconciled, n: nat): Reconciled
  {
    r.(consumed := r.consumed + n)
  }

  /** One turn of the imgpush loop, at payload `i`. */
  lemma RunAt(remaining: seq<Json>, hs: seq<Handled>, i: nat)
    requires i < |hs|
    ensures Run(remaining, hs[i..]) ==
              if hs[i].Fatal? then Reconciled(remaining, 1, false, Err(hs[i].error))
              else if Step(remaining, hs[i]) == [] then Reconciled([], 1, true, Ok(()))
              else Shifted(Run(Step(remaining, hs[i]), hs[i + 1..]), 1)
  {
    assert hs[i..][0] == hs[i] && hs[i..][1..] == hs[i + 1..];
  }

  /** The manifest after each of `hs` in turn, with no closing. */
  function Fold(manifest: seq<Json>, hs: seq<Handled>): seq<Json>
    decreases |hs|
  {
    if hs == [] then manifest else Fold(Step(manifest, hs[0]), hs[1..])
  }

  /** After each payload the channel is closed exactly when the manifest has
      become empty: every payload before the last one taken left a non-empty
      manifest and raised nothing, and the loop ends with the manifest the
      payloads taken leave. */
  lemma {:induction false} RunClosesIffEmpty(manifest: seq<Json>, hs: seq<Handled>)
    ensures Run(manifest, hs).remaining == Fold(manifest, hs[..Run(manifest, hs).consumed])
    ensures forall j :: 0 <= j < Run(manifest, hs).consumed - 1 ==>
              !hs[j].Fatal? && Fold(manifest, hs[..j + 1]) != []
    ensures Run(manifest, hs).closed <==>
              Run(manifest, hs).status.Ok? && Run(manifest, hs).consumed > 0 && Run(manifest, hs).remaining == []
    decreases |hs|
  {
    if hs != [] {
      assert hs[..1][1..] == [];
      if !hs[0].Fatal? && Step(manifest, hs[0]) != [] {
        var next := Step(manifest, hs[0]);
        RunClosesIffEmpty(next, hs[1..]);
        var r := Run(next, hs[1..]);
        assert Run(manifest, hs) == r.(consumed := r.consumed + 1);
        assert hs[..r.consumed + 1][1..] == hs[1..][..r.consumed];
        forall j | 0 <= j < r.consumed
          ensures !hs[j].Fatal? && Fold(manifest, hs[..j + 1]) != []
        {
          assert hs[..j + 1][0] == hs[0];
          if j > 0 {
            assert hs[..j + 1][1..] == hs[1..][..j];
            assert hs[j] == hs[1..][j - 1];
            assert Fold(next, hs[1..][..j - 1 + 1]) != [];
          } else {
            assert hs[..j + 1][1..] == [];
          }
        }
      }
    }
  }

  /** Payloads that write nothing leave a non-empty manifest as it is, and the
      channel is never closed. */
  lemma {:induction false} NothingWrittenKeepsManifest(manifest: seq<Json>, hs: seq<Handled>)
    requires manifest != []
    requires forall j :: 0 <= j < |hs| ==> hs[j] == Swallowed
    ensures Run(manifest, hs) == Reconciled(manifest, |hs|, false, Ok(()))
    decreases |hs|
  {
    if hs != [] {
      NothingWrittenKeepsManifest(manifest, hs[1..]);
    }
  }

  /** The id of a manifest entry, when it is a string. */
  predicate HasId(info: Json, imageId: string)
  {
    Get(info, "id") == Ok(JStr(imageId))
  }

  /** When the images arrive in manifest order and the manifest ids are
      distinct, each payload crosses off the head entry and the channel is
      closed right after the last one. */
  lemma {:induction false} InOrderDeliveryClosesAfterLast(manifest: seq<Json>, hs: seq<Handled>)
    requires manifest != [] && |hs| >= |manifest|
    requires forall j :: 0 <= j < |manifest| ==> hs[j].Written? && HasId(manifest[j], hs[j].imageId)
    requires forall i, j :: 0 <= i < j < |manifest| ==> hs[i].imageId != hs[j].imageId
    ensures Run(manifest, hs) == Reconciled([], |manifest|, true, Ok(()))
    decreases |manifest|
  {
    var f := IdIs(hs[0].imageId);
    assert f(manifest[0]) == Ok(true);
    ListRemoveAt(manifest, 0);
    assert Step(manifest, hs[0]) == manifest[1..];
    if |manifest| > 1 {
      forall j | 0 <= j < |manifest[1..]|
        ensures hs[1..][j].Written? && HasId(manifest[1..][j], hs[1..][j].imageId)
      {
        assert manifest[1..][j] == manifest[j + 1] && hs[1..][j] == hs[j + 1];
      }
      forall i, j | 0 <= i < j < |manifest[1..]| ensures hs[1..][i].imageId != hs[1..][j].imageId {
        assert hs[1..][i] == hs[i + 1] && hs[1..][j] == hs[j + 1];
      }
      InOrderDeliveryClosesAfterLast(manifest[1..], hs[1..]);
    }
  }

  /** The (path, content) pairs the handled payloads wrote, in order. */
  function WritesOf(hs: seq<Handled>): seq<(FilePath, seq<byte>)>
  {
    if hs == [] then []
    else
      var last := hs[|hs| - 1];
      WritesOf(hs[..|hs| - 1]) + (if last.Written? then [(last.path, last.data)] else [])
  }

  /** Every write comes from a payload handled as written, with its own path and content. */
  lemma {:induction false} WritesOfAreWritten(hs: seq<Handled>)
    ensures forall w :: w in WritesOf(hs) ==>
              exists j :: 0 <= j < |hs| && hs[j].Written? && w == (hs[j].path, hs[j].data)
    decreases |hs|
  {
    if hs != [] {
      var init := hs[..|hs| - 1];
      WritesOfAreWritten(init);
      forall w | w in WritesOf(hs)
        ensures exists j :: 0 <= j < |hs| && hs[j].Written? && w == (hs[j].path, hs[j].data)
      {
        if w in WritesOf(init) {
          var j :| 0 <= j < |init| && init[j].Written? && w == (init[j].path, init[j].data);
          assert hs[j] == init[j];
        } else {
          assert hs[|hs| - 1].Written? && w == (hs[|hs| - 1].path, hs[|hs| - 1].data);
        }
      }
    }
  }

  /** The files after the payloads up to and including `hs[i]`. */
  lemma ApplyHandled(files: map<FilePath, seq<byte>>, hs: seq<Handled>, i: nat)
    requires i < |hs|
    ensures ApplyWrites(files, WritesOf(hs[..i + 1])) ==
              if hs[i].Written? then ApplyWrites(files, WritesOf(hs[..i]))[hs[i].path := hs[i].data]
              else ApplyWrites(files, WritesOf(hs[..i]))
  {
    assert hs[..i + 1][..i] == hs[..i];
    if hs[i].Written? {
      ApplyWritesSnoc(files, WritesOf(hs[..i]), hs[i].path, hs[i].data);
    } else {
      assert WritesOf(hs[..i]) + [] == WritesOf(hs[..i]);
    }
  }

  // ----- the album as a whole -----

  /** The line printed once the manifest is known. */
  datatype Notice = Titled(title: Json, albumId: string, count: nat) | Untitled(albumId: string, count: nat)

  /** `if "title" in settings and len(settings["title"]) > 0`: the title is
      shown only when the settings carry a non-empty one. */
  function AlbumNotice(settings: Json, albumId: string, count: nat): (r: Result<Notice>)
    ensures r.Ok? ==> r.value.albumId == albumId && r.value.count == count
    ensures r.Ok? && r.value.Titled? ==>
              settings.JObj? && "title" in settings.fields && r.value.title == settings.fields["title"]
              && Len(r.value.title).Ok? && Len(r.value.title).value > 0
    ensures settings.JObj? && "title" !in settings.fields ==> r == Ok(Untitled(albumId, count))
    ensures settings.JObj? && "title" in settings.fields && settings.fields["title"].JStr? ==>
              r == Ok(if settings.fields["title"].s == [] then Untitled(albumId, count)
                      else Titled(settings.fields["title"], albumId, count))
  {
    match Contains(settings, "title")
    case Err(e) => Err(e)
    case Ok(has) =>
      if !has then Ok(Untitled(albumId, count))
      else match Get(settings, "title")
        case Err(e) => Err(e)
        case Ok(title) =>
          match Len(title)
          case Err(e) => Err(e)
          case Ok(n) => if n > 0 then Ok(Titled(title, albumId, count)) else Ok(Untitled(albumId, count))
  }

  /** One album: the manifest, the notice, the imgpush loop if it was opened,
      and whether the album raised. */
  datatype AlbumReport = AlbumReport(listed: seq<Json>, notice: Option<Notice>, push: Option<Reconciled>, status: Result<()>)

  /** How many imgpush payloads an album took. */
  function Pushed(report: AlbumReport): nat
  {
    if report.push.Some? then report.push.value.consumed else 0
  }

  /** `download_album` of a socket client: pub/sub, the notice, then, unless
      `earlyReturn` applies to an empty manifest, the imgpush loop. */
  function SocketAlbum(earlyReturn: bool, albumId: string, settings: Json, c: Collected, hs: seq<Handled>): (r: AlbumReport)
    ensures r.listed == c.manifest
    ensures r.push.Some? <==> c.status.Ok? && AlbumNotice(settings, albumId, |c.manifest|).Ok? && !(earlyReturn && c.manifest == [])
    ensures r.push.Some? ==> r.push.value == Run(c.manifest, hs) && r.status == r.push.value.status
    ensures r.notice.Some? <==> c.status.Ok? && AlbumNotice(settings, albumId, |c.manifest|).Ok?
  {
    if c.status.Err? then AlbumReport(c.manifest, None, None, c.status)
    else match AlbumNotice(settings, albumId, |c.manifest|)
      case Err(e) => AlbumReport(c.manifest, None, None, Err(e))
      case Ok(n) =>
        if earlyReturn && |c.manifest| <= 0 then AlbumReport(c.manifest, Some(n), None, Ok(()))
        else
          var r := Run(c.manifest, hs);
          AlbumReport(c.manifest, Some(n), Some(r), r.status)
  }
}
