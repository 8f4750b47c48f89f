/** unsee_dl/unsee_dl.py: the websocket client main.py uses for old albums.
    Its image record is the one of unsee_dl/unsee.py, whose constructor has
    no `out_path` or `group_album` parameter, so every payload's
    construction raises TypeError inside the `try`: nothing is written and
    the manifest never shrinks. */
module UnseeDl {
  import opened Values
  import opened SocketProtocol
  import Unsee

  /** `UnseeImage(album_id, out_path=…, group_album=…)` as this client calls it. */
  const PayloadConstructorCall: Result<()> := Unsee.ConstructorCall(1, {"out_path", "group_album"})

  /** That call does not bind, so it raises TypeError, which the `try` catches. */
  lemma PayloadConstructionRaises()
    ensures PayloadConstructorCall == Err(TypeError)
  {
    Unsee.KeywordConstructorCallRaises();
  }

  /** One imgpush payload: `len(data.data)` of an ERROR message raises
      outside the `try`; any other payload fails at construction
      (PayloadConstructionRaises) and the failure is swallowed. */
  function DlHandled(m: WsMessage<seq<byte>>): (h: Handled)
    ensures h.Fatal? <==> m.WsError?
    ensures !h.Written?
  {
    if m.WsError? then Fatal(TypeError)
    else
      PayloadConstructionRaises();
      match PayloadConstructorCall
      case Err(_) => Swallowed
  }

  function DlHandles(msgs: seq<WsMessage<seq<byte>>>): (hs: seq<Handled>)
    ensures |hs| == |msgs|
    ensures forall i :: 0 <= i < |msgs| ==> hs[i] == DlHandled(msgs[i])
  {
    seq(|msgs|, i requires 0 <= i < |msgs| => DlHandled(msgs[i]))
  }

  /** Payloads that write nothing leave a non-empty manifest in place and
      never close the channel; only an ERROR message stops the loop early. */
  lemma {:induction false} DlNeverReconciles(manifest: seq<Json>, hs: seq<Handled>)
    requires manifest != []
    requires forall j :: 0 <= j < |hs| ==> !hs[j].Written?
    ensures Run(manifest, hs).remaining == manifest && !Run(manifest, hs).closed
    decreases |hs|
  {
    if hs != [] && !hs[0].Fatal? {
      DlNeverReconciles(manifest, hs[1..]);
    }
  }

  /** `Client(session=None, out_path=".", group_album=True)`. */
  class Client {
    const outPath: string
    const groupAlbum: bool

    constructor (outPath: string := ".", groupAlbum: bool := true)
      ensures this.outPath == outPath && this.groupAlbum == groupAlbum
    {
      this.outPath := outPath;
      this.groupAlbum := groupAlbum;
    }

    /** `download_album` over the delivered settings, pub/sub and imgpush
        messages. The imgpush loop runs through every payload (or up to the
        first ERROR) and leaves the manifest as pub/sub built it. */
    method DownloadAlbum(albumId: string, settings: Json, pubsub: seq<WsMessage<Json>>, imgpush: seq<WsMessage<seq<byte>>>)
      returns (report: AlbumReport)
      ensures report == SocketAlbum(true, albumId, settings, Collect(pubsub), DlHandles(imgpush))
      ensures report.push.Some? ==> report.push.value.remaining == report.listed && !report.push.value.closed
      ensures report.push.Some? && report.status.Ok? ==> report.push.value.consumed == |imgpush|
      ensures report.push.Some? && report.status.Err? ==>
                report.status == Err(TypeError) && imgpush[report.push.value.consumed - 1].WsError?
    {
      var manifest, status := PubSub(pubsub);
      if status.Err? {
        return AlbumReport(manifest, None, None, status);
      }
      var notice := AlbumNotice(settings, albumId, |manifest|);
      if notice.Err? {
        return AlbumReport(manifest, None, None, Err(notice.error));
      }
      if |manifest| <= 0 {
        return AlbumReport(manifest, Some(notice.value), None, Ok(()));
      }
      ghost var hs := DlHandles(imgpush);
      DlNeverReconciles(manifest, hs);
      var remaining := manifest;
      var i := 0;
      var closed := false;
      while i < |imgpush| && !closed
        invariant i <= |imgpush|
        invariant !closed && remaining == manifest
        invariant Run(manifest, hs) == Shifted(Run(remaining, hs[i..]), i)
      {
        RunAt(remaining, hs, i);
        if imgpush[i].WsError? {
          var pushed := Reconciled(remaining, i + 1, false, Err(TypeError));
          return AlbumReport(manifest, Some(notice.value), Some(pushed), pushed.status);
        }
        // The constructor call raises TypeError (PayloadConstructionRaises)
        // and the `except` clause swallows it: the manifest is unchanged.
        i := i + 1;
        if |remaining| <= 0 {
          closed := true;
        }
      }
      var pushed := Reconciled(remaining, i, closed, Ok(()));
      report := AlbumReport(manifest, Some(notice.value), Some(pushed), pushed.status);
    }
  }
}
