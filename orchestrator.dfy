/** main.py `run_downloader`: resolve every argument to an album id, download
    the ids that are not beta ids with the websocket client, then log in to
    the beta site once and download the beta ids with the GraphQL client. A
    failing album is logged and the loop goes on; an exception raised while
    deciding which site an id belongs to, or by the beta login, ends the run. */
module Orchestrator {
  import opened Values
  import opened SocketProtocol
  import opened Graphql
  import UnseeDl
  import UnseeBeta

  datatype Generation = Old | Beta

  /** What the run does, in order: one attempt per album, with how it ended,
      and the beta login between the two loops. */
  datatype Event =
    | Attempted(generation: Generation, albumId: Option<string>, outcome: Result<()>)
    | LoggedIn(outcome: Result<()>)

  /** The events of a run and how the run ends. */
  datatype Trace = Trace(events: seq<Event>, status: Result<()>)

  /** The websocket messages the old site delivers for one album. */
  datatype Sockets = Sockets(settings: Json, pubsub: seq<WsMessage<Json>>, imgpush: seq<WsMessage<seq<byte>>>)

  /** A client and what its server answers: the old site's sockets per album,
      or the beta site's answers with the token of the login. */
  datatype Downloader =
    | OldClient(serve: string -> Sockets)
    | BetaClient(token: Json, post: Request -> Json)

  function GenerationOf(d: Downloader): Generation
  {
    if d.OldClient? then Old else Beta
  }

  /** The body of one `try`: `"{:s}".format(album_id)` raises TypeError on a
      missing id; otherwise the client's `download_album` decides. */
  function Attempt(d: Downloader, id: Option<string>): (r: Result<()>)
    ensures id.None? ==> r == Err(TypeError)
  {
    match id
    case None => Err(TypeError)
    case Some(a) =>
      match d
      case OldClient(serve) =>
        var s := serve(a);
        SocketAlbum(true, a, s.settings, Collect(s.pubsub), UnseeDl.DlHandles(s.imgpush)).status
      case BetaClient(token, post) =>
        match BearerHeader(token)
        case Err(e) => Err(e)
        case Ok(h) => UnseeBeta.BetaOutcome(AlbumItems(post(UnseeBeta.AlbumRequest(a, h))))
  }

  /** `[get_album_id_from_url(url) for url in args.album_ids]`. */
  function AlbumIds(urls: seq<string>, resolve: string -> Option<string>): (ids: seq<Option<string>>)
    ensures |ids| == |urls| && forall i :: 0 <= i < |urls| ==> ids[i] == resolve(urls[i])
  {
    seq(|urls|, i requires 0 <= i < |urls| => resolve(urls[i]))
  }

  /** `trace` preceded by the events `prefix`. */
  function Prefixed(prefix: seq<Event>, trace: Trace): Trace
  {
    Trace(prefix + trace.events, trace.status)
  }

  /** One loop over the lazy `filter` of the ids: each id is tested when the
      loop reaches it; an error of the test leaves the loop and the run. */
  function Phase(d: Downloader, ids: seq<Option<string>>, isBeta: Option<string> -> Result<bool>): Trace
    decreases |ids|
  {
    if ids == [] then Trace([], Ok(()))
    else match isBeta(ids[0])
      case Err(e) => Trace([], Err(e))
      case Ok(b) =>
        var rest := Phase(d, ids[1..], isBeta);
        if b == d.BetaClient? then Prefixed([Attempted(GenerationOf(d), ids[0], Attempt(d, ids[0]))], rest)
        else rest
  }

  /** The whole of `run_downloader` on resolved ids. The beta login runs
      whenever the first loop ends normally, whether or not any beta id
      follows. */
  function Downloads(ids: seq<Option<string>>, isBeta: Option<string> -> Result<bool>,
                     serve: string -> Sockets, post: Request -> Json): Trace
  {
    var first := Phase(OldClient(serve), ids, isBeta);
    if first.status.Err? then first
    else match TokenOf(post(UnseeBeta.LoginRequest()))
      case Err(e) => Trace(first.events + [LoggedIn(Err(e))], Err(e))
      case Ok(t) => Prefixed(first.events + [LoggedIn(Ok(()))], Phase(BetaClient(t, post), ids, isBeta))
  }

  /** The ids the test classifies as `beta`, in order. */
  function Selected(ids: seq<Option<string>>, isBeta: Option<string> -> Result<bool>, beta: bool): seq<Option<string>>
    decreases |ids|
  {
    if ids == [] then []
    else (if isBeta(ids[0]) == Ok(beta) then [ids[0]] else []) + Selected(ids[1..], isBeta, beta)
  }

  /** One attempt of `d` for each id, in order. */
  function AttemptsOf(d: Downloader, ids: seq<Option<string>>): seq<Event>
    decreases |ids|
  {
    if ids == [] then [] else [Attempted(GenerationOf(d), ids[0], Attempt(d, ids[0]))] + AttemptsOf(d, ids[1..])
  }

  /** The test answers for every id. */
  predicate Decided(ids: seq<Option<string>>, isBeta: Option<string> -> Result<bool>)
  {
    forall i :: 0 <= i < |ids| ==> isBeta(ids[i]).Ok?
  }

  lemma SelectedCons(id: Option<string>, ids: seq<Option<string>>, isBeta: Option<string> -> Result<bool>, beta: bool)
    ensures Selected([id] + ids, isBeta, beta) == (if isBeta(id) == Ok(beta) then [id] else []) + Selected(ids, isBeta, beta)
  {
    assert ([id] + ids)[1..] == ids;
  }

  lemma AttemptsOfConcat(d: Downloader, ids1: seq<Option<string>>, ids2: seq<Option<string>>)
    ensures AttemptsOf(d, ids1 + ids2) == AttemptsOf(d, ids1) + AttemptsOf(d, ids2)
    decreases |ids1|
  {
    if ids1 == [] {
      assert ids1 + ids2 == ids2;
    } else {
      assert (ids1 + ids2)[1..] == ids1[1..] + ids2;
      AttemptsOfConcat(d, ids1[1..], ids2);
    }
  }

  lemma DecidedTail(ids: seq<Option<string>>, isBeta: Option<string> -> Result<bool>)
    requires ids != [] && Decided(ids, isBeta)
    ensures isBeta(ids[0]).Ok? && Decided(ids[1..], isBeta)
  {
    var tail := ids[1..];
    forall i | 0 <= i < |tail| ensures isBeta(tail[i]).Ok? {
      assert tail[i] == ids[i + 1];
    }
  }

  /** A loop attempts every id of its own generation exactly once, in order,
      whatever each attempt's outcome: a failed album does not stop it. */
  lemma {:induction false} PhaseAttemptsSelected(d: Downloader, ids: seq<Option<string>>, isBeta: Option<string> -> Result<bool>)
    requires Decided(ids, isBeta)
    ensures Phase(d, ids, isBeta) == Trace(AttemptsOf(d, Selected(ids, isBeta, d.BetaClient?)), Ok(()))
    decreases |ids|
  {
    if ids != [] {
      DecidedTail(ids, isBeta);
      PhaseAttemptsSelected(d, ids[1..], isBeta);
      assert [ids[0]] + ids[1..] == ids;
      SelectedCons(ids[0], ids[1..], isBeta, d.BetaClient?);
      var own := if isBeta(ids[0]) == Ok(d.BetaClient?) then [ids[0]] else [];
      AttemptsOfConcat(d, own, Selected(ids[1..], isBeta, d.BetaClient?));
    }
  }

  /** The two loops split the ids between them: together they hold every id,
      as often as it was given. */
  lemma {:induction false} SelectedPartition(ids: seq<Option<string>>, isBeta: Option<string> -> Result<bool>)
    requires Decided(ids, isBeta)
    ensures multiset(Selected(ids, isBeta, false)) + multiset(Selected(ids, isBeta, true)) == multiset(ids)
    ensures |Selected(ids, isBeta, false)| + |Selected(ids, isBeta, true)| == |ids|
    decreases |ids|
  {
    if ids != [] {
      DecidedTail(ids, isBeta);
      SelectedPartition(ids[1..], isBeta);
      assert [ids[0]] + ids[1..] == ids;
      SelectedCons(ids[0], ids[1..], isBeta, false);
      SelectedCons(ids[0], ids[1..], isBeta, true);
      assert multiset(ids) == multiset([ids[0]]) + multiset(ids[1..]);
      if isBeta(ids[0]).value {
        assert Selected(ids, isBeta, true) == [ids[0]] + Selected(ids[1..], isBeta, true);
        assert Selected(ids, isBeta, false) == Selected(ids[1..], isBeta, false);
      } else {
        assert Selected(ids, isBeta, false) == [ids[0]] + Selected(ids[1..], isBeta, false);
        assert Selected(ids, isBeta, true) == Selected(ids[1..], isBeta, true);
      }
    }
  }

  /** When every id is classified, the run attempts each old id, then logs in
      exactly once, then attempts each beta id unless the login failed. */
  lemma DownloadsInOrder(ids: seq<Option<string>>, isBeta: Option<string> -> Result<bool>,
                         serve: string -> Sockets, post: Request -> Json)
    requires Decided(ids, isBeta)
    ensures var login := TokenOf(post(UnseeBeta.LoginRequest()));
            var run := Downloads(ids, isBeta, serve, post);
            var olds := AttemptsOf(OldClient(serve), Selected(ids, isBeta, false));
            && (login.Err? ==> run == Trace(olds + [LoggedIn(Err(login.error))], Err(login.error)))
            && (login.Ok? ==>
                  run == Trace(olds + [LoggedIn(Ok(()))] + AttemptsOf(BetaClient(login.value, post), Selected(ids, isBeta, true)), Ok(())))
  {
    PhaseAttemptsSelected(OldClient(serve), ids, isBeta);
    var login := TokenOf(post(UnseeBeta.LoginRequest()));
    if login.Ok? {
      PhaseAttemptsSelected(BetaClient(login.value, post), ids, isBeta);
    }
  }

  /** An id the test cannot classify ends the run in the first loop, after
      the old ids before it: no login and no beta album follows. */
  lemma UndecidedEndsRun(ids: seq<Option<string>>, isBeta: Option<string> -> Result<bool>,
                         serve: string -> Sockets, post: Request -> Json, k: nat)
    requires k < |ids| && isBeta(ids[k]).Err? && Decided(ids[..k], isBeta)
    ensures Downloads(ids, isBeta, serve, post) ==
            Trace(AttemptsOf(OldClient(serve), Selected(ids[..k], isBeta, false)), Err(isBeta(ids[k]).error))
  {
    PhaseStopsAt(OldClient(serve), ids, isBeta, k);
  }

  lemma {:induction false} PhaseStopsAt(d: Downloader, ids: seq<Option<string>>, isBeta: Option<string> -> Result<bool>, k: nat)
    requires k < |ids| && isBeta(ids[k]).Err? && Decided(ids[..k], isBeta)
    ensures Phase(d, ids, isBeta) == Trace(AttemptsOf(d, Selected(ids[..k], isBeta, d.BetaClient?)), Err(isBeta(ids[k]).error))
    decreases k
  {
    if k == 0 {
      assert ids[..k] == [];
    } else {
      var pre := ids[..k];
      DecidedTail(pre, isBeta);
      assert pre[0] == ids[0];
      assert ids[1..][..k - 1] == pre[1..];
      assert ids[1..][k - 1] == ids[k];
      PhaseStopsAt(d, ids[1..], isBeta, k - 1);
      assert [pre[0]] + pre[1..] == pre;
      SelectedCons(pre[0], pre[1..], isBeta, d.BetaClient?);
      var own := if isBeta(pre[0]) == Ok(d.BetaClient?) then [pre[0]] else [];
      AttemptsOfConcat(d, own, Selected(pre[1..], isBeta, d.BetaClient?));
    }
  }

  /** The two albums of the project's tests: the old one is downloaded first,
      then the login, then the beta one. */
  lemma TestAlbumsRunInOrder(resolve: string -> Option<string>, isBeta: Option<string> -> Result<bool>,
                             serve: string -> Sockets, post: Request -> Json)
    requires resolve(OldAlbumUrl) == Some(OldAlbumId)
    requires resolve(BetaAlbumUrl) == Some(BetaAlbumId)
    requires isBeta(Some(OldAlbumId)) == Ok(false) && isBeta(Some(BetaAlbumId)) == Ok(true)
    requires TokenOf(post(UnseeBeta.LoginRequest())).Ok?
    ensures var run := Downloads(AlbumIds([OldAlbumUrl, BetaAlbumUrl], resolve), isBeta, serve, post);
            && run.status == Ok(())
            && |run.events| == 3
            && run.events[0].Attempted? && run.events[0].generation == Old && run.events[0].albumId == Some(OldAlbumId)
            && run.events[1] == LoggedIn(Ok(()))
            && run.events[2].Attempted? && run.events[2].generation == Beta && run.events[2].albumId == Some(BetaAlbumId)
  {
    var a, b := Some(OldAlbumId), Some(BetaAlbumId);
    var ids := AlbumIds([OldAlbumUrl, BetaAlbumUrl], resolve);
    assert ids == [a, b];
    assert Decided(ids, isBeta);
    DownloadsInOrder(ids, isBeta, serve, post);
    SelectedCons(a, [b], isBeta, false);
    SelectedCons(a, [b], isBeta, true);
    SelectedCons(b, [], isBeta, false);
    SelectedCons(b, [], isBeta, true);
    assert Selected(ids, isBeta, false) == [a];
    assert Selected(ids, isBeta, true) == [b];
  }

  const OldAlbumUrl: string := "https://app.unsee.cc/#243dbd04"
  const OldAlbumId: string := "243dbd04"
  const BetaAlbumUrl: string := "https://beta-app.unsee.cc/#t5jy62MGOCbRucOh"
  const BetaAlbumId: string := "t5jy62MGOCbRucOh"

  /** `run_downloader`, given the resolution of the arguments, the id test,
      and what the two sites answer. */
  method RunDownloader(urls: seq<string>, resolve: string -> Option<string>, isBeta: Option<string> -> Result<bool>,
                       serve: string -> Sockets, post: Request -> Json, outDir: string, groupAlbum: bool)
    returns (events: seq<Event>, status: Result<()>)
    ensures Trace(events, status) == Downloads(AlbumIds(urls, resolve), isBeta, serve, post)
  {
    var ids := AlbumIds(urls, resolve);
    var client := new UnseeDl.Client(outDir, groupAlbum);
    events, status := OldLoop(client, ids, isBeta, serve);
    if status.Err? {
      return;
    }
    var beta := new UnseeBeta.Client(outDir, groupAlbum);
    var login := beta.AnonymousLogin(post);
    if login.Err? {
      events := events + [LoggedIn(login)];
      status := login;
      return;
    }
    var betaEvents;
    betaEvents, status := BetaLoop(beta, ids, isBeta, post);
    events := events + [LoggedIn(Ok(()))] + betaEvents;
  }

  /** The first `async with` block. */
  method OldLoop(client: UnseeDl.Client, ids: seq<Option<string>>, isBeta: Option<string> -> Result<bool>, serve: string -> Sockets)
    returns (events: seq<Event>, status: Result<()>)
    ensures Trace(events, status) == Phase(OldClient(serve), ids, isBeta)
  {
    ghost var d := OldClient(serve);
    events := [];
    for i := 0 to |ids|
      invariant Phase(d, ids, isBeta) == Prefixed(events, Phase(d, ids[i..], isBeta))
    {
      assert ids[i..][0] == ids[i] && ids[i..][1..] == ids[i + 1..];
      var b := isBeta(ids[i]);
      if b.Err? {
        return events, Err(b.error);
      }
      if !b.value {
        var outcome: Result<()>;
        if ids[i].None? {
          outcome := Err(TypeError);
        } else {
          var s := serve(ids[i].value);
          var report := client.DownloadAlbum(ids[i].value, s.settings, s.pubsub, s.imgpush);
          outcome := report.status;
        }
        events := events + [Attempted(Old, ids[i], outcome)];
      }
    }
    assert ids[|ids|..] == [];
    status := Ok(());
  }

  /** The loop of the second `async with` block, after the login. */
  method BetaLoop(client: UnseeBeta.Client, ids: seq<Option<string>>, isBeta: Option<string> -> Result<bool>, post: Request -> Json)
    returns (events: seq<Event>, status: Result<()>)
    ensures Trace(events, status) == Phase(BetaClient(client.token, post), ids, isBeta)
  {
    ghost var d := BetaClient(client.token, post);
    events := [];
    for i := 0 to |ids|
      invariant Phase(d, ids, isBeta) == Prefixed(events, Phase(d, ids[i..], isBeta))
    {
      assert ids[i..][0] == ids[i] && ids[i..][1..] == ids[i + 1..];
      var b := isBeta(ids[i]);
      if b.Err? {
        return events, Err(b.error);
      }
      if b.value {
        var outcome: Result<()>;
        if ids[i].None? {
          outcome := Err(TypeError);
        } else {
          outcome := client.DownloadAlbum(ids[i].value, post);
        }
        events := events + [Attempted(Beta, ids[i], outcome)];
      }
    }
    assert ids[|ids|..] == [];
    status := Ok(());
  }
}
