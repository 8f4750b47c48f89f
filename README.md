# unsee-dl, modelled in Dafny

unsee-dl downloads image albums from the unsee.cc family of image-sharing
sites. This project models the logic under its sockets and HTTP calls. Every
server exchange becomes an input: the websocket messages a channel delivers,
the JSON an endpoint answers, the chunks of a response body. The model covers:

- **The three image records** (`UnseeImage` in unsee_dl/unsee_old.py,
  unsee_dl/unsee.py and unsee/unsee_dl.py). Each derives an id from the
  content hash, names the file, builds the output path and writes a blob or
  a chunked stream into a filesystem held as a map from paths to bytes.
- **The websocket clients** (`ClientOld`, `unsee_dl.Client` and the
  stand-alone `download_album`). They share one protocol:
  1. a pub/sub loop builds a manifest of `"image"` announcements;
  2. an album notice is printed;
  3. an imgpush loop writes each payload and removes the first manifest
     entry with the derived id, closing the channel once the manifest is
     empty.

  The three copies differ in ways the model pins down:
  - whether an empty manifest returns before imgpush;
  - whether non-binary messages are parsed;
  - which image record each binds to. `unsee_dl.Client` calls the two-argument
    record of unsee_dl/unsee.py with keywords it does not take, so every
    payload raises TypeError, the `except` swallows it and nothing is ever
    written.
- **Album-id extraction.** There are two `get_album_id_from_url` variants:
  - unsee/unsee_dl.py: a host check, then the first non-empty path segment;
  - unsee_co/unsee_co.py: drop one leading character on unsee.co, otherwise
    keep the path unchanged.
- **unsee.co** (`UnseeCo`): the URL listing, with its `"not-found"` sentinel
  and `otherUrls`, and the numbering of saved images by index.
- **The GraphQL clients** (`ClientBeta`, `Client` of unsee_dl/unsee_new.py):
  - the token of the login;
  - the bearer header;
  - the `errors` check;
  - the null, empty or listed `images`;
  - the per-image download.

  The beta client calls the two-argument record with four arguments, so a
  non-empty album raises at its first image.
- **`run_downloader`** (main.py):
  1. split the ids by the beta test;
  2. attempt every old album, isolating each one's failure;
  3. log in to beta once;
  4. attempt every beta album.
- **`generate_py_code`** (names_generator.py): the serialiser of the names
  module, with a reader that recovers the names from its output.

Operations that change state are methods of classes, each specified against
functions of the inputs:
- `FileSystem`, `ChunkStream`, the image records, the clients;
- the manifest loops, the chunk-copy loop, the album loops, the row loop.

The properties are lemmas about those functions.

The code is followed where it and its documentation disagree:
- The unsee.co and new-site clients have no per-image `try`. The first failed
  save ends the album and skips every later image (`UnseeCo.Outcome`,
  `UnseeNew.Outcome`).
- `unsee_dl.Client` and the beta client, as bound to unsee_dl/unsee.py, never
  save an image (`UnseeDl.DlNeverReconciles`, `UnseeBeta.BetaNeverSaves`).

## Model

| member | source | states |
|---|---|---|
| `Values.NatToString` | unsee_co/unsee_co.py:51 | `f"{index}"` is a non-empty decimal rendering |
| `Values.NatToStringInjective` | unsee_co/unsee_co.py:51 | distinct indices render as distinct ids |
| `Values.FirstWhere` | unsee_dl/unsee_old.py:172-175 | the result is the first index where the test answers true, and every earlier element answered false; None means every element answered false |
| `Values.FirstWhereError` | unsee_dl/unsee_old.py:172-175 | a failing search failed because the test raised on some element |
| `Values.FirstWhereSkip` | unsee_dl/unsee_old.py:172-175 | elements that answered false can be skipped: the search over the rest, shifted, is the search over the whole |
| `Values.ListRemoveAt` | unsee_dl/unsee_old.py:176-177 | `list.remove` of the element at k, when no earlier element equals it, removes exactly index k |
| `Files.FileSystem.Open` | unsee_dl/unsee_old.py:38 | opening for writing fails exactly on a denied path; otherwise it creates or truncates the file |
| `Files.FileSystem.Append` | unsee_dl/unsee_old.py:39 | a write appends its bytes to the open file and changes nothing else |
| `Files.ChunkStream.Read` | unsee_dl/unsee_old.py:61 | a read yields the next chunk, or an empty chunk at the end without moving |
| `Files.UntilEmptyIsLongestNonEmptyPrefix` | unsee_dl/unsee_old.py:60-64 | the chunks written are the longest prefix of non-empty chunks; the loop consumes them plus the empty chunk that stops it, if any |
| `Files.StreamContentWithoutEmptyChunk` | unsee_dl/unsee_old.py:60-64 | a stream with no empty chunk is written out whole, in order |
| `Files.CopyStream` | unsee_dl/unsee_old.py:59-64 | the file gains exactly the chunks before the first empty one, and the stream advances past that chunk and no further |
| `Files.ApplyWritesLastWins` | unsee_dl/unsee_old.py:38-39 | a path holds the content of the last write to it, because each open truncates |
| `Files.ApplyWritesElsewhere` | unsee_dl/unsee_old.py:38-39 | a path no write targets keeps its presence and content |
| `Naming.DerivedId` | unsee_dl/unsee_old.py:33 | the derived id is the album id, `_`, then 16 hexadecimal digits |
| `Naming.DerivedIdCollision` | unsee_dl/unsee_old.py:32-33 | two payloads of one album get the same id exactly when their digests agree on the first 16 characters |
| `Naming.OutputFilePath` | unsee_dl/unsee_old.py:68-75 | the file is under `out_path`, in an album directory exactly when grouping, and ends with the basename |
| `Naming.OutputFilePathInjective` | unsee_dl/unsee_old.py:68-75 | within one output directory distinct basenames give distinct files |
| `Naming.BlobBasenameInjective` | unsee_dl/unsee_old.py:35 | distinct ids give distinct `{id}.jpg` names |
| `Naming.StreamBasenameInjective` | unsee_dl/unsee_old.py:56 | within an album distinct ids give distinct `{album}_{id}.jpg` names |
| `Naming.IdAfterBlob` | unsee_dl/unsee_old.py:31-33 | after a blob write the id is truthy: kept if it was truthy, otherwise derived from the album and the digest |
| `Naming.BlobFile` | unsee_dl/unsee_old.py:30-38 | a blob write opens `{id}.jpg` on the output path, or fails with OSError on a denied path |
| `Naming.StreamFile` | unsee_dl/unsee_old.py:53-59 | a stream write raises ValueError exactly when the id is falsy, and otherwise opens `{album}_{id}.jpg` |
| `Naming.BlobWriteEnablesStreamWrite` | unsee_dl/unsee_old.py:30-56 | after a blob write a stream write of the same record never raises ValueError |
| `SocketProtocol.TypeAction` | unsee_dl/unsee_dl.py:67-72 | an announcement is appended exactly when its `type` is `"image"`, and the lookup error is raised when it has none |
| `SocketProtocol.Collect` | unsee_dl/unsee_dl.py:62-74 | every manifest entry is an `"image"` announcement, and there are no more entries than messages |
| `SocketProtocol.PubSub` | unsee_dl/unsee_dl.py:62-74 | the pub/sub loop builds exactly the manifest and outcome of `Collect` |
| `SocketProtocol.EndOfAnnouncements` | unsee_dl/unsee_old.py:127-139 | the index of the first message that ends the loop, with no earlier one ending it |
| `SocketProtocol.CollectIsImagesBeforeEnd` | unsee_dl/unsee_old.py:127-139 | the manifest is exactly the `"image"` messages, in arrival order, before the first BINARY message of another type or ERROR |
| `SocketProtocol.StepRemovesFirstMatch` | unsee_dl/unsee_old.py:172-177 | a written payload removes the first entry with its id, and only that one |
| `SocketProtocol.StepRemovesAtMostOne` | unsee_dl/unsee_old.py:165-181 | a payload removes at most one entry; a failed or swallowed payload removes none |
| `SocketProtocol.Run` | unsee_dl/unsee_old.py:159-184 | the imgpush loop closes only with an empty manifest, stops on a raising payload, and otherwise takes every payload |
| `SocketProtocol.RunClosesIffEmpty` | unsee_dl/unsee_old.py:183-184 | after each payload the channel is closed exactly when the manifest is empty |
| `SocketProtocol.NothingWrittenKeepsManifest` | unsee_dl/unsee_old.py:178-181 | payloads that all fail leave a non-empty manifest unchanged and the channel open |
| `SocketProtocol.InOrderDeliveryClosesAfterLast` | unsee_dl/unsee_old.py:159-184 | images delivered in manifest order with distinct ids close the channel right after the last one |
| `SocketProtocol.WritesOfAreWritten` | unsee_dl/unsee_old.py:169 | every file written comes from a payload handled as written, with its own path and bytes |
| `SocketProtocol.AlbumNotice` | unsee_dl/unsee_old.py:141-149 | the notice carries the title only when `settings` has a non-empty `"title"`, and always the album id and image count |
| `SocketProtocol.SocketAlbum` | unsee_dl/unsee_old.py:104-184 | imgpush runs only after a normal pub/sub and notice, and with the early return only for a non-empty manifest; the album ends as imgpush ends |
| `UnseeOld.Image.constructor` | unsee_dl/unsee_old.py:16-28 | the record keeps its album, id, output path and grouping |
| `UnseeOld.Image.WriteFileFromBlob` | unsee_dl/unsee_old.py:30-41 | the id becomes the derived one when falsy; the blob is written to its file, and nothing is written if the open fails |
| `UnseeOld.Image.WriteFileFromStream` | unsee_dl/unsee_old.py:43-66 | raises ValueError without an id and writes nothing; otherwise the file holds the chunks up to the first empty one |
| `UnseeOld.OldHandles` | unsee_dl/unsee_old.py:159-181 | each payload is handled on its own, in order |
| `UnseeOld.OldWrittenIsDerivedBlob` | unsee_dl/unsee_old.py:165-170 | a written payload was BINARY, carries its derived id, and is written to `{album}_{digest16}.jpg` with its own bytes |
| `UnseeOld.FailedWriteKeepsManifest` | unsee_dl/unsee_old.py:165-181 | a payload whose file cannot be opened removes no manifest entry |
| `UnseeOld.ClientOld.constructor` | unsee_dl/unsee_old.py:79-94 | the client keeps its output path and grouping |
| `UnseeOld.ClientOld.DownloadAlbum` | unsee_dl/unsee_old.py:104-184 | the album report is `SocketAlbum` with the early return, and the files are those its payloads wrote, in order |
| `UnseeOld.ClientOld.ImgPush` | unsee_dl/unsee_old.py:155-184 | the imgpush loop ends as `Run` over the handled payloads, with exactly their writes applied |
| `UnseeOld.ClientOld.HandlePayload` | unsee_dl/unsee_old.py:165-181 | one payload's `try` body: its write and its removal from the manifest, as `OldHandled` says |
| `Unsee.ConstructorCall` | unsee_dl/unsee.py:7-9 | a call binds exactly when its arguments fit `album_id, image_id=None`, and raises TypeError otherwise |
| `Unsee.ConstructorAcceptsItsSignature` | unsee_dl/unsee.py:7-9 | one or two positional arguments, or `image_id` by keyword, are accepted; none or three are not |
| `Unsee.KeywordConstructorCallRaises` | unsee_dl/unsee_dl.py:94 | the call with `out_path` and `group_album` keywords raises TypeError |
| `Unsee.FourArgumentConstructorCallRaises` | unsee_dl/unsee_beta.py:70-72 | the call with four positional arguments raises TypeError |
| `Unsee.Image.constructor` | unsee_dl/unsee.py:7-9 | the record keeps only its album and id |
| `Unsee.Image.WriteFileFromBlob` | unsee_dl/unsee.py:11-22 | as the old record, with the output path and grouping given per call |
| `Unsee.Image.WriteFileFromStream` | unsee_dl/unsee.py:24-51 | as the old record, with the output path and grouping given per call |
| `UnseeDl.PayloadConstructionRaises` | unsee_dl/unsee_dl.py:94 | this client's record construction raises TypeError |
| `UnseeDl.DlHandled` | unsee_dl/unsee_dl.py:89-102 | a payload never writes, and raises outside the `try` exactly when it is an ERROR message |
| `UnseeDl.DlHandles` | unsee_dl/unsee_dl.py:89-102 | each payload is handled on its own, in order |
| `UnseeDl.DlNeverReconciles` | unsee_dl/unsee_dl.py:89-105 | a non-empty manifest is never shrunk, so the channel is never closed |
| `UnseeDl.Client.constructor` | unsee_dl/unsee_dl.py:16-31 | the client keeps its output path and grouping |
| `UnseeDl.Client.DownloadAlbum` | unsee_dl/unsee_dl.py:41-105 | the report is `SocketAlbum` with the early return; imgpush leaves the manifest as listed and open, and takes every payload up to the first ERROR |
| `LegacyDl.Image.constructor` | unsee/unsee_dl.py:21-26 | the id is derived from the content at construction |
| `LegacyDl.Image.WriteFile` | unsee/unsee_dl.py:28-40 | `{id}.jpg` under the output path and optional album directory holds the image bytes, unless the open fails |
| `LegacyDl.Find` | unsee/unsee_dl.py:43-47 | the first item the test accepts, None when none does, or the test's error |
| `LegacyDl.Split` | unsee/unsee_dl.py:54 | `split('/')` gives at least one piece, none holding a `/` |
| `LegacyDl.JoinSplit` | unsee/unsee_dl.py:54 | joining the pieces gives the path back |
| `LegacyDl.SplitAfterPiece` | unsee/unsee_dl.py:54 | a separator-free piece before a separator splits off as one part |
| `LegacyDl.SplitWithoutSeparator` | unsee/unsee_dl.py:54 | a path without `/` is one piece |
| `LegacyDl.SplitJoin` | unsee/unsee_dl.py:54 | splitting a join of separator-free parts gives the parts back |
| `LegacyDl.NonEmpty` | unsee/unsee_dl.py:54 | the filtered segments are non-empty segments of the path, and none remain exactly when all were empty |
| `LegacyDl.NonEmptyHead` | unsee/unsee_dl.py:54-57 | the first kept segment is the first non-empty segment |
| `LegacyDl.GetAlbumIdFromUrl` | unsee/unsee_dl.py:50-57 | an id is found only on `''` or `unsee.cc`, and is non-empty with no `/` |
| `LegacyDl.AlbumIdIsFirstSegment` | unsee/unsee_dl.py:50-57 | an id is found exactly when the host is allowed and some segment is non-empty; it is the first such segment |
| `LegacyDl.AsBinary` | unsee/unsee_dl.py:78-79 | every pub/sub message is parsed, with no filtering by kind |
| `LegacyDl.LegacyHandled` | unsee/unsee_dl.py:97-110 | no payload raises outside the `try`; a payload is written exactly when it is bytes and its file can be opened |
| `LegacyDl.LegacyHandles` | unsee/unsee_dl.py:97-110 | each payload is handled on its own, in order |
| `LegacyDl.LegacyAgreesWithOldRecord` | unsee/unsee_dl.py:21-38 | a bytes payload is written to the same file with the same id as the old record writes it |
| `LegacyDl.EmptyManifestTakesOnePayload` | unsee/unsee_dl.py:95-113 | with no early return, an empty manifest still opens imgpush, which closes after its first payload |
| `LegacyDl.LegacyAlbum` | unsee/unsee_dl.py:60-113 | the manifest is every `"image"` message before the first other type; imgpush runs exactly when the notice is printed, and it cannot fail |
| `LegacyDl.LegacyWritesAreDerivedBlobs` | unsee/unsee_dl.py:101-108 | every file an album writes holds the bytes of one of its payloads |
| `LegacyDl.DownloadAlbum` | unsee/unsee_dl.py:60-113 | the report is `LegacyAlbum`, and the files are those its payloads wrote, in order |
| `LegacyDl.ImgPush` | unsee/unsee_dl.py:96-113 | the imgpush loop ends as `Run` over the handled payloads, with exactly their writes applied |
| `LegacyDl.HandleFrame` | unsee/unsee_dl.py:101-110 | one payload's `try` body, as `LegacyHandled` says |
| `LegacyDl.ParsedPrefix` | unsee/unsee_dl.py:129-131 | the arguments `urlparse` accepts, in order, up to the first it rejects |
| `LegacyDl.RunAll` | unsee/unsee_dl.py:129-139 | the arguments before the first that `urlparse` rejects are attempted in order, whatever each album's outcome; the files are their writes, in order; a rejected argument ends the run with urlparse's error and no later argument is attempted |
| `LegacyDl.AttemptOne` | unsee/unsee_dl.py:132-139 | an unresolvable argument fails without downloading; otherwise its album is downloaded |
| `UnseeCo.ListingUrl` | unsee_co/unsee_co.py:37-38 | the listing URL is the listing prefix followed by the album id |
| `UnseeCo.RenderAll` | unsee_co/unsee_co.py:45-46 | each list item yields its upload URL, in order, up to the first item that cannot be rendered |
| `UnseeCo.CharUrls` | unsee_co/unsee_co.py:45-46 | a string `otherUrls` yields one upload URL per character |
| `UnseeCo.OtherUrls` | unsee_co/unsee_co.py:45-46 | a falsy `otherUrls` yields nothing; every yielded URL is under the uploads prefix |
| `UnseeCo.ImageUrls` | unsee_co/unsee_co.py:36-46 | `"not-found"` raises before any URL; otherwise the primary upload URL comes first, then the others |
| `UnseeCo.RenderAllOfScalars` | unsee_co/unsee_co.py:45-46 | a list of plain values renders completely |
| `UnseeCo.ListingOfScalars` | unsee_co/unsee_co.py:36-46 | a listing with a primary URL and a list of plain values yields 1 + len(otherUrls) URLs, in order |
| `UnseeCo.GetAlbumIdFromUrl` | unsee_co/unsee_co.py:72-78 | on unsee.co the path minus its first character, possibly empty; elsewhere a non-empty path unchanged; otherwise None |
| `UnseeCo.AlbumIdIsPathSuffix` | unsee_co/unsee_co.py:72-78 | a found id is the path or the path with one leading character dropped |
| `UnseeCo.Target` | unsee_co/unsee_co.py:51-52 | the i-th image is saved as `{album}_{i}.jpg`, or fails with OSError |
| `UnseeCo.TargetsDistinct` | unsee_co/unsee_co.py:51 | distinct indices save to distinct files |
| `UnseeCo.Saved` | unsee_co/unsee_co.py:48-53 | images are saved in order up to the first one whose save fails |
| `UnseeCo.Writes` | unsee_co/unsee_co.py:48-69 | one write per saved image |
| `UnseeCo.Outcome` | unsee_co/unsee_co.py:48-53 | a failed save ends the album with its error; otherwise the album ends as the listing does |
| `UnseeCo.SavedImagesKept` | unsee_co/unsee_co.py:48-69 | every saved image's file ends up holding the body it was fetched with |
| `UnseeCo.Client.constructor` | unsee_co/unsee_co.py:11-26 | the client keeps its output path and grouping |
| `UnseeCo.Client.DownloadAlbum` | unsee_co/unsee_co.py:48-53 | the album's outcome and files come from the listing of its URL |
| `UnseeCo.Client.SaveAll` | unsee_co/unsee_co.py:49-53 | the loop saves in order up to the first failure, with exactly those writes |
| `UnseeCo.Client.SaveImage` | unsee_co/unsee_co.py:55-69 | one image is streamed into its file, or the failure is returned and nothing is written |
| `Graphql.BearerHeader` | unsee_dl/unsee_beta.py:195 | the header is `Bearer ` followed by the token's text |
| `Graphql.BearerHeaderInjective` | unsee_dl/unsee_beta.py:195 | the header determines the token's text |
| `Graphql.CheckErrors` | unsee_dl/unsee_beta.py:226-227 | a response fails exactly when it has an `errors` entry that is non-empty or has no length |
| `Graphql.AlbumItems` | unsee_dl/unsee_beta.py:222-238 | errors come first; a falsy `images` yields nothing; a list yields its elements in order |
| `Graphql.Characters` | unsee_dl/unsee_beta.py:237-238 | a string yields its characters, in order |
| `Graphql.ErrorsComeFirst` | unsee_dl/unsee_beta.py:226-227 | a non-empty `errors` array fails whatever else the answer holds |
| `Graphql.AlbumAnswerYieldsItsImages` | unsee_dl/unsee_beta.py:229-238 | an answer without errors yields exactly the images it lists, and none when they are null |
| `Graphql.TokenOf` | unsee_dl/unsee_beta.py:58-61 | the token is found exactly when the answer has `data.getToken.token`, and it is that value |
| `Graphql.TokenOfTokenAnswer` | unsee_dl/unsee_beta.py:58-61 | the token read back from a `getToken` answer is the one it carries |
| `UnseeBeta.BetaOutcome` | unsee_dl/unsee_beta.py:69-73 | an album ends normally exactly when it has no images; its first image otherwise raises |
| `UnseeBeta.BetaNeverSaves` | unsee_dl/unsee_beta.py:69-73 | no album of the beta client saves an image |
| `UnseeBeta.Client.constructor` | unsee_dl/unsee_beta.py:11-26 | the client keeps its output path and grouping and has no token |
| `UnseeBeta.Client.AnonymousLogin` | unsee_dl/unsee_beta.py:36-61 | the login succeeds exactly when the answer carries a token, and then keeps it |
| `UnseeBeta.Client.CreateSession` | unsee_dl/unsee_beta.py:75-182 | `getSessions` is posted first; `sessionCreate` is posted only if the first answer has no errors |
| `UnseeBeta.Client.DownloadAlbum` | unsee_dl/unsee_beta.py:63-73 | the album ends as `BetaOutcome` of the images its `getAlbum` answer lists |
| `UnseeNew.AuthUrl` | unsee_dl/unsee_new.py:41 | the login URL is `https://unsee.cc/auth?chat=` followed by the album id |
| `UnseeNew.Source` | unsee_dl/unsee_new.py:56-59 | an image is fetched from `https://unsee.cc/` + `urlBig`, under its `id`; lookup errors are raised in source order |
| `UnseeNew.Target` | unsee_dl/unsee_new.py:55-59 | an image is saved as `{album}_{id}.jpg`; a falsy id raises ValueError |
| `UnseeNew.Saved` | unsee_dl/unsee_new.py:55-59 | images are saved in list order up to the first one that fails |
| `UnseeNew.Writes` | unsee_dl/unsee_new.py:55-59 | one write per saved image |
| `UnseeNew.Outcome` | unsee_dl/unsee_new.py:55-59 | the album ends normally exactly when every image is saved |
| `UnseeNew.SavedImagesKept` | unsee_dl/unsee_new.py:55-59 | when ids render distinctly, every saved image's file ends up holding the body it was fetched with |
| `UnseeNew.Client.constructor` | unsee_dl/unsee_new.py:12-27 | the client keeps its output path and grouping and has no token |
| `UnseeNew.Client.AnonymousLogin` | unsee_dl/unsee_new.py:37-45 | the login keeps `content["token"]` of the auth answer, or fails with the lookup's error |
| `UnseeNew.Client.DownloadAlbum` | unsee_dl/unsee_new.py:47-59 | the album's images come from its `getAlbum` answer; its outcome and files are those of saving them in order |
| `UnseeNew.Client.SaveAll` | unsee_dl/unsee_new.py:55-59 | the loop saves in order up to the first failure, with exactly those writes |
| `UnseeNew.Client.SaveImage` | unsee_dl/unsee_new.py:56-59 | one image is streamed into its file, or the failure is returned and nothing is written |
| `Orchestrator.Attempt` | main.py:38-40 | a missing id fails the attempt with TypeError before any download |
| `Orchestrator.AlbumIds` | main.py:31 | one resolved id per argument, in order |
| `Orchestrator.PhaseAttemptsSelected` | main.py:36-43 | a loop attempts every id of its own generation exactly once, in order, whatever each outcome |
| `Orchestrator.SelectedPartition` | main.py:31-33 | the two partitions together hold every id exactly as often as it was given |
| `Orchestrator.DownloadsInOrder` | main.py:35-55 | every old album comes first, then exactly one login, then every beta album unless the login failed |
| `Orchestrator.UndecidedEndsRun` | main.py:32-36 | a test that raises ends the run in the first loop, with no login and no beta album |
| `Orchestrator.PhaseStopsAt` | main.py:36 | a loop stops at the first id the test raises on, after attempting the selected ids before it |
| `Orchestrator.TestAlbumsRunInOrder` | tests/test_unsee_dl.py:4-14 | the two test albums run as the old one, the login, then the beta one |
| `Orchestrator.RunDownloader` | main.py:31-55 | the run produces exactly the events and outcome of `Downloads` |
| `Orchestrator.OldLoop` | main.py:35-43 | the first loop produces exactly the old phase |
| `Orchestrator.BetaLoop` | main.py:48-55 | the second loop produces exactly the beta phase, with the logged-in token |
| `NamesGenerator.Row` | names_generator.py:20 | a row is the name, unescaped, between indentation and a quote and the closing `",` line end |
| `NamesGenerator.GeneratePyCode` | names_generator.py:19-37 | the code is the template with the rows of every name, in order, in the list |
| `NamesGenerator.RowsLength` | names_generator.py:33-35 | each name contributes its length plus eight characters |
| `NamesGenerator.ParseRow` | names_generator.py:20 | a row reads back as its name followed by what comes after it |
| `NamesGenerator.ParseRowsOfRows` | names_generator.py:16-35 | on names without quotes, as the `\w*` match guarantees, the rows read back to exactly the names in order |
| `NamesGenerator.GeneratedCodeParts` | names_generator.py:21-37 | the module starts and ends with the template's fixed text, its list reads back to the names, and no names gives an empty list body |

## Left out

- Network I/O: websocket connections, HTTP requests and session open/close. Every channel is a finite sequence of delivered messages or chunks. Every endpoint is a function from request to decoded JSON.
- JSON decoding failures and the `encoding` keyword of `json.loads`. Messages arrive decoded.
- `hashlib.sha256` is a parameter yielding 64 lower-case hexadecimal characters. `names.get_random()` and the `ws_params` query string are left out: no modelled behaviour depends on them.
- `pathlib`: path normalisation, `mkdir` and the string form of a path. A path is its root and its segments.
- The `buffer_size` of stream reads. The chunks are given.
- Messages arriving after `close()` are not modelled. The loops stop at the close.
- Python's `True == 1` and other cross-type equality in the id comparison. Ids compare as JSON values.
- Dict iteration order and `str()` of lists and objects. These would matter for an `otherUrls` or `images` given as an object, or an id that is a list. They give `NotModelled`.
- The fragment-form `get_album_id_from_url` and `is_beta_album_id` that main.py and tests/test_unsee_dl.py import are defined in no modelled file. They are parameters, constrained only by the two test examples (`Orchestrator.TestAlbumsRunInOrder`). The type of `resolve` also makes it total: the model of main.py does not capture an exception raised while an argument is resolved, which would end the run before the first download.
- unsee_co/unsee_co.py imports its record from `unsee_cc.unsee`, which is not part of this model. The record of unsee_dl/unsee_old.py, which takes the same four arguments, stands in.
- `urlparse` itself. Each argument of unsee/unsee_dl.py arrives as the netloc and path `urlparse` gives, or as the ValueError it raises.
- JSON floats. `JNum` holds an integer, so `str()` of a float id such as `1.0`, and the falsiness of `0.0`, are not modelled.
- The GraphQL query texts. A request is its endpoint, operation, variables and header.
- `UnseeBeta.Client.DownloadAlbum`: no loop over the images, since the record construction raises at the first one (`Unsee.FourArgumentConstructorCallRaises`).
- `UnseeCo.Client.DownloadAlbum`: the order of the HTTP GET of an image relative to the writes of earlier images is not modelled, only the files written and the outcome.
- The Selenium downloader of unsee_dl.py, unsee/names.py, `names_generator.retrieve` and `save_file`, setup.py, argparse, logging, printing and the asyncio event loop: none is behaviour of the core.
- The abnormal-close exception of the `websockets` library in unsee/unsee_dl.py. Its messages are bytes or text.
- `NamesGenerator.ParseRows` reads the names back from the text as written. Python's interpretation of a backslash in a name, as a string escape, is not modelled.
