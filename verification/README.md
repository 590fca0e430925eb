# Upload handlers of the Tubely file-storage service, modelled in Dafny

The service lets the owner of a video record upload two kinds of media:

- a video, which is remuxed for fast start, probed for its aspect ratio and stored in an S3 bucket under `<prefix>/<name>.mp4`;
- a thumbnail, which is written to the local `assets/` directory and served by the service's own file server.

Both handlers authenticate the caller and check ownership. Each then updates the record and answers with it as JSON. The video handler answers with a short-lived signed URL in place of the stored `bucket,key` locator.

This project models the pure logic inside the two handlers. Each handler is a total function from the outcomes of its collaborators to a `Run`, which holds:

- the exit: the step that failed, or completion;
- the HTTP response;
- the calls with lasting effect it made: record lookup, object upload, asset write and record update.

The project proves properties of that function. Collaborator outcomes include JWT validation, the database, multipart parsing, ffmpeg/ffprobe, S3, presigning and the random source.

Modules, one per concept:

| file | module | what it holds |
|---|---|---|
| `wrappers.dfy` | `Wrappers` | `Option` |
| `strings.dfy` | `Strings` | Go's `strings.Split` for a one-character separator, its inverse `Join`, and round trips |
| `base64url.dfy` | `Base64Url` | `base64.RawURLEncoding` (section 5 of RFC 4648, no padding), a strict decoder, and both round trips |
| `aspect.dfy` | `Aspect` | aspect classification on exact integers with a real-division reference; the prefix map |
| `naming.dfy` | `Naming` | media-type extension, object key, thumbnail path and URL |
| `records.dfy` | `Records` | the video record |
| `locator.dfy` | `Locator` | the `bucket,key` locator and the conversion to a signed record (`dbVideoToSignedVideo`) |
| `effects.dfy` | `Effects` | calls, responses and HTTP status codes, shared by both handlers |
| `upload_video.dfy` | `UploadVideo` | the video handler, its fail-fast order, its trace and the temporary-file finding |
| `upload_thumbnail.dfy` | `UploadThumbnail` | the thumbnail handler, its fail-fast order and its trace |

**How the handlers are stated.** Each handler has a step datatype listing its failure points in source order. `Passes(req, world, s)` judges each check from the inputs alone. `Scan` is a reference: it walks the steps in order and stops at the first failing check. The handler itself is written as the source is, stage by stage, and `HandleInOrder` proves it takes the scan's exit. From that the project derives three results:

- fail-fast (`HandleFailsFast`);
- completion (`HandleCompletes`);
- the exact call trace (`HandleTrace`), from which "no mutation before every earlier check passed" follows.

## Model

| member | source | states |
|---|---|---|
| Aspect.ClassifyIsOneOfThree | handler_upload_video.go:43-50 | every width and height gets one of the labels `16:9`, `9:16`, `other` |
| Aspect.ClassifyMatchesRatio | handler_upload_video.go:43-50 | the integer cross-multiplication classifier agrees with classifying the exact quotient width/height, for all integers, a zero height giving `other` |
| Aspect.ClassifyWindows | handler_upload_video.go:43-50 | for a non-zero height the label is `16:9` iff 1.77 < w/h < 1.79, `9:16` iff 0.56 < w/h < 0.57, and `other` iff the ratio is in neither window |
| Aspect.BoundariesAreOther | handler_upload_video.go:44-49 | ratios exactly 1.77, 1.79, 0.56 or 0.57, and a zero height, are `other`: the windows are open |
| Aspect.PrefixMap | handler_upload_video.go:190-196 | `16:9`, `9:16`, `other` map to `landscape`, `portrait`, `other` (each iff), any other label to the empty prefix; no prefix holds `/` or `,` |
| Aspect.PrefixOfClassification | handler_upload_video.go:190-196 | a classified stream always gets one of the three non-empty prefixes, landscape exactly for `16:9` and portrait exactly for `9:16` |
| Aspect.PrefixOfProbe | handler_upload_video.go:186-196 | because the probe error is discarded, the label and the prefix are empty exactly when probing failed |
| Base64Url.Encode | handler_upload_video.go:206 | the unpadded encoding of n bytes has ceil(4n/3) characters, all from the URL-safe alphabet |
| Base64Url.Decode | handler_upload_video.go:206 | the strict decoder accepts only URL-safe text |
| Base64Url.DecodeEncode | handler_upload_video.go:206 | decoding an encoding gives back the bytes, for every byte string |
| Base64Url.EncodeDecode | handler_upload_video.go:206 | every text the strict decoder accepts is the encoding of what it decodes to, so the two are inverse bijections |
| Base64Url.EncodeInjective | handler_upload_video.go:199-206 | distinct random buffers give distinct file names |
| Base64Url.RandomNameShape | handler_upload_video.go:199-206 | 32 random bytes give a 43-character URL-safe name with no `=`, `,`, `/` or `.` |
| Strings.Split | handler_upload_video.go:207 | `strings.Split` returns at least one piece, exactly one iff the separator is absent, and no piece holds the separator |
| Strings.JoinOfSplit | handler_upload_video.go:81 | joining the pieces of a split with the separator gives back the string |
| Strings.SplitOfJoin | handler_upload_video.go:81 | splitting a join of separator-free pieces gives back the pieces |
| Naming.Extension | handler_upload_video.go:207 | the extension, the second `/`-piece of the media type, holds no `/` |
| Naming.ExtensionOfMediaType | handler_upload_video.go:207 | the extension of `t/sub` is `sub` when neither part holds `/` |
| Naming.Mp4Extension | handler_upload_video.go:207 | the extension of `video/mp4` is `mp4` |
| Naming.JpegExtension | handler_upload_thumbnail.go:73 | the extension of `image/jpeg` is `jpeg` |
| Naming.PngExtension | handler_upload_thumbnail.go:73 | the extension of `image/png` is `png` |
| Naming.ObjectKey | handler_upload_video.go:208 | the key is two characters longer than its three parts together, with `/` right after the prefix and `.` right after the name |
| Naming.ObjectKeyPieces | handler_upload_video.go:208 | before the `/` the key holds exactly the prefix, between `/` and `.` exactly the name, and after the `.` exactly the extension |
| Naming.ObjectKeyHasNoComma | handler_upload_video.go:208 | a key built from comma-free parts is comma-free, so it survives the `bucket,key` locator |
| Naming.ObjectKeyParts | handler_upload_video.go:208 | splitting the key on `/` and then on `.` recovers prefix, name and extension |
| Naming.ObjectKeyInjective | handler_upload_video.go:208 | distinct (prefix, name, extension) triples give distinct keys |
| Naming.ThumbnailLocationParts | handler_upload_thumbnail.go:84 | the thumbnail path lies directly under `assets` and splits back into name and extension |
| Naming.ThumbnailUrlShape | handler_upload_thumbnail.go:96 | the thumbnail URL is `http://localhost:<port>/assets/<name>.<ext>` |
| Locator.Parse | handler_upload_video.go:81-86 | reading a locator fails exactly when it holds no comma; bucket and key are comma-free, their serialisation is a prefix of the text, and that prefix ends at the end of the text or at the next comma, so the key is the whole second piece |
| Locator.ParseSerialize | handler_upload_video.go:81-86 | a locator with comma-free bucket and key reads back as itself |
| Locator.CommaInKeyIsCut | handler_upload_video.go:81-86 | a key with a comma reads back cut at its first comma |
| Locator.ToSignedCases | handler_upload_video.go:76-93 | the conversion changes only the video URL: a missing or comma-free locator passes through without error, a presign error returns the record unchanged with the error, and otherwise the signed URL replaces the locator |
| Locator.SignsStoredLocator | handler_upload_video.go:76-93 | a stored comma-free locator is presigned for exactly its bucket and key; the conversion fails iff the presigner does |
| UploadVideo.KeyShape | handler_upload_video.go:206-208 | the upload key is `<prefix>/<name>.<ext>`, where ext is the second piece of `video/mp4`, namely `mp4`, and the name is the 43-character URL-safe encoding of the drawn bytes |
| UploadVideo.KeySeparators | handler_upload_video.go:207-208 | the key is comma-free and splits on `/` into the prefix and the file name |
| UploadVideo.SignsPersisted | handler_upload_video.go:223-237 | signing the written-back record fails iff the presigner fails on the bucket and key just uploaded; otherwise only its URL is replaced by the signed one |
| UploadVideo.Authenticate | handler_upload_video.go:100-119 | the first three checks stop before the lookup, or yield the parsed identifier and the token's user |
| UploadVideo.AuthenticateInOrder | handler_upload_video.go:100-119 | the identifier, token and JWT checks stop where the in-order scan stops |
| UploadVideo.Authorize | handler_upload_video.go:121-131 | the lookup and the owner check stop at one of those two steps or yield the stored record owned by the caller |
| UploadVideo.AuthorizeInOrder | handler_upload_video.go:121-131 | the lookup and owner checks agree with the in-order scan |
| UploadVideo.Receive | handler_upload_video.go:135-151 | reading the part, parsing its type and the `video/mp4` check stop in that range or yield exactly the accepted type |
| UploadVideo.ReceiveInOrder | handler_upload_video.go:135-151 | the file and media-type checks agree with the in-order scan |
| UploadVideo.Process | handler_upload_video.go:153-189 | staging, copying, rewinding, remuxing, opening and reading the first probed stream stop in that range or leave a readable probe |
| UploadVideo.ProcessInOrder | handler_upload_video.go:153-189 | the staging and processing checks agree with the in-order scan |
| UploadVideo.Store | handler_upload_video.go:198-239 | a failure answers with that step's error; completion answers 200 with the signed form of the written-back record |
| UploadVideo.Reply | handler_upload_video.go:233-239 | a signing error is reported as the signing failure and keeps the calls made; otherwise the run completes |
| UploadVideo.StoreInOrder | handler_upload_video.go:198-239 | naming, upload, update and signing stop where the in-order scan stops, and make exactly the reference's calls for that exit |
| UploadVideo.Handle | handler_upload_video.go:95-240 | every failure answers with its step's status and message; a completed run answers 200 with the signed written-back record |
| UploadVideo.HandleInOrder | handler_upload_video.go:95-240 | the handler takes the exit of the in-order scan of all its checks |
| UploadVideo.HandleFailsFast | handler_upload_video.go:100-237 | the handler fails at step s iff the check at s fails and every earlier check passes |
| UploadVideo.HandleCompletes | handler_upload_video.go:95-240 | the handler answers 200 iff every check passes |
| UploadVideo.HandleReaches | handler_upload_video.go:95-240 | a run gets past the first k checks iff all of them pass |
| UploadVideo.HandleTrace | handler_upload_video.go:122-227 | the calls made are exactly: the lookup once reached, the upload once reached, the update once reached, in that order |
| UploadVideo.UpdatesOnlyAfterEarlierChecks | handler_upload_video.go:225-231 | the record is updated iff every check before the update, the upload included, passed; the update then writes the loaded record pointing at the uploaded object |
| UploadVideo.UploadsOnlyAfterEarlierChecks | handler_upload_video.go:212-221 | an object is uploaded iff every check before the upload passed, and then under the run's key with type `video/mp4` |
| UploadVideo.NonOwnerRejected | handler_upload_video.go:128-131 | a caller who does not own the video gets 401 "Not owner of video" after only the lookup |
| UploadVideo.MissingVideoRejected | handler_upload_video.go:122-126 | a failed lookup gets 404 "Couldn't get video" and nothing else is done |
| UploadVideo.UnsupportedTypeRejected | handler_upload_video.go:148-151 | an owner sending any type other than `video/mp4` gets 415 before anything is staged, after only the lookup |
| UploadVideo.FailureStatuses | handler_upload_video.go:100-237 | failures up to the media-type check are client errors (4xx), except reading the file part; later failures are 500s; only the empty probe drops the connection |
| UploadVideo.EmptyProbeDropsConnection | handler_upload_video.go:43 | a probe listing no stream panics on the first stream: no response is written and nothing is uploaded or updated |
| UploadVideo.ProbeFailureKeyAtRoot | handler_upload_video.go:186-208 | a failed probe gives the empty prefix, so the key starts with `/` |
| UploadVideo.WideVideoKey | handler_upload_video.go:43-45 | a 1280x720 first stream is stored under `landscape/<name>.mp4` |
| UploadVideo.PersistedLocator | handler_upload_video.go:223-225 | the written-back record differs from the loaded one only in its locator, which reads back as the bucket and the uploaded key |
| UploadVideo.CompletedResponse | handler_upload_video.go:233-239 | a completed run answers 200 with the loaded record whose URL is the presigned five-minute URL for the uploaded bucket and key |
| UploadVideo.LeftAsWrittenOnlyAtOpen | handler_upload_video.go:153-183 | as written, a run leaves a temporary file behind iff opening the remuxed output fails, and the file it leaves is that output |
| UploadVideo.HandleLeavesProcessedFile | handler_upload_video.go:172-183 | the handler leaves the remuxed output on disk iff every check before opening it passes and the open fails |
| UploadVideo.ProcessedFileLeaks | handler_upload_video.go:177-182 | a concrete request whose run leaves the remuxed output behind |
| UploadVideo.CleanupCompleteIff | handler_upload_video.go:159-183 | with the remuxed output's removal registered after step reg, every run removes every file it created iff reg comes no later than the remux |
| UploadVideo.ScopedCleanupLeavesNothing | handler_upload_video.go:159-183 | registering the output's removal right after the remux leaves no file behind on any run, while registering it after the open, as written, leaves one behind on some run |
| UploadThumbnail.AllowList | handler_upload_thumbnail.go:57-60 | a thumbnail type is accepted iff it is `image/jpeg` or `image/png` |
| UploadThumbnail.ExtensionOfAllowed | handler_upload_thumbnail.go:73-84 | the extension split off an accepted type is `jpeg` or `png`, `jpeg` exactly for `image/jpeg` |
| UploadThumbnail.LocationShape | handler_upload_thumbnail.go:73-84 | the asset path is `assets/<name>.<ext>` with a 43-character URL-safe name and ext in {jpeg, png}, and splits back into its parts |
| UploadThumbnail.UpdatedRecord | handler_upload_thumbnail.go:96-97 | the written-back record keeps id, owner and video URL; its thumbnail URL is the file server's address of the asset |
| UploadThumbnail.Authenticate | handler_upload_thumbnail.go:18-35 | the first three checks stop before the form is read, or yield the identifier and the token's user |
| UploadThumbnail.AuthenticateInOrder | handler_upload_thumbnail.go:18-35 | the identifier, token and JWT checks agree with the in-order scan |
| UploadThumbnail.Receive | handler_upload_thumbnail.go:39-60 | form, file part, content type and allow-list stop in that range or yield an allowed type that is the part's |
| UploadThumbnail.ReceiveInOrder | handler_upload_thumbnail.go:39-60 | the form and media-type checks agree with the in-order scan |
| UploadThumbnail.Authorize | handler_upload_thumbnail.go:62-71 | the lookup and owner check stop at one of those steps or yield the caller's record |
| UploadThumbnail.AuthorizeInOrder | handler_upload_thumbnail.go:62-71 | the lookup and owner checks agree with the in-order scan |
| UploadThumbnail.Store | handler_upload_thumbnail.go:73-105 | a failure answers with that step's error; completion answers 200 with the record pointing at the new asset |
| UploadThumbnail.StoreInOrder | handler_upload_thumbnail.go:73-105 | naming, asset write and update stop where the in-order scan stops, making exactly the reference's calls |
| UploadThumbnail.Handle | handler_upload_thumbnail.go:17-106 | every failure answers with its step's status and message; completion answers 200 with the updated record |
| UploadThumbnail.HandleInOrder | handler_upload_thumbnail.go:17-106 | the handler takes the exit of the in-order scan: ID, token, JWT, form, file, content type, allow-list, lookup, owner, name, create, copy, update |
| UploadThumbnail.HandleFailsFast | handler_upload_thumbnail.go:18-103 | the handler fails at step s iff the check at s fails and every earlier check passes |
| UploadThumbnail.HandleCompletes | handler_upload_thumbnail.go:17-106 | the handler answers 200 iff every check passes |
| UploadThumbnail.HandleReaches | handler_upload_thumbnail.go:17-106 | a run gets past the first k checks iff all of them pass |
| UploadThumbnail.HandleTrace | handler_upload_thumbnail.go:62-99 | the calls made are exactly: the lookup once reached, the asset write once reached, the update once reached |
| UploadThumbnail.UpdatesOnlyAfterEarlierChecks | handler_upload_thumbnail.go:96-103 | the record is updated iff every check before the update passed, and then with the loaded record pointing at the asset |
| UploadThumbnail.UnsupportedTypeRejected | handler_upload_thumbnail.go:57-62 | a type off the allow-list gets 400 "Unsupported file type" and no call at all is made |
| UploadThumbnail.NoLookupBeforeMediaType | handler_upload_thumbnail.go:18-62 | a run stopping at or before the media-type check has made no call, so no lookup |
| UploadThumbnail.MissingVideoRejected | handler_upload_thumbnail.go:62-66 | a failed lookup gets 500 "Couldn't retrieve video" after only the lookup |
| UploadThumbnail.NonOwnerRejected | handler_upload_thumbnail.go:68-71 | a caller who does not own the video gets 401 "Unauthorized to access file" after only the lookup |
| UploadThumbnail.CompletedResponse | handler_upload_thumbnail.go:96-105 | a completed run answers 200 with the loaded record whose thumbnail URL is `http://localhost:<port>/assets/<name>.<ext>`, ext the split-off subtype |

## Left out

- ffmpeg and ffprobe are not run and their JSON output is not parsed. Their outcomes are inputs: whether the remux succeeded, and whether probing failed or listed some streams with widths and heights.
- Floating-point division in `getVideoAspectRatio` is replaced by exact integer cross-multiplication. `Aspect.ClassifyMatchesRatio` proves this agrees with exact real division. Binary rounding of `float64` near the window ends is not modelled.
- An empty stream list makes `output.Streams[0]` panic. The model does not forbid that input: it gives the run a `ReadStreams` exit whose response is `Dropped`, the net/http server dropping the connection after recovering the panic.
- The probe error is ignored as the code ignores it. The label is then empty, so the prefix is empty and the key starts with `/`. A fail-fast on probe errors would be the cleaner design, but the code does not fail there, and the model follows the code.
- S3 `PutObject`, presigning, JWT validation, the database, `uuid.Parse`, `mime.ParseMediaType`, `FormFile`, `ParseMultipartForm` and `MaxBytesReader` are not modelled beyond their success or failure. The presigner is a function parameter. The 1 GiB body cap (`MaxUploadBytes`) is modelled as a body size above which reading the file part fails. The 10 MiB form-memory cap of the thumbnail handler appears only as the form parsing outcome.
- `crypto/rand` is not modelled: the 32 bytes it yields, or its failure, are an input.
- Logging and JSON serialisation of the response body are left out. The response carries the record itself.
- Bucket names are comma-free (the `Bucket` type), as object-store bucket naming rules require. Without that, `dbVideoToSignedVideo` would cut the bucket at a comma.
- `UploadVideo.Key` is written with the literal subtype `mp4`. `UploadVideo.KeyShape` proves it equal to the second `/`-piece of `video/mp4`, which is what the code computes. `UploadThumbnail.Location` is written the same way, with the literal `jpeg`/`png` subtypes, and `UploadThumbnail.ExtensionOfAllowed` proves the same equality for the thumbnail types.
- Record fields other than the identifier, the owner and the two URLs are not modelled, since the handlers only copy them.
- The temporary-file model covers only files the handler creates successfully. Partial ffmpeg output after a failed remux is not modelled.
- The thumbnail's destination file is never closed, and a failed copy leaves a partial asset on disk. File-handle lifetimes and asset cleanup are not modelled for the thumbnail handler.
- The signed URL replaces the locator only in the response, as in the code. The stored record keeps the locator.

## Findings

| source | as written | input that shows it | evidently intended | confidence | as-written member | corrected member |
|---|---|---|---|---|---|---|
| handler_upload_video.go:177-183 | the deferred removal of the remuxed output is registered only after `os.Open` of it succeeds | a request where every check through the remux succeeds and opening `<temp>.processing` fails: the handler answers 500 and the remuxed file stays in the temp directory | register the removal as soon as ffmpeg has written the output, so every run removes every temporary file it created | medium, not executed | UploadVideo.ProcessedFileLeaks | UploadVideo.ScopedCleanupLeavesNothing |
