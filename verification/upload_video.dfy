/** The video upload handler as a total function from the outcomes of its
    collaborators to the exit it takes, the response it sends and the calls
    with lasting effect it makes on the way. */
module UploadVideo {

  import opened Wrappers
  import opened Strings
  import opened Base64Url
  import opened Aspect
  import opened Naming
  import opened Records
  import opened Locator
  import opened Effects

  /** The request body cap, 1 GiB. */
  const MaxUploadBytes: nat := 0x4000_0000

  /** The only media type accepted for a video. */
  const AcceptedType: string := VideoTop + "/" + VideoSub
  const VideoTop: string := "video"
  const VideoSub: string := "mp4"

  /** What the handler reads from the request: the outcome of parsing the
      `videoID` path value, the bearer token if the header carries one, the
      size of the body, and the `video` file part if the form has one. */
  datatype Request = Request(
    videoId: Option<Uuid>,
    token: Option<string>,
    bodySize: nat,
    part: Option<Part>)

  /** The outcome of every collaborator call, and the configured bucket. */
  datatype World = World(
    bucket: Bucket,
    jwtUser: Option<Uuid>,      // JWT validation: the user it names
    stored: Option<Video>,      // record lookup by the video identifier
    tempCreated: bool,          // creating the staging file
    copied: bool,               // copying the upload into it
    rewound: bool,              // seeking it back to the start
    remuxed: bool,              // the faststart remux exits successfully
    processedOpened: bool,      // opening the remuxed file
    probe: Probe,               // probing the remuxed file's streams
    random: Option<Bytes32>,    // reading 32 bytes from the secure source
    uploaded: bool,             // the object store accepts the object
    updated: bool,              // the record update succeeds
    presign: Presigner)         // the presigning service

  /** The points at which the handler can stop, in the order it meets them.
      `ReadStreams` is where the first probed stream is read, which panics
      when the probe listed none. */
  datatype Step =
    | ParseId | FindToken | ValidateToken | LoadVideo | CheckOwner
    | ReadFile | ParseContentType | CheckMediaType
    | CreateTemp | CopyToTemp | Rewind | Remux | OpenProcessed
    | ReadStreams | DrawName | Upload | UpdateRecord | SignUrl

  /** The checks in the order the handler makes them. */
  const Order: seq<Step> := [
    ParseId, FindToken, ValidateToken, LoadVideo, CheckOwner,
    ReadFile, ParseContentType, CheckMediaType,
    CreateTemp, CopyToTemp, Rewind, Remux, OpenProcessed,
    ReadStreams, DrawName, Upload, UpdateRecord, SignUrl]

  /** The position of a check in `Order`. */
  function Rank(s: Step): nat {
    match s
    case ParseId => 0
    case FindToken => 1
    case ValidateToken => 2
    case LoadVideo => 3
    case CheckOwner => 4
    case ReadFile => 5
    case ParseContentType => 6
    case CheckMediaType => 7
    case CreateTemp => 8
    case CopyToTemp => 9
    case Rewind => 10
    case Remux => 11
    case OpenProcessed => 12
    case ReadStreams => 13
    case DrawName => 14
    case Upload => 15
    case UpdateRecord => 16
    case SignUrl => 17
  }

  datatype Exit = Failed(step: Step) | Completed

  /** The number of checks, the length of `Order`. */
  const StepCount: nat := 18

  /** How far a run got: the rank of the step it failed at, or one past the
      last step. */
  function ExitRank(e: Exit): nat {
    if e.Completed? then StepCount else Rank(e.step)
  }

  datatype Run = Run(exit: Exit, response: Response, calls: seq<Call>)

  /** Whether the check made at step `s` succeeds, judged from the inputs
      alone. */
  predicate Passes(req: Request, world: World, s: Step) {
    match s
    case ParseId => req.videoId.Some?
    case FindToken => req.token.Some?
    case ValidateToken => world.jwtUser.Some?
    case LoadVideo => world.stored.Some?
    case CheckOwner =>
      world.stored.Some? && world.jwtUser.Some? && world.stored.value.userId == world.jwtUser.value
    case ReadFile => req.bodySize <= MaxUploadBytes && req.part.Some?
    case ParseContentType => req.part.Some? && req.part.value.mediaType.Some?
    case CheckMediaType => req.part.Some? && req.part.value.mediaType == Some(AcceptedType)
    case CreateTemp => world.tempCreated
    case CopyToTemp => world.copied
    case Rewind => world.rewound
    case Remux => world.remuxed
    case OpenProcessed => world.processedOpened
    case ReadStreams => ProbeReadable(world.probe)
    case DrawName => world.random.Some?
    case Upload => world.uploaded
    case UpdateRecord => world.updated
    case SignUrl => SignSucceeds(world)
  }

  /** A probe result the handler can read a first stream from. */
  predicate ProbeReadable(probe: Probe) {
    probe.Probed? ==> |probe.streams| > 0
  }

  /** The inputs determine a key and a persisted record. */
  predicate CanPersist(world: World) {
    world.stored.Some? && world.random.Some? && ProbeReadable(world.probe)
  }

  /** The object key a run that gets this far uploads under:
      `<prefix>/<name>.<ext>`, with the probe's prefix, the encoding of the
      drawn bytes, and the subtype of the accepted media type as extension
      (`KeyShape` shows the extension is what splitting the media type
      yields). */
  function Key(world: World): string
    requires world.random.Some? && ProbeReadable(world.probe)
  {
    ObjectKey(Prefix(ProbeLabel(world.probe)), Encode(world.random.value), VideoSub)
  }

  /** The loaded record with its locator set to the bucket and key. */
  function Persisted(world: World): Video
    requires CanPersist(world)
  {
    world.stored.value.(videoUrl := Some(Serialize(Locator(world.bucket, Key(world)))))
  }

  /** The error reply for each failure point. */
  function FailureResponse(s: Step): Response {
    match s
    case ParseId => Error(StatusBadRequest, "Invalid ID")
    case FindToken => Error(StatusUnauthorized, "Couldn't find JWT")
    case ValidateToken => Error(StatusUnauthorized, "Couldn't validate JWT")
    case LoadVideo => Error(StatusNotFound, "Couldn't get video")
    case CheckOwner => Error(StatusUnauthorized, "Not owner of video")
    case ReadFile => Error(StatusInternalServerError, "Couldn't read video")
    case ParseContentType => Error(StatusBadRequest, "Missing Content-Type for video")
    case CheckMediaType => Error(StatusUnsupportedMediaType, "Unsupported file type")
    case CreateTemp => Error(StatusInternalServerError, "Unable to open temp file")
    case CopyToTemp => Error(StatusInternalServerError, "Unable to upload to server")
    case Rewind => Error(StatusInternalServerError, "Error reading file")
    case Remux => Error(StatusInternalServerError, "Error processing file")
    case OpenProcessed => Error(StatusInternalServerError, "Error opening processed file")
    case ReadStreams => Dropped
    case DrawName => Error(StatusInternalServerError, "Couldn't generate filename")
    case Upload => Error(StatusInternalServerError, "Couldn't upload to S3")
    case UpdateRecord => Error(StatusInternalServerError, "Couldn't update link to video in database")
    case SignUrl => Error(StatusInternalServerError, "Couldn't generate signed videoURL")
  }

  function Fail(s: Step, calls: seq<Call>): Run {
    Run(Failed(s), FailureResponse(s), calls)
  }

  /** Signing succeeds: the presigner signs the bucket and the key the
      record now points to (`SignsPersisted` shows this is exactly when the
      conversion of the persisted record does not fail). */
  predicate SignSucceeds(world: World) {
    CanPersist(world) && world.presign(world.bucket, Key(world), SignedUrlLifetime).Some?
  }

  /** The key a run uploads under is `<prefix>/<name>.mp4`: the prefix is
      the probe's, the name is the 43-character URL-safe encoding of the
      drawn bytes, and the extension is the second `/`-piece of the accepted
      media type. */
  lemma KeyShape(world: World)
    requires world.random.Some? && ProbeReadable(world.probe)
    ensures '/' in AcceptedType && Extension(AcceptedType) == VideoSub == "mp4"
    ensures var name := Encode(world.random.value);
      && Key(world) == Prefix(ProbeLabel(world.probe)) + "/" + name + "." + Extension(AcceptedType)
      && |name| == 43 && AllUrlSafe(name)
  {
    assert AcceptedType == "video/mp4";
    Mp4Extension();
    RandomNameShape(world.random.value);
  }

  /** The key holds no comma, and splitting it on `/` gives back the prefix
      and the file name. */
  lemma KeySeparators(world: World)
    requires world.random.Some? && ProbeReadable(world.probe)
    ensures ',' !in Key(world)
    ensures Split(Key(world), '/') ==
      [Prefix(ProbeLabel(world.probe)), Encode(world.random.value) + "." + VideoSub]
  {
    var prefix, name := Prefix(ProbeLabel(world.probe)), Encode(world.random.value);
    ExtensionOfMediaType(VideoTop, VideoSub);
    PrefixMap(ProbeLabel(world.probe));
    RandomNameShape(world.random.value);
    ObjectKeyHasNoComma(prefix, name, VideoSub);
    ObjectKeyParts(prefix, name, VideoSub);
  }

  /** Converting the persisted record signs exactly the bucket and key it
      was stored under, and replaces only its locator. */
  lemma SignsPersisted(world: World)
    requires CanPersist(world)
    ensures ToSigned(Persisted(world), world.presign).failed <==> !SignSucceeds(world)
    ensures SignSucceeds(world) ==> (ToSigned(Persisted(world), world.presign).video ==
      Persisted(world).(videoUrl := world.presign(world.bucket, Key(world), SignedUrlLifetime)))
  {
    KeySeparators(world);
    SignsStoredLocator(Persisted(world), Locator(world.bucket, Key(world)), world.presign);
  }

  // ---------------------------------------------------------------------
  // The order of the checks, as a reference the handler is proved against.

  /** The check made after `s`, if any. */
  function Next(s: Step): Option<Step> {
    match s
    case ParseId => Some(FindToken)
    case FindToken => Some(ValidateToken)
    case ValidateToken => Some(LoadVideo)
    case LoadVideo => Some(CheckOwner)
    case CheckOwner => Some(ReadFile)
    case ReadFile => Some(ParseContentType)
    case ParseContentType => Some(CheckMediaType)
    case CheckMediaType => Some(CreateTemp)
    case CreateTemp => Some(CopyToTemp)
    case CopyToTemp => Some(Rewind)
    case Rewind => Some(Remux)
    case Remux => Some(OpenProcessed)
    case OpenProcessed => Some(ReadStreams)
    case ReadStreams => Some(DrawName)
    case DrawName => Some(Upload)
    case Upload => Some(UpdateRecord)
    case UpdateRecord => Some(SignUrl)
    case SignUrl => None
  }

  lemma RankPlacesInOrder(s: Step)
    ensures Rank(s) < |Order| == StepCount && Order[Rank(s)] == s
  {
  }

  /** `Next` walks `Order`. */
  lemma NextInOrder(s: Step)
    ensures Next(s).None? <==> Rank(s) == |Order| - 1
    ensures Next(s).Some? ==> Rank(Next(s).value) == Rank(s) + 1
  {
  }

  /** Reference for the order of the checks: scanning from `s`, the first
      check that fails, or completion when none does. */
  function Scan(req: Request, world: World, s: Step): Exit
    decreases |Order| - Rank(s)
  {
    if !Passes(req, world, s) then Failed(s)
    else match Next(s)
      case None => Completed
      case Some(n) =>
        NextInOrder(s);
        RankPlacesInOrder(s);
        Scan(req, world, n)
  }

  /** Every check ranked in `[lo, hi)` succeeds. */
  predicate PassesBetween(req: Request, world: World, lo: nat, hi: nat) {
    forall t :: lo <= Rank(t) < hi ==> Passes(req, world, t)
  }

  /** Every check ranked before `s` succeeds. */
  predicate PassesBefore(req: Request, world: World, s: Step) {
    PassesBetween(req, world, 0, Rank(s))
  }

  /** A range of checks starting at `s` passes when `s` and the rest
      pass. */
  lemma PassesBetweenFirst(req: Request, world: World, s: Step, hi: nat)
    requires Rank(s) < hi
    ensures PassesBetween(req, world, Rank(s), hi) <==>
      Passes(req, world, s) && PassesBetween(req, world, Rank(s) + 1, hi)
  {
    forall t | Rank(t) == Rank(s)
      ensures t == s
    {
      RankPlacesInOrder(t);
      RankPlacesInOrder(s);
    }
  }

  /** The scan from `s` stops at `t` exactly when `t` is not before `s`,
      fails, and every check from `s` up to it passes. */
  lemma {:induction false} ScanStopsAt(req: Request, world: World, s: Step, t: Step)
    ensures Scan(req, world, s) == Failed(t) <==>
      Rank(s) <= Rank(t) && !Passes(req, world, t) && PassesBetween(req, world, Rank(s), Rank(t))
    decreases |Order| - Rank(s)
  {
    if !Passes(req, world, s) {
      ScanStopsHere(req, world, s, t);
    } else if Next(s).None? {
      ScanStopsNowhere(req, world, s, t);
    } else {
      ScanStopsAt(req, world, Next(s).value, t);
      ScanStopsLater(req, world, s, t);
    }
  }

  /** A failing check is where the scan from it stops, and nothing after
      it is. */
  lemma ScanStopsHere(req: Request, world: World, s: Step, t: Step)
    requires !Passes(req, world, s)
    ensures Scan(req, world, s) == Failed(t) <==>
      Rank(s) <= Rank(t) && !Passes(req, world, t) && PassesBetween(req, world, Rank(s), Rank(t))
  {
    assert Scan(req, world, s) == Failed(s);
    if Rank(s) == Rank(t) {
      RankPlacesInOrder(s);
      RankPlacesInOrder(t);
    } else if Rank(s) < Rank(t) {
      assert !PassesBetween(req, world, Rank(s), Rank(t));
    }
  }

  /** A passing last check completes the scan from it. */
  lemma ScanStopsNowhere(req: Request, world: World, s: Step, t: Step)
    requires Passes(req, world, s) && Next(s).None?
    ensures Scan(req, world, s) != Failed(t)
    ensures !(Rank(s) <= Rank(t) && !Passes(req, world, t))
  {
    NextInOrder(s);
    RankPlacesInOrder(s);
    RankPlacesInOrder(t);
  }

  /** Past a passing check the scan goes on from the next one. */
  lemma ScanStopsLater(req: Request, world: World, s: Step, t: Step)
    requires Passes(req, world, s) && Next(s).Some?
    requires Scan(req, world, Next(s).value) == Failed(t) <==>
      Rank(Next(s).value) <= Rank(t) && !Passes(req, world, t)
      && PassesBetween(req, world, Rank(Next(s).value), Rank(t))
    ensures Scan(req, world, s) == Failed(t) <==>
      Rank(s) <= Rank(t) && !Passes(req, world, t) && PassesBetween(req, world, Rank(s), Rank(t))
  {
    NextInOrder(s);
    RankPlacesInOrder(s);
    RankPlacesInOrder(t);
    if Rank(s) < Rank(t) {
      PassesBetweenFirst(req, world, s, Rank(t));
    }
  }

  /** The scan from `s` completes exactly when every check from `s` on
      passes. */
  lemma {:induction false} ScanCompletes(req: Request, world: World, s: Step)
    ensures Scan(req, world, s) == Completed <==> PassesBetween(req, world, Rank(s), |Order|)
    decreases |Order| - Rank(s)
  {
    RankPlacesInOrder(s);
    NextInOrder(s);
    PassesBetweenFirst(req, world, s, |Order|);
    if Passes(req, world, s) && Next(s).Some? {
      ScanCompletes(req, world, Next(s).value);
    }
  }

  /** The scan from `s` never stops before `s`. */
  lemma {:induction false} ScanOnwards(req: Request, world: World, s: Step)
    ensures ExitRank(Scan(req, world, s)) >= Rank(s)
    decreases |Order| - Rank(s)
  {
    NextInOrder(s);
    RankPlacesInOrder(s);
    if Passes(req, world, s) && Next(s).Some? {
      ScanOnwards(req, world, Next(s).value);
    }
  }

  /** One step of the scan. */
  lemma ScanStep(req: Request, world: World, s: Step)
    ensures Scan(req, world, s) ==
      if !Passes(req, world, s) then Failed(s)
      else if Next(s).None? then Completed
      else Scan(req, world, Next(s).value)
  {
  }

  // ---------------------------------------------------------------------
  // The handler, stage by stage.

  /** A stage over the checks from `first` up to (not including) `next`
      agrees with the scan: it stops where the scan from `first` stops, and
      when it goes on, the scan from `first` is the scan from `next`. */
  predicate Resumes<T>(req: Request, world: World, first: Step, next: Step, r: Stage<Step, T>) {
    match r
    case Stop(s) => Rank(first) <= Rank(s) < Rank(next) && Scan(req, world, first) == Failed(s)
    case Go(_) => Scan(req, world, first) == Scan(req, world, next)
  }

  /** Path value, bearer token, then the token's signature: yields the video
      identifier and the authenticated user. */
  function Authenticate(req: Request, world: World): (r: Stage<Step, (Uuid, Uuid)>)
    ensures r.Stop? ==> Rank(r.step) < Rank(LoadVideo)
    ensures r.Go? ==> Some(r.value.0) == req.videoId && Some(r.value.1) == world.jwtUser
  {
    if req.videoId.None? then Stop(ParseId)
    else if req.token.None? then Stop(FindToken)
    else if world.jwtUser.None? then Stop(ValidateToken)
    else Go((req.videoId.value, world.jwtUser.value))
  }

  lemma AuthenticateInOrder(req: Request, world: World)
    ensures Resumes(req, world, ParseId, LoadVideo, Authenticate(req, world))
  {
    ScanStep(req, world, ParseId);
    ScanStep(req, world, FindToken);
    ScanStep(req, world, ValidateToken);
  }

  /** The record lookup and the ownership check: yields the stored record. */
  function Authorize(world: World, user: Uuid): (r: Stage<Step, Video>)
    ensures r.Stop? ==> Rank(LoadVideo) <= Rank(r.step) < Rank(ReadFile)
    ensures r.Go? ==> world.stored == Some(r.value) && r.value.userId == user
  {
    if world.stored.None? then Stop(LoadVideo)
    else if world.stored.value.userId != user then Stop(CheckOwner)
    else Go(world.stored.value)
  }

  lemma AuthorizeInOrder(req: Request, world: World, user: Uuid)
    requires world.jwtUser == Some(user)
    ensures Resumes(req, world, LoadVideo, ReadFile, Authorize(world, user))
  {
    ScanStep(req, world, LoadVideo);
    ScanStep(req, world, CheckOwner);
  }

  /** The `video` file part, within the body cap, with a parsable
      `Content-Type` naming the accepted media type: yields the media type. */
  function Receive(req: Request, world: World): (r: Stage<Step, string>)
    ensures r.Stop? ==> Rank(ReadFile) <= Rank(r.step) < Rank(CreateTemp)
    ensures r.Go? ==> r.value == AcceptedType
  {
    if req.bodySize > MaxUploadBytes || req.part.None? then Stop(ReadFile)
    else if req.part.value.mediaType.None? then Stop(ParseContentType)
    else if req.part.value.mediaType.value != AcceptedType then Stop(CheckMediaType)
    else Go(req.part.value.mediaType.value)
  }

  lemma ReceiveInOrder(req: Request, world: World)
    ensures Resumes(req, world, ReadFile, CreateTemp, Receive(req, world))
  {
    ScanStep(req, world, ReadFile);
    ScanStep(req, world, ParseContentType);
    ScanStep(req, world, CheckMediaType);
  }

  /** Staging, remuxing, and probing the remuxed file. The probe's label
      and prefix are part of the key (see `Key`). */
  function Process(req: Request, world: World): (r: Stage<Step, ()>)
    ensures r.Stop? ==> Rank(CreateTemp) <= Rank(r.step) < Rank(DrawName)
    ensures r.Go? ==> ProbeReadable(world.probe)
  {
    if !world.tempCreated then Stop(CreateTemp)
    else if !world.copied then Stop(CopyToTemp)
    else if !world.rewound then Stop(Rewind)
    else if !world.remuxed then Stop(Remux)
    else if !world.processedOpened then Stop(OpenProcessed)
    else if !ProbeReadable(world.probe) then Stop(ReadStreams)
    else Go(())
  }

  lemma ProcessInOrder(req: Request, world: World)
    ensures Resumes(req, world, CreateTemp, DrawName, Process(req, world))
  {
    ScanStep(req, world, CreateTemp);
    ScanStep(req, world, CopyToTemp);
    ScanStep(req, world, Rewind);
    ScanStep(req, world, Remux);
    ScanStep(req, world, OpenProcessed);
    ScanStep(req, world, ReadStreams);
  }

  /** Naming, upload, record update and signing, after the calls in
      `before` were made. */
  function Store(req: Request, world: World, video: Video, mediaType: string, before: seq<Call>): (r: Run)
    requires world.stored == Some(video) && mediaType == AcceptedType && ProbeReadable(world.probe)
    ensures r.exit.Failed? ==> r.response == FailureResponse(r.exit.step)
    ensures r.exit.Completed? ==>
      CanPersist(world) && r.response == Json(StatusOk, ToSigned(Persisted(world), world.presign).video)
  {
    if world.random.None? then Fail(DrawName, before)
    else
      var put := S3Put(world.bucket, Key(world), mediaType);
      if !world.uploaded then Fail(Upload, before + [put])
      else
        var update := before + [put, DbUpdate(Persisted(world))];
        if !world.updated then Fail(UpdateRecord, update)
        else Reply(ToSigned(Persisted(world), world.presign), update)
  }

  /** The last step: a conversion error is reported, otherwise the
      converted record is sent. Either way the calls made stand. */
  function Reply(signed: Signed, calls: seq<Call>): (r: Run)
    ensures r.calls == calls
    ensures r.exit == (if signed.failed then Failed(SignUrl) else Completed)
  {
    if signed.failed then Fail(SignUrl, calls)
    else Run(Completed, Json(StatusOk, signed.video), calls)
  }

  /** The store stage's exit is the scan's from the naming step on, and it
      adds the calls the reference lists for that exit. */
  lemma StoreInOrder(req: Request, world: World, video: Video, mediaType: string, before: seq<Call>)
    requires world.stored == Some(video) && mediaType == AcceptedType && ProbeReadable(world.probe)
    ensures var r := Store(req, world, video, mediaType, before);
      && r.exit == Scan(req, world, DrawName)
      && r.calls == before + Stored(world, r.exit)
  {
    ScanStore(req, world);
    if world.random.None? {
    } else if !world.uploaded {
      StoreUploadFails(req, world, video, mediaType, before);
    } else if !world.updated {
      StoreUpdateFails(req, world, video, mediaType, before);
    } else if SignSucceeds(world) {
      StoreCompletes(req, world, video, mediaType, before);
    } else {
      StoreSignFails(req, world, video, mediaType, before);
    }
  }

  lemma ScanStore(req: Request, world: World)
    ensures Scan(req, world, DrawName) ==
      if world.random.None? then Failed(DrawName)
      else if !world.uploaded then Failed(Upload)
      else if !world.updated then Failed(UpdateRecord)
      else if !SignSucceeds(world) then Failed(SignUrl)
      else Completed
  {
    ScanStep(req, world, DrawName);
    ScanStep(req, world, Upload);
    ScanStep(req, world, UpdateRecord);
    ScanStep(req, world, SignUrl);
  }

  lemma StoreUploadFails(req: Request, world: World, video: Video, mediaType: string, before: seq<Call>)
    requires world.stored == Some(video) && mediaType == AcceptedType && ProbeReadable(world.probe)
    requires world.random.Some? && !world.uploaded
    ensures var r := Store(req, world, video, mediaType, before);
      && r.exit == Failed(Upload)
      && r.calls == before + Stored(world, r.exit)
  {
    assert Stored(world, Failed(Upload)) == [S3Put(world.bucket, Key(world), AcceptedType)];
  }

  lemma StoreUpdateFails(req: Request, world: World, video: Video, mediaType: string, before: seq<Call>)
    requires world.stored == Some(video) && mediaType == AcceptedType && ProbeReadable(world.probe)
    requires world.random.Some? && world.uploaded && !world.updated
    ensures var r := Store(req, world, video, mediaType, before);
      && r.exit == Failed(UpdateRecord)
      && r.calls == before + Stored(world, r.exit)
  {
    assert Stored(world, Failed(UpdateRecord)) ==
      [S3Put(world.bucket, Key(world), AcceptedType), DbUpdate(Persisted(world))];
  }

  lemma StoreCompletes(req: Request, world: World, video: Video, mediaType: string, before: seq<Call>)
    requires world.stored == Some(video) && mediaType == AcceptedType && ProbeReadable(world.probe)
    requires world.random.Some? && world.uploaded && world.updated && SignSucceeds(world)
    ensures var r := Store(req, world, video, mediaType, before);
      && r.exit == Completed
      && r.calls == before + Stored(world, r.exit)
  {
    StoredLate(world, Completed);
    StoreSignsExit(req, world, video, mediaType, before);
    StoreSignsCalls(req, world, video, mediaType, before);
  }

  lemma StoreSignFails(req: Request, world: World, video: Video, mediaType: string, before: seq<Call>)
    requires world.stored == Some(video) && mediaType == AcceptedType && ProbeReadable(world.probe)
    requires world.random.Some? && world.uploaded && world.updated && !SignSucceeds(world)
    ensures var r := Store(req, world, video, mediaType, before);
      && r.exit == Failed(SignUrl)
      && r.calls == before + Stored(world, r.exit)
  {
    StoredLate(world, Failed(SignUrl));
    StoreSignsExit(req, world, video, mediaType, before);
    StoreSignsCalls(req, world, video, mediaType, before);
  }

  lemma StoreSignsCalls(req: Request, world: World, video: Video, mediaType: string, before: seq<Call>)
    requires world.stored == Some(video) && mediaType == AcceptedType && ProbeReadable(world.probe)
    requires world.random.Some? && world.uploaded && world.updated
    ensures Store(req, world, video, mediaType, before).calls ==
      before + [S3Put(world.bucket, Key(world), AcceptedType), DbUpdate(Persisted(world))]
  {
  }

  lemma StoredLate(world: World, e: Exit)
    requires CanPersist(world) && ExitRank(e) >= Rank(UpdateRecord)
    ensures Stored(world, e) == [S3Put(world.bucket, Key(world), AcceptedType), DbUpdate(Persisted(world))]
  {
  }

  lemma StoreSignsExit(req: Request, world: World, video: Video, mediaType: string, before: seq<Call>)
    requires world.stored == Some(video) && mediaType == AcceptedType && ProbeReadable(world.probe)
    requires world.random.Some? && world.uploaded && world.updated
    ensures Store(req, world, video, mediaType, before).exit ==
      if SignSucceeds(world) then Completed else Failed(SignUrl)
  {
    SignsPersisted(world);
  }

  /** The whole handler. */
  function Handle(req: Request, world: World): (r: Run)
    ensures r.exit.Failed? ==> r.response == FailureResponse(r.exit.step)
    ensures r.exit.Completed? ==>
      CanPersist(world) && r.response == Json(StatusOk, ToSigned(Persisted(world), world.presign).video)
  {
    match Authenticate(req, world)
    case Stop(s) => Fail(s, [])
    case Go(ids) =>
      var load := [DbGet(ids.0)];
      match Authorize(world, ids.1)
      case Stop(s) => Fail(s, load)
      case Go(video) =>
        match Receive(req, world)
        case Stop(s) => Fail(s, load)
        case Go(mediaType) =>
          match Process(req, world)
          case Stop(s) => Fail(s, load)
          case Go(_) => Store(req, world, video, mediaType, load)
  }

  /** The handler takes the exit the scan of the checks in order takes. */
  lemma HandleInOrder(req: Request, world: World)
    ensures Handle(req, world).exit == Scan(req, world, ParseId)
  {
    AuthenticateInOrder(req, world);
    match Authenticate(req, world)
    case Stop(_) =>
    case Go(ids) =>
      AuthorizeInOrder(req, world, ids.1);
      match Authorize(world, ids.1)
      case Stop(_) =>
      case Go(video) =>
        ReceiveInOrder(req, world);
        match Receive(req, world)
        case Stop(_) =>
        case Go(mediaType) =>
          ProcessInOrder(req, world);
          match Process(req, world)
          case Stop(_) =>
          case Go(_) =>
            StoreInOrder(req, world, video, mediaType, [DbGet(ids.0)]);
  }

  // ---------------------------------------------------------------------
  // What the handler guarantees.

  /** The handler stops at `s` exactly when the check at `s` fails and every
      check before it passes. */
  lemma HandleFailsFast(req: Request, world: World, s: Step)
    ensures Handle(req, world).exit == Failed(s) <==>
      !Passes(req, world, s) && PassesBefore(req, world, s)
  {
    HandleInOrder(req, world);
    ScanStopsAt(req, world, ParseId, s);
  }

  /** The handler completes exactly when every check passes. */
  lemma HandleCompletes(req: Request, world: World)
    ensures Handle(req, world).exit == Completed <==> forall s :: Passes(req, world, s)
  {
    HandleInOrder(req, world);
    ScanCompletes(req, world, ParseId);
    forall s
      ensures Rank(s) < |Order|
    {
      RankPlacesInOrder(s);
    }
  }

  /** A run gets past the first `k` checks exactly when all of them pass. */
  lemma HandleReaches(req: Request, world: World, k: nat)
    requires k <= |Order|
    ensures ExitRank(Handle(req, world).exit) >= k <==> PassesBetween(req, world, 0, k)
  {
    var e := Handle(req, world).exit;
    if e.Failed? {
      HandleFailsFast(req, world, e.step);
    } else {
      HandleCompletes(req, world);
    }
  }

  /** Reference for the calls with a lasting effect that a run stopping at
      `e` has made: the record lookup once it reached the lookup, then those
      of the store stage. */
  function Trace(req: Request, world: World, e: Exit): seq<Call> {
    (if ExitRank(e) >= Rank(LoadVideo) && req.videoId.Some? then [DbGet(req.videoId.value)] else [])
      + Stored(world, e)
  }

  /** The upload once the run reached the upload, and the update once it
      reached the update. */
  function Stored(world: World, e: Exit): seq<Call> {
    (if ExitRank(e) >= Rank(Upload) && CanPersist(world)
     then [S3Put(world.bucket, Key(world), AcceptedType)] else [])
      + (if ExitRank(e) >= Rank(UpdateRecord) && CanPersist(world)
         then [DbUpdate(Persisted(world))] else [])
  }

  /** The handler makes exactly the calls the reference lists for its
      exit. */
  lemma HandleTrace(req: Request, world: World)
    ensures Handle(req, world).calls == Trace(req, world, Handle(req, world).exit)
  {
    match Authenticate(req, world)
    case Stop(s) =>
      TraceOfStop(req, world, s, []);
    case Go(ids) =>
      var load := [DbGet(ids.0)];
      match Authorize(world, ids.1)
      case Stop(s) =>
        TraceOfStop(req, world, s, load);
      case Go(video) =>
        match Receive(req, world)
        case Stop(s) =>
          TraceOfStop(req, world, s, load);
        case Go(mediaType) =>
          match Process(req, world)
          case Stop(s) =>
            TraceOfStop(req, world, s, load);
          case Go(_) =>
            ScanOnwards(req, world, DrawName);
            StoreInOrder(req, world, video, mediaType, load);
            TraceOfStore(req, world, Store(req, world, video, mediaType, load));
  }

  /** A run that stops before the upload has made the lookup, if it got to
      it, and nothing else. */
  lemma TraceOfStop(req: Request, world: World, s: Step, calls: seq<Call>)
    requires Rank(s) < Rank(Upload)
    requires Rank(s) >= Rank(LoadVideo) ==> req.videoId.Some?
    requires calls == if Rank(s) >= Rank(LoadVideo) then [DbGet(req.videoId.value)] else []
    ensures Fail(s, calls).calls == Trace(req, world, Failed(s))
  {
    StoredEarly(world, Failed(s));
  }

  lemma StoredEarly(world: World, e: Exit)
    requires ExitRank(e) < Rank(Upload)
    ensures Stored(world, e) == []
  {
  }

  /** A run that reaches the store stage has made the lookup first. */
  lemma TraceOfStore(req: Request, world: World, r: Run)
    requires req.videoId.Some?
    requires ExitRank(r.exit) >= Rank(DrawName)
    requires r.calls == [DbGet(req.videoId.value)] + Stored(world, r.exit)
    ensures r.calls == Trace(req, world, r.exit)
  {
  }

  /** The record is updated only when every check before the update passed,
      and then with the loaded record pointing at the uploaded object. */
  lemma UpdatesOnlyAfterEarlierChecks(req: Request, world: World)
    ensures var r := Handle(req, world);
      Updates(r.calls) <==> PassesBefore(req, world, UpdateRecord)
    ensures PassesBefore(req, world, UpdateRecord) ==>
      CanPersist(world) && DbUpdate(Persisted(world)) in Handle(req, world).calls
  {
    HandleTrace(req, world);
    HandleReaches(req, world, Rank(UpdateRecord));
    TraceUpdates(req, world, Handle(req, world));
  }

  /** The same, for any run whose calls follow the reference. */
  lemma TraceUpdates(req: Request, world: World, r: Run)
    requires r.calls == Trace(req, world, r.exit)
    requires ExitRank(r.exit) >= Rank(UpdateRecord) <==> PassesBefore(req, world, UpdateRecord)
    ensures Updates(r.calls) <==> PassesBefore(req, world, UpdateRecord)
    ensures PassesBefore(req, world, UpdateRecord) ==>
      CanPersist(world) && DbUpdate(Persisted(world)) in r.calls
  {
    if PassesBefore(req, world, UpdateRecord) {
      assert Passes(req, world, LoadVideo) && Passes(req, world, DrawName);
      assert Passes(req, world, ReadStreams) && Passes(req, world, ParseId);
      assert r.calls[|r.calls| - 1] == DbUpdate(Persisted(world));
    } else {
      forall k | 0 <= k < |r.calls|
        ensures !r.calls[k].DbUpdate?
      {
      }
    }
  }

  /** An object is uploaded only when every check before the upload passed,
      and then under the run's key with the accepted media type. */
  lemma UploadsOnlyAfterEarlierChecks(req: Request, world: World)
    ensures var r := Handle(req, world);
      Uploads(r.calls) <==> PassesBefore(req, world, Upload)
    ensures PassesBefore(req, world, Upload) ==>
      CanPersist(world) && S3Put(world.bucket, Key(world), AcceptedType) in Handle(req, world).calls
  {
    HandleTrace(req, world);
    HandleReaches(req, world, Rank(Upload));
    TraceUploads(req, world, Handle(req, world));
  }

  /** The same, for any run whose calls follow the reference. */
  lemma TraceUploads(req: Request, world: World, r: Run)
    requires r.calls == Trace(req, world, r.exit)
    requires ExitRank(r.exit) >= Rank(Upload) <==> PassesBefore(req, world, Upload)
    ensures Uploads(r.calls) <==> PassesBefore(req, world, Upload)
    ensures PassesBefore(req, world, Upload) ==>
      CanPersist(world) && S3Put(world.bucket, Key(world), AcceptedType) in r.calls
  {
    if PassesBefore(req, world, Upload) {
      assert Passes(req, world, LoadVideo) && Passes(req, world, DrawName);
      assert Passes(req, world, ReadStreams) && Passes(req, world, ParseId);
      assert r.calls[1] == S3Put(world.bucket, Key(world), AcceptedType);
    } else {
      forall k | 0 <= k < |r.calls|
        ensures !r.calls[k].S3Put?
      {
      }
    }
  }

  // ---------------------------------------------------------------------
  // Particular outcomes.

  /** A caller who does not own the video is turned away with 401 after
      the lookup, and nothing is uploaded or updated. */
  lemma NonOwnerRejected(req: Request, world: World)
    requires req.videoId.Some? && req.token.Some? && world.jwtUser.Some?
    requires world.stored.Some? && world.stored.value.userId != world.jwtUser.value
    ensures Handle(req, world).response == Error(StatusUnauthorized, "Not owner of video")
    ensures Handle(req, world).calls == [DbGet(req.videoId.value)]
  {
  }

  /** A missing record is a 404 after the lookup, with nothing else done. */
  lemma MissingVideoRejected(req: Request, world: World)
    requires req.videoId.Some? && req.token.Some? && world.jwtUser.Some? && world.stored.None?
    ensures Handle(req, world).response == Error(StatusNotFound, "Couldn't get video")
    ensures Handle(req, world).calls == [DbGet(req.videoId.value)]
  {
  }

  /** An owner who sends anything but `video/mp4` gets 415, and the run
      stops before any file is staged. */
  lemma UnsupportedTypeRejected(req: Request, world: World, t: string)
    requires req.videoId.Some? && req.token.Some? && world.jwtUser.Some?
    requires world.stored.Some? && world.stored.value.userId == world.jwtUser.value
    requires req.bodySize <= MaxUploadBytes && req.part == Some(Part(Some(t)))
    requires t != AcceptedType
    ensures Handle(req, world).response == Error(StatusUnsupportedMediaType, "Unsupported file type")
    ensures Handle(req, world).calls == [DbGet(req.videoId.value)]
    ensures ExitRank(Handle(req, world).exit) < Rank(CreateTemp)
  {
  }

  /** Every check up to and including the media type answers with a client
      error, except reading the file part, which is a server error; every
      later failure is a server error, or a dropped connection when the
      probe listed no stream. */
  lemma FailureStatuses(s: Step)
    ensures Rank(s) < Rank(CreateTemp) && s != ReadFile ==>
      FailureResponse(s).Error? && 400 <= FailureResponse(s).status < 500
    ensures Rank(s) >= Rank(CreateTemp) || s == ReadFile ==>
      FailureResponse(s) == Dropped
      || FailureResponse(s) == Error(StatusInternalServerError, FailureResponse(s).message)
    ensures FailureResponse(s) == Dropped <==> s == ReadStreams
  {
  }

  /** A probe that lists no stream makes the handler panic at reading the
      first stream: the connection is dropped and nothing is uploaded. */
  lemma EmptyProbeDropsConnection(req: Request, world: World)
    requires PassesBefore(req, world, ReadStreams) && world.probe == Probed([])
    ensures Handle(req, world).response == Dropped
    ensures !Uploads(Handle(req, world).calls) && !Updates(Handle(req, world).calls)
  {
    HandleFailsFast(req, world, ReadStreams);
    UploadsOnlyAfterEarlierChecks(req, world);
    UpdatesOnlyAfterEarlierChecks(req, world);
    assert !Passes(req, world, ReadStreams);
    assert !PassesBefore(req, world, Upload);
    assert !PassesBefore(req, world, UpdateRecord);
  }

  /** Because the probe error is discarded, a failed probe gives the empty
      prefix and a key that starts with `/`. */
  lemma ProbeFailureKeyAtRoot(world: World)
    requires world.random.Some? && world.probe == ProbeFailed
    ensures Key(world) == "/" + Encode(world.random.value) + "." + VideoSub
    ensures Key(world)[0] == '/'
  {
    KeyShape(world);
    PrefixOfProbe(world.probe);
  }

  /** A 1280x720 first stream is landscape and gets the `landscape/`
      prefix. */
  lemma WideVideoKey(world: World)
    requires world.random.Some? && world.probe.Probed? && |world.probe.streams| > 0
    requires world.probe.streams[0] == Stream(1280, 720)
    ensures Key(world) == "landscape/" + Encode(world.random.value) + "." + VideoSub
  {
    KeyShape(world);
    assert ProbeLabel(world.probe) == Landscape;
  }

  /** The record written back differs from the loaded one only in its
      locator, which reads back as the bucket and the key uploaded to. */
  lemma PersistedLocator(world: World)
    requires CanPersist(world)
    ensures Persisted(world) == world.stored.value.(videoUrl := Persisted(world).videoUrl)
    ensures Persisted(world).videoUrl.Some?
    ensures Parse(Persisted(world).videoUrl.value) == Some(Locator(world.bucket, Key(world)))
  {
    KeySeparators(world);
    ParseSerialize(Locator(world.bucket, Key(world)));
  }

  /** A completed run answers 200 with the loaded record whose locator is
      replaced by a URL signed for five minutes for the bucket and key just
      uploaded; nothing else of the record changes. */
  lemma CompletedResponse(req: Request, world: World)
    requires Handle(req, world).exit == Completed
    ensures CanPersist(world)
    ensures world.presign(world.bucket, Key(world), SignedUrlLifetime).Some?
    ensures Handle(req, world).response == Json(StatusOk,
      world.stored.value.(videoUrl := world.presign(world.bucket, Key(world), SignedUrlLifetime)))
  {
    HandleCompletes(req, world);
    assert Passes(req, world, SignUrl);
    SignsPersisted(world);
  }

  // ---------------------------------------------------------------------
  // Temporary files on local disk.

  /** The two files a run can leave on local disk: the staged copy of the
      upload and the remuxed output written next to it. */
  datatype TempFile = Staged | Processed

  /** The files a run that stopped at `e` created: the staged copy once
      creating it succeeded, and the remuxed output once the remux
      succeeded. */
  function Created(e: Exit): set<TempFile> {
    (if ExitRank(e) > Rank(CreateTemp) then {Staged} else {})
      + (if ExitRank(e) > Rank(Remux) then {Processed} else {})
  }

  /** The files whose deferred removal is registered by the time a run
      stops at `e`, when the remuxed output's removal is registered once
      step `reg` has succeeded: the staged copy right after it is created,
      the remuxed output once the run is past `reg`. */
  function Removed(e: Exit, reg: Step): set<TempFile> {
    (if ExitRank(e) > Rank(CreateTemp) then {Staged} else {})
      + (if ExitRank(e) > Rank(reg) then {Processed} else {})
  }

  /** The files a run that stopped at `e` leaves on disk. */
  function Left(e: Exit, reg: Step): set<TempFile> {
    Created(e) - Removed(e, reg)
  }

  /** Every run removes every file it created exactly when the remuxed
      output's removal is registered no later than right after the remux. */
  lemma CleanupCompleteIff(reg: Step)
    ensures (forall e :: Left(e, reg) == {}) <==> Rank(reg) <= Rank(Remux)
  {
    if Rank(reg) <= Rank(Remux) {
      forall e
        ensures Left(e, reg) == {}
      {
        assert Staged !in Left(e, reg);
        assert Processed !in Left(e, reg);
      }
    } else {
      assert Processed in Left(Failed(reg), reg);
    }
  }

  /** As written, the remuxed output's removal is registered only after
      opening it succeeded. */
  function LeftAsWritten(e: Exit): set<TempFile> {
    Left(e, OpenProcessed)
  }

  /** As written, a run leaves a file behind exactly when opening the
      remuxed output fails, and the file it leaves is that output. */
  lemma LeftAsWrittenOnlyAtOpen(e: Exit)
    ensures LeftAsWritten(e) != {} <==> e == Failed(OpenProcessed)
    ensures e == Failed(OpenProcessed) ==> LeftAsWritten(e) == {Processed}
  {
    if e.Failed? {
      RankPlacesInOrder(e.step);
      RankPlacesInOrder(OpenProcessed);
      if e.step != OpenProcessed {
        assert Processed !in LeftAsWritten(e);
        assert Staged !in LeftAsWritten(e);
      } else {
        assert Processed in LeftAsWritten(e);
      }
    } else {
      assert Processed !in LeftAsWritten(e);
      assert Staged !in LeftAsWritten(e);
    }
  }

  /** The handler leaves the remuxed output on disk exactly when every
      check before opening it passes and opening it fails. */
  lemma HandleLeavesProcessedFile(req: Request, world: World)
    ensures LeftAsWritten(Handle(req, world).exit) != {} <==>
      PassesBefore(req, world, OpenProcessed) && !world.processedOpened
  {
    HandleFailsFast(req, world, OpenProcessed);
    LeftAsWrittenOnlyAtOpen(Handle(req, world).exit);
  }

  /** A run that shows the leak: everything up to the remux succeeds and
      the remuxed output cannot be opened. */
  lemma ProcessedFileLeaks()
    ensures var req := Request(Some(1), Some("token"), 10, Some(Part(Some(AcceptedType))));
      var world := World("bucket", Some(7), Some(Video(1, 7, None, None)),
        true, true, true, true, false, ProbeFailed, None, false, false,
        (b: string, k: string, n: nat) => None);
      LeftAsWritten(Handle(req, world).exit) == {Processed}
  {
    var req := Request(Some(1), Some("token"), 10, Some(Part(Some(AcceptedType))));
    var world := World("bucket", Some(7), Some(Video(1, 7, None, None)),
      true, true, true, true, false, ProbeFailed, None, false, false,
      (b: string, k: string, n: nat) => None);
    assert Handle(req, world).exit == Failed(OpenProcessed);
    LeftAsWrittenOnlyAtOpen(Failed(OpenProcessed));
  }

  /** With the removal registered right after the remux, every file a run
      creates is removed, whatever the run's exit; registered right after
      the open, as written, some run leaves a file. */
  lemma ScopedCleanupLeavesNothing(req: Request, world: World)
    ensures Created(Handle(req, world).exit) <= Removed(Handle(req, world).exit, Remux)
    ensures Left(Handle(req, world).exit, Remux) == {}
    ensures exists e :: Left(e, OpenProcessed) != {}
  {
    CleanupCompleteIff(Remux);
    CleanupCompleteIff(OpenProcessed);
    RankPlacesInOrder(Remux);
    RankPlacesInOrder(OpenProcessed);
  }
}
