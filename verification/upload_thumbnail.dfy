/** The thumbnail upload handler as a total function from the outcomes of
    its collaborators to the exit it takes, the response it sends and the
    calls with lasting effect it makes on the way. */
module UploadThumbnail {

  import opened Wrappers
  import opened Strings
  import opened Base64Url
  import opened Naming
  import opened Records
  import opened Effects

  /** The media types accepted for a thumbnail. */
  const ImageTop: string := "image"
  const JpegSub: string := "jpeg"
  const PngSub: string := "png"
  const JpegType: string := ImageTop + "/" + JpegSub
  const PngType: string := ImageTop + "/" + PngSub

  /** The allow-list. */
  predicate Allowed(mediaType: string) {
    mediaType == JpegType || mediaType == PngType
  }

  /** The allow-list holds exactly `image/jpeg` and `image/png`. */
  lemma AllowList(mediaType: string)
    ensures Allowed(mediaType) <==> mediaType == "image/jpeg" || mediaType == "image/png"
  {
    assert JpegType == "image/jpeg";
    assert PngType == "image/png";
  }

  /** The subtype of an accepted media type. */
  function SubtypeOf(mediaType: string): string
    requires Allowed(mediaType)
  {
    if mediaType == JpegType then JpegSub else PngSub
  }

  /** The extension the handler takes from an accepted media type, the
      second piece of it split on `/`, is `jpeg` or `png`. */
  lemma ExtensionOfAllowed(mediaType: string)
    requires Allowed(mediaType)
    ensures '/' in mediaType && Extension(mediaType) == SubtypeOf(mediaType)
    ensures SubtypeOf(mediaType) in {"jpeg", "png"}
    ensures mediaType == "image/jpeg" <==> SubtypeOf(mediaType) == "jpeg"
  {
    AllowList(mediaType);
    JpegExtension();
    PngExtension();
  }

  /** What the handler reads from the request: the outcome of parsing the
      `videoID` path value, the bearer token if the header carries one,
      whether the multipart form parses, and the `thumbnail` file part if
      the form has one. */
  datatype Request = Request(
    videoId: Option<Uuid>,
    token: Option<string>,
    formParsed: bool,
    part: Option<Part>)

  /** The outcome of every collaborator call, and the configured port. */
  datatype World = World(
    jwtUser: Option<Uuid>,      // JWT validation: the user it names
    stored: Option<Video>,      // record lookup by the video identifier
    random: Option<Bytes32>,    // reading 32 bytes from the secure source
    created: bool,              // creating the asset file
    saved: bool,                // copying the upload into it
    updated: bool,              // the record update succeeds
    port: string)               // the port the file server listens on

  /** The points at which the handler can stop, in the order it meets
      them. */
  datatype Step =
    | ParseId | FindToken | ValidateToken | ParseForm | ReadFile
    | ParseContentType | CheckMediaType | LoadVideo | CheckOwner
    | DrawName | CreateAsset | SaveAsset | UpdateRecord

  /** The checks in the order the handler makes them. */
  const Order: seq<Step> := [
    ParseId, FindToken, ValidateToken, ParseForm, ReadFile,
    ParseContentType, CheckMediaType, LoadVideo, CheckOwner,
    DrawName, CreateAsset, SaveAsset, UpdateRecord]

  /** The position of a check in `Order`. */
  function Rank(s: Step): nat {
    match s
    case ParseId => 0
    case FindToken => 1
    case ValidateToken => 2
    case ParseForm => 3
    case ReadFile => 4
    case ParseContentType => 5
    case CheckMediaType => 6
    case LoadVideo => 7
    case CheckOwner => 8
    case DrawName => 9
    case CreateAsset => 10
    case SaveAsset => 11
    case UpdateRecord => 12
  }

  /** The number of checks, the length of `Order`. */
  const StepCount: nat := 13

  datatype Exit = Failed(step: Step) | Completed

  /** How far a run got: the rank of the step it failed at, or one past the
      last step. */
  function ExitRank(e: Exit): nat {
    if e.Completed? then StepCount else Rank(e.step)
  }

  datatype Run = Run(exit: Exit, response: Response, calls: seq<Call>)

  /** Whether the check made at step `s` succeeds, judged from the inputs
      alone. */
  predicate Passes(req: Request, world: World, s: Step) {
    match s
    case ParseId => req.videoId.Some?
    case FindToken => req.token.Some?
    case ValidateToken => world.jwtUser.Some?
    case ParseForm => req.formParsed
    case ReadFile => req.part.Some?
    case ParseContentType => req.part.Some? && req.part.value.mediaType.Some?
    case CheckMediaType =>
      req.part.Some? && req.part.value.mediaType.Some? && Allowed(req.part.value.mediaType.value)
    case LoadVideo => world.stored.Some?
    case CheckOwner =>
      world.stored.Some? && world.jwtUser.Some? && world.stored.value.userId == world.jwtUser.value
    case DrawName => world.random.Some?
    case CreateAsset => world.created
    case SaveAsset => world.saved
    case UpdateRecord => world.updated
  }

  /** The inputs determine an asset location and an updated record. */
  predicate CanStore(req: Request, world: World) {
    && req.part.Some? && req.part.value.mediaType.Some? && Allowed(req.part.value.mediaType.value)
    && world.stored.Some? && world.random.Some?
  }

  /** `assets/<name>.<ext>`: the encoding of the drawn bytes, and the
      subtype of the accepted media type as extension
      (`ExtensionOfAllowed` shows it is what splitting the media type
      yields). */
  function Location(world: World, mediaType: string): string
    requires world.random.Some? && Allowed(mediaType)
  {
    ThumbnailLocation(Encode(world.random.value), SubtypeOf(mediaType))
  }

  /** The loaded record with its thumbnail URL pointing at the asset. */
  function Updated(world: World, mediaType: string): Video
    requires world.stored.Some? && world.random.Some? && Allowed(mediaType)
  {
    world.stored.value.(thumbnailUrl := Some(ThumbnailUrl(world.port, Location(world, mediaType))))
  }

  /** The error reply for each failure point. */
  function FailureResponse(s: Step): Response {
    match s
    case ParseId => Error(StatusBadRequest, "Invalid ID")
    case FindToken => Error(StatusUnauthorized, "Couldn't find JWT")
    case ValidateToken => Error(StatusUnauthorized, "Couldn't validate JWT")
    case ParseForm => Error(StatusBadRequest, "Couldn't parse Multipart Form")
    case ReadFile => Error(StatusInternalServerError, "Couldn't read thumbnail")
    case ParseContentType => Error(StatusBadRequest, "Missing Content-Type for thumbnail")
    case CheckMediaType => Error(StatusBadRequest, "Unsupported file type")
    case LoadVideo => Error(StatusInternalServerError, "Couldn't retrieve video")
    case CheckOwner => Error(StatusUnauthorized, "Unauthorized to access file")
    case DrawName => Error(StatusInternalServerError, "Couldn't generate filename")
    case CreateAsset => Error(StatusInternalServerError, "Cannot create new file")
    case SaveAsset => Error(StatusInternalServerError, "Cannot save new media")
    case UpdateRecord => Error(StatusInternalServerError, "Couldn't update video")
  }

  function Fail(s: Step, calls: seq<Call>): Run {
    Run(Failed(s), FailureResponse(s), calls)
  }

  /** The asset path lies directly under `assets`, splits back into the
      43-character URL-safe name and the extension, and the extension is
      `jpeg` or `png`. */
  lemma LocationShape(world: World, mediaType: string)
    requires world.random.Some? && Allowed(mediaType)
    ensures var name, ext := Encode(world.random.value), Extension(mediaType);
      && Location(world, mediaType) == "assets/" + name + "." + ext
      && ext in {"jpeg", "png"}
      && |name| == 43 && AllUrlSafe(name)
      && Split(Location(world, mediaType), '/') == ["assets", name + "." + ext]
      && Split(name + "." + ext, '.') == [name, ext]
  {
    ExtensionOfAllowed(mediaType);
    RandomNameShape(world.random.value);
    ThumbnailLocationParts(Encode(world.random.value), SubtypeOf(mediaType));
  }

  /** The record written back differs from the loaded one only in its
      thumbnail URL, which is the local file server's address of the
      asset. */
  lemma UpdatedRecord(world: World, mediaType: string)
    requires world.stored.Some? && world.random.Some? && Allowed(mediaType)
    ensures var v, u := world.stored.value, Updated(world, mediaType);
      && u.id == v.id && u.userId == v.userId && u.videoUrl == v.videoUrl
      && u.thumbnailUrl == Some("http://localhost:" + world.port + "/" + Location(world, mediaType))
      && (v.thumbnailUrl.None? ==> u != v)
  {
  }

  // ---------------------------------------------------------------------
  // The order of the checks, as a reference the handler is proved against.

  /** The check made after `s`, if any. */
  function Next(s: Step): Option<Step> {
    match s
    case ParseId => Some(FindToken)
    case FindToken => Some(ValidateToken)
    case ValidateToken => Some(ParseForm)
    case ParseForm => Some(ReadFile)
    case ReadFile => Some(ParseContentType)
    case ParseContentType => Some(CheckMediaType)
    case CheckMediaType => Some(LoadVideo)
    case LoadVideo => Some(CheckOwner)
    case CheckOwner => Some(DrawName)
    case DrawName => Some(CreateAsset)
    case CreateAsset => Some(SaveAsset)
    case SaveAsset => Some(UpdateRecord)
    case UpdateRecord => None
  }

  lemma RankPlacesInOrder(s: Step)
    ensures Rank(s) < |Order| == StepCount && Order[Rank(s)] == s
  {
  }

  /** `Next` walks `Order`. */
  lemma NextInOrder(s: Step)
    ensures Next(s).None? <==> Rank(s) == |Order| - 1
    ensures Next(s).Some? ==> Rank(Next(s).value) == Rank(s) + 1
  {
  }

  /** Reference for the order of the checks: scanning from `s`, the first
      check that fails, or completion when none does. */
  function Scan(req: Request, world: World, s: Step): Exit
    decreases |Order| - Rank(s)
  {
    if !Passes(req, world, s) then Failed(s)
    else match Next(s)
      case None => Completed
      case Some(n) =>
        NextInOrder(s);
        RankPlacesInOrder(s);
        Scan(req, world, n)
  }

  /** Every check ranked in `[lo, hi)` succeeds. */
  predicate PassesBetween(req: Request, world: World, lo: nat, hi: nat) {
    forall t :: lo <= Rank(t) < hi ==> Passes(req, world, t)
  }

  /** Every check ranked before `s` succeeds. */
  predicate PassesBefore(req: Request, world: World, s: Step) {
    PassesBetween(req, world, 0, Rank(s))
  }

  /** A range of checks starting at `s` passes when `s` and the rest
      pass. */
  lemma PassesBetweenFirst(req: Request, world: World, s: Step, hi: nat)
    requires Rank(s) < hi
    ensures PassesBetween(req, world, Rank(s), hi) <==>
      Passes(req, world, s) && PassesBetween(req, world, Rank(s) + 1, hi)
  {
    forall t | Rank(t) == Rank(s)
      ensures t == s
    {
      RankPlacesInOrder(t);
      RankPlacesInOrder(s);
    }
  }

  /** The scan from `s` stops at `t` exactly when `t` is not before `s`,
      fails, and every check from `s` up to it passes. */
  lemma {:induction false} ScanStopsAt(req: Request, world: World, s: Step, t: Step)
    ensures Scan(req, world, s) == Failed(t) <==>
      Rank(s) <= Rank(t) && !Passes(req, world, t) && PassesBetween(req, world, Rank(s), Rank(t))
    decreases |Order| - Rank(s)
  {
    if !Passes(req, world, s) {
      ScanStopsHere(req, world, s, t);
    } else if Next(s).None? {
      ScanStopsNowhere(req, world, s, t);
    } else {
      ScanStopsAt(req, world, Next(s).value, t);
      ScanStopsLater(req, world, s, t);
    }
  }

  /** A failing check is where the scan from it stops, and nothing after
      it is. */
  lemma ScanStopsHere(req: Request, world: World, s: Step, t: Step)
    requires !Passes(req, world, s)
    ensures Scan(req, world, s) == Failed(t) <==>
      Rank(s) <= Rank(t) && !Passes(req, world, t) && PassesBetween(req, world, Rank(s), Rank(t))
  {
    assert Scan(req, world, s) == Failed(s);
    if Rank(s) == Rank(t) {
      RankPlacesInOrder(s);
      RankPlacesInOrder(t);
    } else if Rank(s) < Rank(t) {
      assert !PassesBetween(req, world, Rank(s), Rank(t));
    }
  }

  /** A passing last check completes the scan from it. */
  lemma ScanStopsNowhere(req: Request, world: World, s: Step, t: Step)
    requires Passes(req, world, s) && Next(s).None?
    ensures Scan(req, world, s) != Failed(t)
    ensures !(Rank(s) <= Rank(t) && !Passes(req, world, t))
  {
    NextInOrder(s);
    RankPlacesInOrder(s);
    RankPlacesInOrder(t);
  }

  /** Past a passing check the scan goes on from the next one. */
  lemma ScanStopsLater(req: Request, world: World, s: Step, t: Step)
    requires Passes(req, world, s) && Next(s).Some?
    requires Scan(req, world, Next(s).value) == Failed(t) <==>
      Rank(Next(s).value) <= Rank(t) && !Passes(req, world, t)
      && PassesBetween(req, world, Rank(Next(s).value), Rank(t))
    ensures Scan(req, world, s) == Failed(t) <==>
      Rank(s) <= Rank(t) && !Passes(req, world, t) && PassesBetween(req, world, Rank(s), Rank(t))
  {
    NextInOrder(s);
    RankPlacesInOrder(s);
    RankPlacesInOrder(t);
    if Rank(s) < Rank(t) {
      PassesBetweenFirst(req, world, s, Rank(t));
    }
  }

  /** The scan from `s` completes exactly when every check from `s` on
      passes. */
  lemma {:induction false} ScanCompletes(req: Request, world: World, s: Step)
    ensures Scan(req, world, s) == Completed <==> PassesBetween(req, world, Rank(s), |Order|)
    decreases |Order| - Rank(s)
  {
    RankPlacesInOrder(s);
    NextInOrder(s);
    PassesBetweenFirst(req, world, s, |Order|);
    if Passes(req, world, s) && Next(s).Some? {
      ScanCompletes(req, world, Next(s).value);
    }
  }

  /** The scan from `s` never stops before `s`. */
  lemma {:induction false} ScanOnwards(req: Request, world: World, s: Step)
    ensures ExitRank(Scan(req, world, s)) >= Rank(s)
    decreases |Order| - Rank(s)
  {
    NextInOrder(s);
    RankPlacesInOrder(s);
    if Passes(req, world, s) && Next(s).Some? {
      ScanOnwards(req, world, Next(s).value);
    }
  }

  /** One step of the scan. */
  lemma ScanStep(req: Request, world: World, s: Step)
    ensures Scan(req, world, s) ==
      if !Passes(req, world, s) then Failed(s)
      else if Next(s).None? then Completed
      else Scan(req, world, Next(s).value)
  {
  }

  // ---------------------------------------------------------------------
  // The handler, stage by stage.

  /** A stage over the checks from `first` up to (not including) `next`
      agrees with the scan: it stops where the scan from `first` stops, and
      when it goes on, the scan from `first` is the scan from `next`. */
  predicate Resumes<T>(req: Request, world: World, first: Step, next: Step, r: Stage<Step, T>) {
    match r
    case Stop(s) => Rank(first) <= Rank(s) < Rank(next) && Scan(req, world, first) == Failed(s)
    case Go(_) => Scan(req, world, first) == Scan(req, world, next)
  }

  /** Path value, bearer token, then the token's signature: yields the video
      identifier and the authenticated user. */
  function Authenticate(req: Request, world: World): (r: Stage<Step, (Uuid, Uuid)>)
    ensures r.Stop? ==> Rank(r.step) < Rank(ParseForm)
    ensures r.Go? ==> Some(r.value.0) == req.videoId && Some(r.value.1) == world.jwtUser
  {
    if req.videoId.None? then Stop(ParseId)
    else if req.token.None? then Stop(FindToken)
    else if world.jwtUser.None? then Stop(ValidateToken)
    else Go((req.videoId.value, world.jwtUser.value))
  }

  lemma AuthenticateInOrder(req: Request, world: World)
    ensures Resumes(req, world, ParseId, ParseForm, Authenticate(req, world))
  {
    ScanStep(req, world, ParseId);
    ScanStep(req, world, FindToken);
    ScanStep(req, world, ValidateToken);
  }

  /** The form, the `thumbnail` file part, and a parsable `Content-Type`
      on the allow-list: yields the media type. */
  function Receive(req: Request): (r: Stage<Step, string>)
    ensures r.Stop? ==> Rank(ParseForm) <= Rank(r.step) < Rank(LoadVideo)
    ensures r.Go? ==> Allowed(r.value) && req.part == Some(Part(Some(r.value)))
  {
    if !req.formParsed then Stop(ParseForm)
    else if req.part.None? then Stop(ReadFile)
    else if req.part.value.mediaType.None? then Stop(ParseContentType)
    else if !Allowed(req.part.value.mediaType.value) then Stop(CheckMediaType)
    else Go(req.part.value.mediaType.value)
  }

  lemma ReceiveInOrder(req: Request, world: World)
    ensures Resumes(req, world, ParseForm, LoadVideo, Receive(req))
  {
    ScanStep(req, world, ParseForm);
    ScanStep(req, world, ReadFile);
    ScanStep(req, world, ParseContentType);
    ScanStep(req, world, CheckMediaType);
  }

  /** The record lookup and the ownership check: yields the stored record. */
  function Authorize(world: World, user: Uuid): (r: Stage<Step, Video>)
    ensures r.Stop? ==> Rank(LoadVideo) <= Rank(r.step) < Rank(DrawName)
    ensures r.Go? ==> world.stored == Some(r.value) && r.value.userId == user
  {
    if world.stored.None? then Stop(LoadVideo)
    else if world.stored.value.userId != user then Stop(CheckOwner)
    else Go(world.stored.value)
  }

  lemma AuthorizeInOrder(req: Request, world: World, user: Uuid)
    requires world.jwtUser == Some(user)
    ensures Resumes(req, world, LoadVideo, DrawName, Authorize(world, user))
  {
    ScanStep(req, world, LoadVideo);
    ScanStep(req, world, CheckOwner);
  }

  /** Naming, writing the asset, and the record update, after the calls in
      `before` were made. */
  function Store(world: World, video: Video, mediaType: string, before: seq<Call>): (r: Run)
    requires world.stored == Some(video) && Allowed(mediaType)
    ensures r.exit.Failed? ==> r.response == FailureResponse(r.exit.step)
    ensures r.exit.Completed? ==>
      world.random.Some? && r.response == Json(StatusOk, Updated(world, mediaType))
  {
    if world.random.None? then Fail(DrawName, before)
    else
      var write := before + [WriteAsset(Location(world, mediaType))];
      if !world.created then Fail(CreateAsset, write)
      else if !world.saved then Fail(SaveAsset, write)
      else
        var update := write + [DbUpdate(Updated(world, mediaType))];
        if !world.updated then Fail(UpdateRecord, update)
        else Run(Completed, Json(StatusOk, Updated(world, mediaType)), update)
  }

  /** The store stage's exit is the scan's from the naming step on, and it
      adds the calls the reference lists for that exit. */
  lemma StoreInOrder(req: Request, world: World, video: Video, mediaType: string, before: seq<Call>)
    requires world.stored == Some(video) && Allowed(mediaType)
    requires req.part == Some(Part(Some(mediaType)))
    ensures var r := Store(world, video, mediaType, before);
      && r.exit == Scan(req, world, DrawName)
      && r.calls == before + Stored(req, world, r.exit)
  {
    ScanStep(req, world, DrawName);
    ScanStep(req, world, CreateAsset);
    ScanStep(req, world, SaveAsset);
    ScanStep(req, world, UpdateRecord);
    if world.random.Some? {
      StoredLater(req, world, video, mediaType);
    }
  }

  /** Once a name is drawn, the reference lists the asset write and then
      the update. */
  lemma StoredLater(req: Request, world: World, video: Video, mediaType: string)
    requires world.stored == Some(video) && Allowed(mediaType) && world.random.Some?
    requires req.part == Some(Part(Some(mediaType)))
    ensures Stored(req, world, Failed(CreateAsset)) == [WriteAsset(Location(world, mediaType))]
    ensures Stored(req, world, Failed(SaveAsset)) == [WriteAsset(Location(world, mediaType))]
    ensures Stored(req, world, Failed(UpdateRecord)) ==
      [WriteAsset(Location(world, mediaType)), DbUpdate(Updated(world, mediaType))]
    ensures Stored(req, world, Completed) ==
      [WriteAsset(Location(world, mediaType)), DbUpdate(Updated(world, mediaType))]
  {
  }

  function Handle(req: Request, world: World): (r: Run)
    ensures r.exit.Failed? ==> r.response == FailureResponse(r.exit.step)
    ensures r.exit.Completed? ==> (CanStore(req, world) &&
      r.response == Json(StatusOk, Updated(world, req.part.value.mediaType.value)))
  {
    match Authenticate(req, world)
    case Stop(s) => Fail(s, [])
    case Go(ids) =>
      match Receive(req)
      case Stop(s) => Fail(s, [])
      case Go(mediaType) =>
        var load := [DbGet(ids.0)];
        match Authorize(world, ids.1)
        case Stop(s) => Fail(s, load)
        case Go(video) => Store(world, video, mediaType, load)
  }

  /** The handler takes the exit the scan of the checks in order takes. */
  lemma HandleInOrder(req: Request, world: World)
    ensures Handle(req, world).exit == Scan(req, world, ParseId)
  {
    AuthenticateInOrder(req, world);
    match Authenticate(req, world)
    case Stop(_) =>
    case Go(ids) =>
      ReceiveInOrder(req, world);
      match Receive(req)
      case Stop(_) =>
      case Go(mediaType) =>
        AuthorizeInOrder(req, world, ids.1);
        match Authorize(world, ids.1)
        case Stop(_) =>
        case Go(video) =>
          StoreInOrder(req, world, video, mediaType, [DbGet(ids.0)]);
  }

  // ---------------------------------------------------------------------
  // What the handler guarantees.

  /** The handler stops at `s` exactly when the check at `s` fails and every
      check before it passes. */
  lemma HandleFailsFast(req: Request, world: World, s: Step)
    ensures Handle(req, world).exit == Failed(s) <==>
      !Passes(req, world, s) && PassesBefore(req, world, s)
  {
    HandleInOrder(req, world);
    ScanStopsAt(req, world, ParseId, s);
  }

  /** The handler completes exactly when every check passes. */
  lemma HandleCompletes(req: Request, world: World)
    ensures Handle(req, world).exit == Completed <==> forall s :: Passes(req, world, s)
  {
    HandleInOrder(req, world);
    ScanCompletes(req, world, ParseId);
    forall s
      ensures Rank(s) < |Order|
    {
      RankPlacesInOrder(s);
    }
  }

  /** A run gets past the first `k` checks exactly when all of them pass. */
  lemma HandleReaches(req: Request, world: World, k: nat)
    requires k <= |Order|
    ensures ExitRank(Handle(req, world).exit) >= k <==> PassesBetween(req, world, 0, k)
  {
    var e := Handle(req, world).exit;
    if e.Failed? {
      HandleFailsFast(req, world, e.step);
    } else {
      HandleCompletes(req, world);
    }
  }

  /** Reference for the calls with a lasting effect that a run stopping at
      `e` has made: the record lookup once it reached the lookup, then those
      of the store stage. */
  function Trace(req: Request, world: World, e: Exit): seq<Call> {
    (if ExitRank(e) >= Rank(LoadVideo) && req.videoId.Some? then [DbGet(req.videoId.value)] else [])
      + Stored(req, world, e)
  }

  /** The asset write once the run reached creating the asset, and the
      update once it reached the update. */
  function Stored(req: Request, world: World, e: Exit): seq<Call> {
    if !CanStore(req, world) then []
    else
      var mediaType := req.part.value.mediaType.value;
      (if ExitRank(e) >= Rank(CreateAsset) then [WriteAsset(Location(world, mediaType))] else [])
        + (if ExitRank(e) >= Rank(UpdateRecord) then [DbUpdate(Updated(world, mediaType))] else [])
  }

  /** The handler makes exactly the calls the reference lists for its
      exit. */
  lemma HandleTrace(req: Request, world: World)
    ensures Handle(req, world).calls == Trace(req, world, Handle(req, world).exit)
  {
    match Authenticate(req, world)
    case Stop(s) =>
      TraceOfStop(req, world, s, []);
    case Go(ids) =>
      match Receive(req)
      case Stop(s) =>
        TraceOfStop(req, world, s, []);
      case Go(mediaType) =>
        var load := [DbGet(ids.0)];
        match Authorize(world, ids.1)
        case Stop(s) =>
          TraceOfStop(req, world, s, load);
        case Go(video) =>
          ScanOnwards(req, world, DrawName);
          StoreInOrder(req, world, video, mediaType, load);
          TraceOfStore(req, world, Store(world, video, mediaType, load));
  }

  /** A run that stops before creating the asset has made the lookup, if it
      got to it, and nothing else. */
  lemma TraceOfStop(req: Request, world: World, s: Step, calls: seq<Call>)
    requires Rank(s) < Rank(CreateAsset)
    requires Rank(s) >= Rank(LoadVideo) ==> req.videoId.Some?
    requires calls == if Rank(s) >= Rank(LoadVideo) then [DbGet(req.videoId.value)] else []
    ensures Fail(s, calls).calls == Trace(req, world, Failed(s))
  {
    StoredEarly(req, world, Failed(s));
  }

  lemma StoredEarly(req: Request, world: World, e: Exit)
    requires ExitRank(e) < Rank(CreateAsset)
    ensures Stored(req, world, e) == []
  {
  }

  /** A run that reaches the store stage has made the lookup first. */
  lemma TraceOfStore(req: Request, world: World, r: Run)
    requires req.videoId.Some?
    requires ExitRank(r.exit) >= Rank(DrawName)
    requires r.calls == [DbGet(req.videoId.value)] + Stored(req, world, r.exit)
    ensures r.calls == Trace(req, world, r.exit)
  {
  }

  /** The record is updated only when every check before the update passed,
      and then with the loaded record pointing at the new asset. */
  lemma UpdatesOnlyAfterEarlierChecks(req: Request, world: World)
    ensures var r := Handle(req, world);
      Updates(r.calls) <==> PassesBefore(req, world, UpdateRecord)
    ensures PassesBefore(req, world, UpdateRecord) ==> (CanStore(req, world) &&
      DbUpdate(Updated(world, req.part.value.mediaType.value)) in Handle(req, world).calls)
  {
    HandleTrace(req, world);
    HandleReaches(req, world, Rank(UpdateRecord));
    TraceUpdates(req, world, Handle(req, world));
  }

  /** The same, for any run whose calls follow the reference. */
  lemma TraceUpdates(req: Request, world: World, r: Run)
    requires r.calls == Trace(req, world, r.exit)
    requires ExitRank(r.exit) >= Rank(UpdateRecord) <==> PassesBefore(req, world, UpdateRecord)
    ensures Updates(r.calls) <==> PassesBefore(req, world, UpdateRecord)
    ensures PassesBefore(req, world, UpdateRecord) ==> (CanStore(req, world) &&
      DbUpdate(Updated(world, req.part.value.mediaType.value)) in r.calls)
  {
    if PassesBefore(req, world, UpdateRecord) {
      assert Passes(req, world, CheckMediaType) && Passes(req, world, LoadVideo);
      assert Passes(req, world, DrawName) && Passes(req, world, ParseId);
      assert r.calls[|r.calls| - 1] == DbUpdate(Updated(world, req.part.value.mediaType.value));
    } else {
      forall k | 0 <= k < |r.calls|
        ensures !r.calls[k].DbUpdate?
      {
      }
    }
  }

  // ---------------------------------------------------------------------
  // Particular outcomes.

  /** A media type off the allow-list is refused with 400 before the record
      is even looked up. */
  lemma UnsupportedTypeRejected(req: Request, world: World, t: string)
    requires req.videoId.Some? && req.token.Some? && world.jwtUser.Some?
    requires req.formParsed && req.part == Some(Part(Some(t)))
    requires t != "image/jpeg" && t != "image/png"
    ensures Handle(req, world).response == Error(StatusBadRequest, "Unsupported file type")
    ensures Handle(req, world).calls == []
  {
    AllowList(t);
  }

  /** Whatever the media type check decides, no lookup happens before it:
      a run that stops at or before it has made no call. */
  lemma NoLookupBeforeMediaType(req: Request, world: World)
    ensures ExitRank(Handle(req, world).exit) <= Rank(CheckMediaType) ==>
      Handle(req, world).calls == []
  {
    HandleTrace(req, world);
    if ExitRank(Handle(req, world).exit) <= Rank(CheckMediaType) {
      StoredEarly(req, world, Handle(req, world).exit);
    }
  }

  /** A failed lookup is a 500, and the record is not updated. */
  lemma MissingVideoRejected(req: Request, world: World)
    requires PassesBefore(req, world, LoadVideo) && world.stored.None?
    ensures Handle(req, world).response == Error(StatusInternalServerError, "Couldn't retrieve video")
    ensures Handle(req, world).calls == [DbGet(req.videoId.value)]
  {
    HandleFailsFast(req, world, LoadVideo);
    HandleTrace(req, world);
    StoredEarly(req, world, Failed(LoadVideo));
    assert Passes(req, world, ParseId);
  }

  /** A caller who does not own the video is turned away with 401 after
      the lookup, and the record is not updated. */
  lemma NonOwnerRejected(req: Request, world: World)
    requires PassesBefore(req, world, LoadVideo) && world.jwtUser.Some?
    requires world.stored.Some? && world.stored.value.userId != world.jwtUser.value
    ensures Handle(req, world).response == Error(StatusUnauthorized, "Unauthorized to access file")
    ensures Handle(req, world).calls == [DbGet(req.videoId.value)]
  {
    assert Passes(req, world, LoadVideo) && !Passes(req, world, CheckOwner);
    assert PassesBefore(req, world, CheckOwner);
    HandleFailsFast(req, world, CheckOwner);
    HandleTrace(req, world);
    StoredEarly(req, world, Failed(CheckOwner));
    assert Passes(req, world, ParseId);
  }

  /** A completed run answers 200 with the loaded record whose thumbnail
      URL is `http://localhost:<port>/assets/<name>.<ext>`, and nothing else
      of the record changes. */
  lemma CompletedResponse(req: Request, world: World)
    requires Handle(req, world).exit == Completed
    ensures CanStore(req, world)
    ensures var t := req.part.value.mediaType.value;
      var v := world.stored.value;
      Handle(req, world).response == Json(StatusOk, v.(thumbnailUrl := Some(
        "http://localhost:" + world.port + "/assets/" + Encode(world.random.value) + "." + Extension(t))))
  {
    var t := req.part.value.mediaType.value;
    ExtensionOfAllowed(t);
    ThumbnailUrlShape(world.port, Encode(world.random.value), SubtypeOf(t));
  }
}
