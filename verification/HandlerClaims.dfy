/**
  What one whole request, or one or two whole worker passes, guarantees.
 */
module HandlerClaims {
  import opened Jobs
  import opened VariantKey
  import opened Model
  import opened ApiModel
  import opened ApiInvariant
  import opened HandlerRuns
  import opened Effects

  // ---------------------------------------------- when does a request download?

  predicate Reusable(g: Shared, s: Session) {
    VariantOf(g.variants, s.variantHash) != NoPath && OnDisk(g.files, VariantOf(g.variants, s.variantHash))
  }

  /** The source that the session points at is gone. */
  predicate Stale(g: Shared, s: Session) {
    s.sourcePath != NoPath && !OnDisk(g.files, s.sourcePath)
  }

  /** The shared entry offers no source, and nobody has promised one. */
  predicate AssetMissing(g: Shared, hash: string) {
    var a := AssetOf(g.assets, hash);
    if a.path != NoPath && a.state == AssetDownloaded then !OnDisk(g.files, a.path)
    else a.state == Unset || a.state == AssetFailed || a.state == AssetExpired
  }

  predicate SourceMissing(g: Shared, s: Session) {
    Stale(g, s) || (s.sourcePath == NoPath && AssetMissing(g, s.assetHash))
  }

  /** From this point on, will handleConvertReq mark the asset as being prepared and ask for a download? */
  predicate ConvertReserves(cfg: Config, g: Shared, pc: ConvertPc) {
    match pc
    case ConvGet(id, ask) =>
      && id in g.sessions && ConvertAllowed(cfg, g.sessions[id], ask.clip)
      && (var s := Asked(cfg, g.sessions[id], ask.clip);
          !Reusable(g, s) && SourceMissing(g, s))
    case ConvHash(s, _) => !Reusable(g, s) && SourceMissing(g, s)
    case ConvVariant(s, _) => !Reusable(g, s) && SourceMissing(g, s)
    case ConvVariantStat(s, _, out) => !OnDisk(g.files, out) && SourceMissing(g, s)
    case ConvClear(s, _) => SourceMissing(g, s)
    case ConvForget(s, _) => SourceMissing(g, s)
    case ConvSource(s, _) => SourceMissing(g, s)
    case ConvExpireOwn(s, _) => true
    case ConvLook(s, _) => AssetMissing(g, s.assetHash)
    case ConvLookStat(s, _, src) => !OnDisk(g.files, src)
    case ConvExpireShared(s, _) => true
    case ConvCheck(s, _) =>
      var a := AssetOf(g.assets, s.assetHash);
      a.state == Unset || a.state == AssetFailed || a.state == AssetExpired
    case ConvReserve(s, _) => true
    case _ => false
  }

  ghost predicate SameOthers(assets: map<string, Asset>, assets': map<string, Asset>, hash: string) {
    forall h | h != hash :: AssetOf(assets', h) == AssetOf(assets, h)
  }

  /**
    What a request does to the asset `hash` and to the download queue: `marks` says whether the
    asset ends up as being prepared, and `queues` whether the new download job is in its queue.
   */
  ghost predicate Effect(g: Shared, hash: string, marks: bool, queues: bool, n: Names, end: Shared) {
    && AssetOf(end.assets, hash) == (if marks then Asset(NoPath, AssetPreparing) else AssetOf(g.assets, hash))
    && SameOthers(g.assets, end.assets, hash)
    && (n.download in end.tasks <==> n.download in g.tasks || queues)
    && end.files == g.files
  }

  /** The request is about the asset `hash`. */
  predicate ConvertAbout(cfg: Config, g: Shared, pc: ConvertPc, hash: string) {
    match pc
    case ConvGet(id, _) => id in g.sessions ==> AssetHash(cfg, g.sessions[id].url) == hash
    case ConvDone(_) => true
    case _ => pc.s.assetHash == hash
  }

  lemma OfferEffect(cfg: Config, g: Shared, job: Job, id: string)
    ensures id in Offered(cfg, g, job).tasks <==> id in g.tasks || (id == job.id && HasRoom(cfg, g, job.kind))
  {
  }

  lemma OutputStepAbout(cfg: Config, g: Shared, pc: ConvertPc, hash: string)
    requires LooksForOutput(pc) && ConvertAbout(cfg, g, pc, hash)
    ensures var (g', pc') := OutputSearch(cfg, g, pc);
      && g'.assets == g.assets && g'.tasks == g.tasks && g'.files == g.files
      && ConvertAbout(cfg, g', pc', hash) && !pc'.ConvDownload?
  {
  }

  lemma GetSteps(cfg: Config, g: Shared, id: string, ask: Ask)
    ensures var (g', pc') := OutputSearch(cfg, g, ConvGet(id, ask));
      g' == g.(hashed := g'.hashed) &&
      pc' == if id in g.sessions && ConvertAllowed(cfg, g.sessions[id], ask.clip) then ConvHash(Asked(cfg, g.sessions[id], ask.clip), ask)
             else ConvDone(Rejected)
  {
  }

  lemma GetReserves(cfg: Config, g: Shared, id: string, ask: Ask)
    ensures var (g', pc') := OutputSearch(cfg, g, ConvGet(id, ask));
      ConvertReserves(cfg, g', pc') <==> ConvertReserves(cfg, g, ConvGet(id, ask))
  {
    GetSteps(cfg, g, id, ask);
  }

  /** Looking for an output does not change the need for a source. */
  lemma OutputStepReserves(cfg: Config, g: Shared, pc: ConvertPc)
    requires LooksForOutput(pc)
    ensures var (g', pc') := OutputSearch(cfg, g, pc);
      ConvertReserves(cfg, g', pc') <==> ConvertReserves(cfg, g, pc)
  {
    if pc.ConvGet? {
      GetReserves(cfg, g, pc.id, pc.ask);
    } else {
      OutputEffects(cfg, g, pc);
    }
  }

  lemma SourceStepAbout(cfg: Config, g: Shared, pc: ConvertPc, n: Names, hash: string)
    requires !LooksForOutput(pc) && !pc.ConvDone? && ConvertAbout(cfg, g, pc, hash)
    ensures var (g', pc') := SourceSearch(cfg, g, pc, n);
      g'.files == g.files && ConvertAbout(cfg, g', pc', hash) && SameOthers(g.assets, g'.assets, hash)
  {
  }

  /** A step of the source search: the asset is marked now, or will be, or is left alone. */
  lemma SourceStepReserves(cfg: Config, g: Shared, pc: ConvertPc, n: Names, hash: string)
    requires !LooksForOutput(pc) && !pc.ConvDone? && ConvertAbout(cfg, g, pc, hash)
    ensures var (g', pc') := SourceSearch(cfg, g, pc, n);
      && (if pc.ConvReserve? then pc'.ConvDownload? && AssetOf(g'.assets, hash) == Asset(NoPath, AssetPreparing)
          else !pc'.ConvDownload?)
      && (!pc.ConvReserve? ==> (ConvertReserves(cfg, g', pc') <==> ConvertReserves(cfg, g, pc)))
      && (!ConvertReserves(cfg, g, pc) ==> g'.assets == g.assets)
  {
  }

  lemma SourceStepTasks(cfg: Config, g: Shared, pc: ConvertPc, n: Names)
    requires !LooksForOutput(pc) && !pc.ConvDone? && n.download != n.convert
    ensures var g' := SourceSearch(cfg, g, pc, n).0;
      && (!pc.ConvDownload? && !pc.ConvEnqueue? ==> g'.tasks == g.tasks)
      && (n.download in g'.tasks <==> n.download in g.tasks || (pc.ConvDownload? && HasRoom(cfg, g, Download)))
  {
    if pc.ConvDownload? {
      OfferEffect(cfg, g, DownloadJob(n, pc.s.id), n.download);
    } else if pc.ConvEnqueue? {
      OfferEffect(cfg, g, ConvertJob(n, pc.s.id, pc.ask), n.download);
    }
  }

  /** Before the queue is reached, the tasks are untouched. */
  predicate BeforeQueue(pc: ConvertPc) {
    !pc.ConvDone? && !pc.ConvEnqueue? && !pc.ConvFinish?
  }

  lemma {:induction false} SourceEffect(cfg: Config, g: Shared, pc: ConvertPc, n: Names, hash: string, room: bool)
    requires !LooksForOutput(pc) && n.download != n.convert && ConvertAbout(cfg, g, pc, hash)
    requires BeforeQueue(pc) ==> room == HasRoom(cfg, g, Download)
    ensures var marks := ConvertReserves(cfg, g, pc);
      Effect(g, hash, marks, (marks || pc.ConvDownload?) && room, n, FinishSource(cfg, g, pc, n).0)
    decreases ConvertRank(pc)
  {
    if !pc.ConvDone? {
      var (g', pc') := SourceSearch(cfg, g, pc, n);
      SourceStepAbout(cfg, g, pc, n, hash);
      SourceStepReserves(cfg, g, pc, n, hash);
      SourceStepTasks(cfg, g, pc, n);
      SourceEffect(cfg, g', pc', n, hash, room);
    }
  }

  lemma {:induction false} OutputEffect(cfg: Config, g: Shared, pc: ConvertPc, n: Names, hash: string, room: bool)
    requires n.download != n.convert && ConvertAbout(cfg, g, pc, hash)
    requires BeforeQueue(pc) ==> room == HasRoom(cfg, g, Download)
    ensures var marks := ConvertReserves(cfg, g, pc);
      Effect(g, hash, marks, (marks || pc.ConvDownload?) && room, n, FinishConvert(cfg, g, pc, n).0)
    decreases ConvertRank(pc)
  {
    if LooksForOutput(pc) {
      var (g', pc') := OutputSearch(cfg, g, pc);
      OutputStepAbout(cfg, g, pc, hash);
      OutputStepReserves(cfg, g, pc);
      OutputEffect(cfg, g', pc', n, hash, room);
    } else {
      SourceEffect(cfg, g, pc, n, hash, room);
    }
  }

  /** A convert request queues a download exactly when nothing can be reused, no source is in sight, and there is room. */
  lemma ConvertDownloadsIff(cfg: Config, g: Shared, id: string, ask: Ask, n: Names, hash: string)
    requires FreshNames(g, n) && (id in g.sessions ==> AssetHash(cfg, g.sessions[id].url) == hash)
    ensures var marks := ConvertReserves(cfg, g, ConvGet(id, ask));
      Effect(g, hash, marks, marks && HasRoom(cfg, g, Download), n, FinishConvert(cfg, g, ConvGet(id, ask), n).0)
  {
    OutputEffect(cfg, g, ConvGet(id, ask), n, hash, HasRoom(cfg, g, Download));
  }

  // -------------------------------------------------- replies of handleConvertReq

  predicate WillReject(cfg: Config, g: Shared, pc: ConvertPc) {
    match pc
    case ConvGet(id, ask) => id !in g.sessions || !ConvertAllowed(cfg, g.sessions[id], ask.clip)
    case ConvDone(reply) => reply == Rejected
    case _ => false
  }

  predicate WillReuse(cfg: Config, g: Shared, pc: ConvertPc) {
    match pc
    case ConvGet(id, ask) =>
      !WillReject(cfg, g, pc) &&
      Reusable(g, Asked(cfg, g.sessions[id], ask.clip))
    case ConvHash(s, _) => Reusable(g, s)
    case ConvVariant(s, _) => Reusable(g, s)
    case ConvVariantStat(s, _, out) => OnDisk(g.files, out)
    case ConvReuse(s) => true
    case ConvDone(reply) => reply == Reused
    case _ => false
  }

  /** The download queue has room if it is needed, and the convert queue has. */
  predicate HasPlaces(cfg: Config, g: Shared, pc: ConvertPc) {
    pc.ConvFinish? ||
    (HasRoom(cfg, g, Convert) && (ConvertReserves(cfg, g, pc) || pc.ConvDownload? ==> HasRoom(cfg, g, Download)))
  }

  /** The reply that the state before the request calls for. */
  function ExpectedReply(cfg: Config, g: Shared, pc: ConvertPc): Reply {
    if WillReject(cfg, g, pc) then Rejected
    else if WillReuse(cfg, g, pc) then Reused
    else if HasPlaces(cfg, g, pc) then Accepted
    else QueueFull
  }

  /** A job of one kind takes no place in the other queue. */
  lemma OfferLeavesRoom(cfg: Config, g: Shared, job: Job, kind: JobType)
    requires job.id !in g.tasks && job.kind != kind
    ensures HasRoom(cfg, Offered(cfg, g, job), kind) <==> HasRoom(cfg, g, kind)
  {
    assert InQueue(Offered(cfg, g, job).tasks, kind) == InQueue(g.tasks, kind);
  }

  lemma SourceStepPlaces(cfg: Config, g: Shared, pc: ConvertPc, n: Names, hash: string)
    requires !LooksForOutput(pc) && !pc.ConvDone? && ConvertAbout(cfg, g, pc, hash)
    requires pc.ConvDownload? ==> n.download !in g.tasks
    ensures var (g', pc') := SourceSearch(cfg, g, pc, n);
      if pc'.ConvDone? then pc'.reply == (if HasPlaces(cfg, g, pc) then Accepted else QueueFull)
      else HasPlaces(cfg, g', pc') <==> HasPlaces(cfg, g, pc)
  {
    SourceStepReserves(cfg, g, pc, n, hash);
    SourceEffects(cfg, g, pc, n);
    if pc.ConvDownload? {
      OfferLeavesRoom(cfg, g, DownloadJob(n, pc.s.id), Convert);
    }
  }

  lemma {:induction false} SourceReply(cfg: Config, g: Shared, pc: ConvertPc, n: Names, hash: string)
    requires !LooksForOutput(pc) && !pc.ConvDone? && ConvertAbout(cfg, g, pc, hash)
    requires BeforeQueue(pc) ==> n.download !in g.tasks
    ensures FinishSource(cfg, g, pc, n).1 == if HasPlaces(cfg, g, pc) then Accepted else QueueFull
    decreases ConvertRank(pc)
  {
    var (g', pc') := SourceSearch(cfg, g, pc, n);
    SourceStepAbout(cfg, g, pc, n, hash);
    SourceStepPlaces(cfg, g, pc, n, hash);
    if !pc'.ConvDone? {
      SourceEffects(cfg, g, pc, n);
      SourceReply(cfg, g', pc', n, hash);
    }
  }

  lemma OutputStepReplies(cfg: Config, g: Shared, pc: ConvertPc, hash: string)
    requires LooksForOutput(pc) && ConvertAbout(cfg, g, pc, hash)
    ensures var (g', pc') := OutputSearch(cfg, g, pc);
      && (WillReject(cfg, g', pc') <==> WillReject(cfg, g, pc))
      && (WillReuse(cfg, g', pc') <==> WillReuse(cfg, g, pc))
  {
  }

  lemma OutputStepPlaces(cfg: Config, g: Shared, pc: ConvertPc, hash: string)
    requires LooksForOutput(pc) && ConvertAbout(cfg, g, pc, hash)
    ensures var (g', pc') := OutputSearch(cfg, g, pc);
      !pc'.ConvDone? ==> (HasPlaces(cfg, g', pc') <==> HasPlaces(cfg, g, pc))
  {
    OutputStepReserves(cfg, g, pc);
    OutputEffects(cfg, g, pc);
    assert OutputSearch(cfg, g, pc).0.tasks == g.tasks;
  }

  /**
    The reply to a convert request, for each of the four: rejected, completed from an existing
    output, accepted because both queues have the places needed, or refused for lack of one.
   */
  lemma {:induction false} RepliesExplained(cfg: Config, g: Shared, pc: ConvertPc, n: Names, hash: string)
    requires LooksForOutput(pc) && n.download !in g.tasks && ConvertAbout(cfg, g, pc, hash)
    ensures FinishConvert(cfg, g, pc, n).1 == ExpectedReply(cfg, g, pc)
    decreases ConvertRank(pc)
  {
    var (g', pc') := OutputSearch(cfg, g, pc);
    OutputStepAbout(cfg, g, pc, hash);
    OutputStepReplies(cfg, g, pc, hash);
    OutputStepPlaces(cfg, g, pc, hash);
    if LooksForOutput(pc') {
      RepliesExplained(cfg, g', pc', n, hash);
    } else if !pc'.ConvDone? {
      SourceReply(cfg, g', pc', n, hash);
    }
  }

  /**
    After a convert request that was accepted and queued, the source is on disk and not empty, or
    the asset is marked as being prepared; it is never left failed, expired or absent.
   */
  lemma QueuedConvertHasSource(cfg: Config, g: Shared, id: string, ask: Ask, n: Names)
    requires HexHashes(cfg) && MapsOk(cfg, g) && FreshNames(g, n)
    requires FinishConvert(cfg, g, ConvGet(id, ask), n).1 == Accepted
    ensures id in g.sessions
    ensures var end := FinishConvert(cfg, g, ConvGet(id, ask), n).0;
      var hash := AssetHash(cfg, g.sessions[id].url);
      OnDisk(end.files, Source(hash)) || AssetOf(end.assets, hash) == Asset(NoPath, AssetPreparing)
  {
    RepliesExplained(cfg, g, ConvGet(id, ask), n, if id in g.sessions then AssetHash(cfg, g.sessions[id].url) else "");
    ConvertDownloadsIff(cfg, g, id, ask, n, AssetHash(cfg, g.sessions[id].url));
    SourceInSight(cfg, g, id);
  }

  /** From the map invariant: no source missing means a source on disk or one that is promised. */
  lemma SourceInSight(cfg: Config, g: Shared, id: string)
    requires MapsOk(cfg, g) && id in g.sessions
    ensures var s := g.sessions[id];
      var hash := AssetHash(cfg, s.url);
      !SourceMissing(g, s.(assetHash := hash)) ==>
        OnDisk(g.files, Source(hash)) || AssetOf(g.assets, hash) == Asset(NoPath, AssetPreparing)
  {
    var hash := AssetHash(cfg, g.sessions[id].url);
    assert Storable(cfg, g.converted, g.sessions[id]);
    assert hash in g.assets ==> AssetOk(hash, g.assets[hash]);
  }

  // ------------------------------------------------------------- handlePrepare

  /** handlePrepare asks for a download of an asset that is absent, failed or whose file is gone, but not of an expired one. */
  predicate PrepareReserves(cfg: Config, g: Shared, pc: PreparePc) {
    match pc
    case PrepCreate(s, _) => s.id !in g.sessions && PrepareNeeds(g, AssetHash(cfg, s.url))
    case PrepMark(s) => PrepareNeeds(g, AssetHash(cfg, s.url))
    case PrepHash(s) => PrepareNeeds(g, s.assetHash)
    case PrepLook(s) => PrepareNeeds(g, s.assetHash)
    case PrepStat(s, src) => !OnDisk(g.files, src)
    case PrepExpire(s) => true
    case PrepReserve(s) => true
    case PrepEnqueue(s) => false
    case PrepDone(_) => false
  }

  predicate PrepareNeeds(g: Shared, hash: string) {
    AssetMissing(g, hash) && AssetOf(g.assets, hash).state != AssetExpired
  }

  predicate PrepareAbout(cfg: Config, pc: PreparePc, hash: string) {
    match pc
    case PrepCreate(s, _) => AssetHash(cfg, s.url) == hash
    case PrepMark(s) => AssetHash(cfg, s.url) == hash
    case PrepDone(_) => true
    case _ => pc.s.assetHash == hash
  }

  lemma PrepareStepReserves(cfg: Config, g: Shared, pc: PreparePc, n: Names, hash: string)
    requires !pc.PrepDone? && PrepareAbout(cfg, pc, hash)
    ensures var (g', pc') := PrepareStep(cfg, g, pc, n);
      && g'.files == g.files && PrepareAbout(cfg, pc', hash) && SameOthers(g.assets, g'.assets, hash)
      && (if pc.PrepReserve? then pc'.PrepEnqueue? && AssetOf(g'.assets, hash) == Asset(NoPath, AssetPreparing)
          else !pc'.PrepEnqueue?)
      && (!pc.PrepReserve? ==> (PrepareReserves(cfg, g', pc') <==> PrepareReserves(cfg, g, pc)))
      && (!PrepareReserves(cfg, g, pc) ==> g'.assets == g.assets)
  {
  }

  lemma PrepareStepTasks(cfg: Config, g: Shared, pc: PreparePc, n: Names)
    ensures var g' := PrepareStep(cfg, g, pc, n).0;
      && (!pc.PrepEnqueue? ==> g'.tasks == g.tasks)
      && (n.download in g'.tasks <==> n.download in g.tasks || (pc.PrepEnqueue? && HasRoom(cfg, g, Download)))
  {
    if pc.PrepEnqueue? {
      OfferEffect(cfg, g, DownloadJob(n, pc.s.id), n.download);
    }
  }

  /** A prepare request queues a download exactly when it needs one and there is room. */
  lemma {:induction false} PrepareDownloadsIff(cfg: Config, g: Shared, pc: PreparePc, n: Names, hash: string, room: bool)
    requires PrepareAbout(cfg, pc, hash) && (!pc.PrepDone? ==> room == HasRoom(cfg, g, Download))
    ensures var marks := PrepareReserves(cfg, g, pc);
      Effect(g, hash, marks, (marks || pc.PrepEnqueue?) && room, n, FinishPrepare(cfg, g, pc, n).0)
    decreases PrepareRank(pc)
  {
    if !pc.PrepDone? {
      var (g', pc') := PrepareStep(cfg, g, pc, n);
      PrepareStepReserves(cfg, g, pc, n, hash);
      PrepareStepTasks(cfg, g, pc, n);
      PrepareDownloadsIff(cfg, g', pc', n, hash, room);
    }
  }

  // ---------------------------------------------------- handleStatus

  /**
    After a status request, a session that is stored as completed with an output really has that
    output on disk; one whose output has expired is stored as failed, and no other session changes.
   */
  lemma StatusIsAccurate(g: Shared, id: string)
    requires id in g.sessions && g.sessions[id].id == id
    ensures id in FinishStatus(g, StatusGet(id)).0.sessions
    ensures var end := FinishStatus(g, StatusGet(id)).0;
      var s, s' := g.sessions[id], end.sessions[id];
      && (s'.state == Completed && s'.outputPath != NoPath ==> OnDisk(end.files, s'.outputPath))
      && (s' != s ==> s.state == Completed && !OnDisk(g.files, s.outputPath) && s' == s.(outputPath := NoPath, state := Failed))
      && end == g.(sessions := g.sessions[id := s'])
  {
    var s := g.sessions[id];
    assert g.sessions[id := s] == g.sessions;
    if s.state == Completed && s.outputPath != NoPath {
      assert FinishStatus(g, StatusGet(id)) == FinishStatus(g, StatusStat(s));
      if OnDisk(g.files, s.outputPath) {
        assert FinishStatus(g, StatusStat(s)) == FinishStatus(g, StatusDone(Answered)) == (g, Answered);
      } else {
        var s' := s.(outputPath := NoPath, state := Failed);
        assert FinishStatus(g, StatusStat(s)) == FinishStatus(g, StatusFail(s'));
        assert FinishStatus(g, StatusFail(s')) == FinishStatus(WithSession(g, s'), StatusDone(Answered));
      }
    } else {
      assert FinishStatus(g, StatusGet(id)) == FinishStatus(g, StatusDone(Answered)) == (g, Answered);
    }
  }
}
