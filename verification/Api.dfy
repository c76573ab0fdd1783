/**
  The handlers of api.go as methods over the session store, the files and the two job queues.
  Each method is one whole handler, and is proved to have the effect of its small program in
  ApiModel run to completion; HandlerClaims, Sharing and SelfHealing are about those runs.
 */
module Api {
  import opened Jobs
  import opened VariantKey
  import opened Model
  import opened ApiModel
  import opened HandlerRuns
  import opened MemoryStore
  import opened TaskQueues
  import opened HandlerClaims
  import opened ApiInvariant
  import opened Dedup
  import opened Outcomes
  import opened ClipBounds
  import opened Text
  import opened Options

  /** The file was written longer than `ttl` ago. */
  predicate PastLifetime(modified: map<Path, int>, p: Path, now: int, ttl: int) {
    p in modified && now - modified[p] > ttl
  }

  /** The source of the URL's asset is on disk and not empty, or marked as being prepared. */
  predicate SourceInSightOf(cfg: Config, g: Shared, url: string) {
    OnDisk(g.files, Source(AssetHash(cfg, url))) || AssetOf(g.assets, AssetHash(cfg, url)) == Asset(NoPath, AssetPreparing)
  }

  class Api {
    const cfg: Config
    const store: MemoryStore
    const queues: TaskQueues
    var files: map<Path, Content>
    ghost var hashed: set<string>
    ghost var converted: set<string>
    ghost var urls: map<string, string>

    ghost predicate Valid()
      reads store, queues, queues.download, queues.convert
    {
      store.Valid() && queues.Valid() && queues.capacity == cfg.capacity
    }

    ghost function Tasks(): map<string, Task>
      reads queues
    {
      queues.tasks
    }

    /** Everything the handlers share, as a value. */
    ghost function Now(): Shared
      reads this, store, store.sessions.Values, queues
    {
      Shared(store.View(), store.assetMap, store.variantToOut, files, Tasks(), hashed, converted, urls)
    }

    constructor (cfg: Config)
      ensures Valid() && Now() == START && this.cfg == cfg && fresh(store) && fresh(queues)
    {
      this.cfg := cfg;
      store := new MemoryStore();
      queues := new TaskQueues(cfg.capacity);
      files, hashed, converted, urls := map[], {}, {}, map[];
    }

    // ------------------------------------------------- single operations

    /** GetSession, as a value. */
    method Load(id: string) returns (found: bool, s: Session)
      requires Valid()
      ensures found == (id in Now().sessions) && (found ==> s == Now().sessions[id])
    {
      var o := store.GetSession(id);
      found := o != null;
      s := if o != null then o.Value() else Session("", "", "", "", Preparing, NoPath, NoPath, 0);
    }

    method Insert(s: Session)
      requires Valid()
      modifies store`sessions
      ensures Valid() && Now() == old(Now()).(sessions := Inserted(old(Now()).sessions, s))
    {
      var o := new ConversionSession(s);
      var r := store.CreateSession(o);
    }

    /** UpdateSession with a copy that nobody writes to afterwards. */
    method Save(s: Session)
      requires Valid()
      modifies store`sessions
      ensures Valid() && Now() == WithSession(old(Now()), s)
    {
      var o := new ConversionSession(s);
      var r := store.UpdateSession(o);
    }

    method MarkAsset(hash: string, path: Path, state: AssetState)
      requires Valid()
      modifies store`assetMap
      ensures Valid() && Now() == WithAsset(old(Now()), hash, path, state)
    {
      store.SetAsset(hash, path, state);
    }

    method MarkVariant(hash: string, path: Path)
      requires Valid()
      modifies store`variantToOut
      ensures Valid() && Now() == old(Now()).(variants := old(Now()).variants[hash := path])
    {
      store.SetVariant(hash, path);
    }

    method Stat(path: Path) returns (ok: bool)
      ensures ok == OnDisk(files, path)
    {
      ok := path in files && files[path] != Blank;
    }

    method Remove(path: Path)
      requires Valid()
      modifies this`files
      ensures Valid() && Now() == Without(old(Now()), path)
    {
      files := files - {path};
    }

    /** Enqueue of a new job. */
    method Offer(job: Job) returns (ok: bool)
      requires Valid() && job.id !in Tasks()
      modifies queues, queues.download, queues.convert
      ensures Valid() && Now() == Offered(cfg, old(Now()), job) && ok == HasRoom(cfg, old(Now()), job.kind)
    {
      ok := queues.Enqueue(Task(job, Waiting, 0));
    }

    /** A worker takes the next job: one that no other waiting job of the kind precedes. */
    method NextJob(kind: JobType) returns (j: Job)
      requires Valid() && InQueue(Tasks(), kind) != {}
      modifies queues, queues.download, queues.convert
      ensures Valid() && j.id in InQueue(old(Tasks()), kind) && old(Tasks())[j.id].job == j
      ensures forall id | id in InQueue(old(Tasks()), kind) ::
        var k := old(Tasks())[id].job;
        k.priority < j.priority || (k.priority == j.priority && j.enqueuedAt <= k.enqueuedAt)
      ensures Now() == At(old(Now()), j.id, Begun(old(Tasks())[j.id]))
    {
      j := queues.Take(kind);
    }

    ghost method Note(texts: set<string>)
      requires Valid()
      modifies this`hashed
      ensures Valid() && Now() == WithHashed(old(Now()), texts)
    {
      hashed := hashed + texts;
    }

    ghost method NoteConverted(v: string)
      requires Valid()
      modifies this`converted
      ensures Valid() && Now() == old(Now()).(converted := old(Now()).converted + {v})
    {
      converted := converted + {v};
    }

    method RemoveSession(id: string)
      requires Valid()
      modifies store`sessions, store`urlToId
      ensures Valid() && Now() == old(Now()).(sessions := Removed(old(Now()).sessions, id))
    {
      store.DeleteSession(id);
    }

    // -------------------------------------------------------- the handlers

    /** CreateSession, and the first update with the metadata. */
    method CreateSession(s0: Session, duration: int) returns (s: Session)
      requires Valid()
      modifies store`sessions
      ensures Valid() && s == s0.(state := Created, duration := duration)
      ensures Now() == WithSession(old(Now()).(sessions := Inserted(old(Now()).sessions, s0)), s)
    {
      Insert(s0);
      s := s0.(state := Created, duration := duration);
      Save(s);
    }

    /** The first part of handlePrepare: the session with its metadata and asset hash is in the store. */
    method RegisterSession(id: string, url: string, duration: int) returns (s: Session)
      requires Valid()
      modifies this`hashed, store`sessions
      ensures Valid() && (Now(), s) == Registered(cfg, old(Now()), id, url, duration)
    {
      s := CreateSession(Session(id, url, "", "", Preparing, NoPath, NoPath, 0), duration);
      Note({cfg.canon(url)});
      s := s.(assetHash := AssetHash(cfg, url));
      Save(s);
    }

    /** Is a download needed, and is it needed because the file of a downloaded asset is gone? */
    method NeedsDownload(s: Session, n: Names) returns (needed: bool, stale: bool)
      requires Valid()
      ensures FinishPrepare(cfg, Now(), PrepLook(s), n) ==
        if !needed then (Now(), Accepted)
        else if stale then FinishPrepare(cfg, Now(), PrepExpire(s), n)
        else FinishPrepare(cfg, Now(), PrepReserve(s), n)
    {
      var a, ok := store.GetAsset(s.assetHash);
      stale := false;
      if a.path != NoPath && a.state == AssetDownloaded {
        assert FinishPrepare(cfg, Now(), PrepLook(s), n) == FinishPrepare(cfg, Now(), PrepStat(s, a.path), n);
        var there := Stat(a.path);
        stale := !there;
      }
      needed := a.state == Unset || a.state == AssetFailed || stale;
    }

    /** Marks the asset and queues its download. */
    method StartDownload(s: Session, stale: bool, n: Names) returns (reply: Reply)
      requires Valid() && n.download !in Tasks()
      modifies queues, queues.download, queues.convert, store`assetMap
      ensures Valid()
      ensures (Now(), reply) ==
        if stale then FinishPrepare(cfg, old(Now()), PrepExpire(s), n) else FinishPrepare(cfg, old(Now()), PrepReserve(s), n)
    {
      ghost var goal := if stale then FinishPrepare(cfg, Now(), PrepExpire(s), n) else FinishPrepare(cfg, Now(), PrepReserve(s), n);
      if stale {
        MarkAsset(s.assetHash, NoPath, AssetExpired);
      }
      assert goal == FinishPrepare(cfg, Now(), PrepReserve(s), n);
      MarkAsset(s.assetHash, NoPath, AssetPreparing);
      assert goal == FinishPrepare(cfg, Now(), PrepEnqueue(s), n);
      var queued := Offer(DownloadJob(n, s.id));
      reply := if queued then Accepted else QueueFull;
      assert goal == FinishPrepare(cfg, Now(), PrepDone(reply), n);
    }

    /** handlePrepare, once the video is known not to be too long. */
    method PrepareVideo(id: string, url: string, duration: int, n: Names) returns (reply: Reply)
      requires Valid() && FreshNames(Now(), n)
      modifies this`hashed, store`sessions, store`assetMap, queues, queues.download, queues.convert
      ensures Valid()
      ensures (Now(), reply) ==
        FinishPrepare(cfg, old(Now()), PrepCreate(Session(id, url, "", "", Preparing, NoPath, NoPath, 0), duration), n)
    {
      RegisterRuns(cfg, Now(), id, url, duration, n);
      var taken, other := Load(id);
      if taken {
        return Rejected;
      }
      var s := RegisterSession(id, url, duration);
      var needed, stale := NeedsDownload(s, n);
      if !needed {
        return Accepted;
      }
      reply := StartDownload(s, stale, n);
    }

    /** A prepare request; its download is queued exactly when one is needed and there is room. */
    method HandlePrepare(id: string, url: string, duration: int, n: Names) returns (reply: Reply)
      requires Valid() && FreshNames(Now(), n)
      modifies this, store, queues, queues.download, queues.convert
      ensures Valid() && (Now(), reply) == FinishPrepare(cfg, old(Now()), StartPrepare(cfg, id, url, duration), n)
      ensures reply == PrepareReply(cfg, old(Now()), id, url, duration)
      ensures n.download in Tasks() <==>
        PrepareReserves(cfg, old(Now()), StartPrepare(cfg, id, url, duration)) && HasRoom(cfg, old(Now()), Download)
    {
      PrepareReplies(cfg, Now(), id, url, duration, n);
      PrepareDownloadsIff(cfg, Now(), StartPrepare(cfg, id, url, duration), n, AssetHash(cfg, url), HasRoom(cfg, Now(), Download));
      if cfg.maxDuration > 0 && duration > cfg.maxDuration {
        return Rejected;
      }
      reply := PrepareVideo(id, url, duration, n);
    }

    /** handleConvertReq on the session's own source path. */
    method CheckOwnSource(s0: Session, ask: Ask, n: Names) returns (s: Session, ready: bool)
      requires Valid()
      modifies store`assetMap
      ensures Valid()
      ensures FinishSource(cfg, old(Now()), ConvSource(s0, ask), n) ==
        FinishSource(cfg, Now(), if ready then ConvEnqueue(s, ask, true) else ConvLook(s, ask), n)
    {
      s, ready := s0, false;
      if s.sourcePath != NoPath {
        ready := Stat(s.sourcePath);
        if !ready {
          ghost var before := Now();
          MarkAsset(s.assetHash, NoPath, AssetExpired);
          s := s.(sourcePath := NoPath);
          assert FinishSource(cfg, before, ConvExpireOwn(s0, ask), n) == FinishSource(cfg, Now(), ConvLook(s, ask), n);
        }
      }
    }

    /** handleConvertReq on the shared asset. */
    method CheckSharedSource(s0: Session) returns (s: Session, ready: bool)
      requires Valid()
      modifies store`assetMap
      ensures Valid() && (Now(), s, ready) == AfterLook(old(Now()), s0)
    {
      s, ready := s0, false;
      var a, ok := store.GetAsset(s.assetHash);
      if a.path != NoPath && a.state == AssetDownloaded {
        ready := Stat(a.path);
        if ready {
          s := s.(sourcePath := a.path);
        } else {
          MarkAsset(s.assetHash, NoPath, AssetExpired);
        }
      }
    }

    /** Both places where a source may be: the session's own path, then the shared asset. */
    method FindSource(s0: Session, ask: Ask, n: Names) returns (s: Session, ready: bool)
      requires Valid()
      modifies store`assetMap
      ensures Valid()
      ensures FinishSource(cfg, old(Now()), ConvSource(s0, ask), n) ==
        FinishSource(cfg, Now(), if ready then ConvEnqueue(s, ask, true) else ConvCheck(s, ask), n)
    {
      s, ready := CheckOwnSource(s0, ask, n);
      if !ready {
        LookRuns(cfg, Now(), s, ask, n);
        s, ready := CheckSharedSource(s);
      }
    }

    /** handleConvertReq without a source: make sure that a download is under way. */
    method RequestSource(s: Session, ask: Ask, n: Names) returns (full: bool)
      requires Valid() && FreshNames(Now(), n)
      modifies queues, queues.download, queues.convert, store`assetMap
      ensures Valid()
      ensures n.convert !in Tasks()
      ensures FinishSource(cfg, old(Now()), ConvCheck(s, ask), n) ==
        FinishSource(cfg, Now(), if full then ConvDone(QueueFull) else ConvEnqueue(s, ask, false), n)
    {
      CheckRuns(cfg, Now(), s, ask, n);
      full := false;
      var a, ok := store.GetAsset(s.assetHash);
      if a.state == Unset || a.state == AssetFailed || a.state == AssetExpired {
        MarkAsset(s.assetHash, NoPath, AssetPreparing);
        var queued := Offer(DownloadJob(n, s.id));
        full := !queued;
      }
    }

    /** Queues the conversion and records its state. */
    method QueueConversion(s: Session, ask: Ask, ready: bool, n: Names) returns (reply: Reply)
      requires Valid() && n.convert !in Tasks()
      modifies queues, queues.download, queues.convert, store`sessions
      ensures Valid() && (Now(), reply) == FinishSource(cfg, old(Now()), ConvEnqueue(s, ask, ready), n)
    {
      EnqueueRuns(cfg, Now(), s, ask, ready, n);
      var queued := Offer(ConvertJob(n, s.id, ask));
      if !queued {
        return QueueFull;
      }
      Save(s.(state := if ready then Converting else Queued));
      return Accepted;
    }

    /** Clears the variant of an output that is gone, and the session's pointer to it. */
    method ForgetOutput(s: Session)
      requires Valid()
      modifies store`sessions, store`variantToOut
      ensures Valid()
      ensures Now() == WithSession(old(Now()).(variants := old(Now()).variants[s.variantHash := NoPath]), s)
    {
      MarkVariant(s.variantHash, NoPath);
      Save(s);
    }

    /** The fast path of handleConvertReq: an existing output completes the request at once. */
    method TryReuse(s0: Session) returns (s: Session, reused: bool)
      requires Valid()
      modifies store`sessions, store`variantToOut
      ensures Valid() && (Now(), s, reused) == AfterSearch(old(Now()), s0)
    {
      s, reused := s0, false;
      var out, ok := store.GetVariant(s.variantHash);
      if out != NoPath {
        reused := Stat(out);
        if reused {
          s := s.(outputPath := out, state := Completed);
          Save(s);
        } else {
          s := s.(outputPath := NoPath);
          ForgetOutput(s);
        }
      }
    }

    /** The checks and hashes at the start of handleConvertReq. */
    method AcceptRequest(id: string, ask: Ask, n: Names) returns (ok: bool, s: Session)
      requires Valid()
      modifies this`hashed, store`sessions
      ensures Valid()
      ensures FinishConvert(cfg, old(Now()), ConvGet(id, ask), n) ==
        if ok then FinishConvert(cfg, Now(), ConvVariant(s, ask), n) else (Now(), Rejected)
    {
      var s0;
      ok, s0 := Load(id);
      s := s0;
      if !ok || !ConvertAllowed(cfg, s0, ask.clip) {
        ok := false;
        return;
      }
      ghost var goal := FinishConvert(cfg, Now(), ConvGet(id, ask), n);
      var asset := AssetHash(cfg, s0.url);
      s := s0.(assetHash := asset, variantHash := VariantHash(cfg, asset, ask.clip));
      Note({cfg.canon(s.url), Key(asset, ask.clip)});
      assert goal == FinishConvert(cfg, Now(), ConvHash(s, ask), n);
      Save(s);
    }

    /** handleConvertReq once no output can be reused. */
    method SourceAndQueue(s0: Session, ask: Ask, n: Names) returns (reply: Reply)
      requires Valid() && FreshNames(Now(), n)
      modifies queues, queues.download, queues.convert, store`assetMap, store`sessions
      ensures Valid() && (Now(), reply) == FinishSource(cfg, old(Now()), ConvSource(s0, ask), n)
    {
      var s, ready := FindSource(s0, ask, n);
      if !ready {
        var full := RequestSource(s, ask, n);
        if full {
          return QueueFull;
        }
      }
      reply := QueueConversion(s, ask, ready, n);
    }

    /** handleConvertReq: the effect and the reply. */
    method AnswerConvert(id: string, ask: Ask, n: Names) returns (reply: Reply)
      requires Valid() && FreshNames(Now(), n)
      modifies this`hashed, store`sessions, store`assetMap, store`variantToOut, queues, queues.download, queues.convert
      ensures Valid() && (Now(), reply) == FinishConvert(cfg, old(Now()), ConvGet(id, ask), n)
    {
      var ok, s := AcceptRequest(id, ask, n);
      if !ok {
        return Rejected;
      }
      SearchRuns(cfg, Now(), s, ask, n);
      var reused;
      s, reused := TryReuse(s);
      if reused {
        return Reused;
      }
      reply := SourceAndQueue(s, ask, n);
    }

    /** A convert request; the reply is the one that the state before it calls for. */
    method HandleConvertReq(id: string, ask: Ask, n: Names) returns (reply: Reply)
      requires Valid() && FreshNames(Now(), n)
      modifies this, store, queues, queues.download, queues.convert
      ensures Valid() && (Now(), reply) == FinishConvert(cfg, old(Now()), ConvGet(id, ask), n)
      ensures reply == ExpectedReply(cfg, old(Now()), ConvGet(id, ask))
      ensures NoOverflow(ask.clip.start, ask.clip.end) && (id in old(Now()).sessions ==> old(Now()).sessions[id].duration <= MAX_INT64)
        ==> (reply == Rejected <==> Unacceptable(cfg, old(Now()), id, ask.clip))
      ensures HexHashes(cfg) && MapsOk(cfg, old(Now())) && reply == Accepted ==>
        id in old(Now()).sessions && SourceInSightOf(cfg, Now(), old(Now()).sessions[id].url)
    {
      if NoOverflow(ask.clip.start, ask.clip.end) && (id in Now().sessions ==> Now().sessions[id].duration <= MAX_INT64) {
        RejectionOutcome(cfg, Now(), id, ask, n);
      }
      if HexHashes(cfg) && MapsOk(cfg, Now()) && FinishConvert(cfg, Now(), ConvGet(id, ask), n).1 == Accepted {
        QueuedConvertHasSource(cfg, Now(), id, ask, n);
      }
      RepliesExplained(cfg, Now(), ConvGet(id, ask), n, if id in Now().sessions then AssetHash(cfg, Now().sessions[id].url) else "");
      reply := AnswerConvert(id, ask, n);
    }

    method HandleStatus(id: string) returns (reply: Reply)
      requires Valid()
      modifies store`sessions
      ensures Valid() && (Now(), reply) == FinishStatus(old(Now()), StatusGet(id))
      ensures reply == if id in old(Now()).sessions then Answered else Rejected
      ensures id in Now().sessions ==>
        var s := Now().sessions[id]; s.state == Completed && s.outputPath != NoPath ==> OnDisk(files, s.outputPath)
    {
      StatusOutcome(Now(), id);
      var found, s := Load(id);
      if !found {
        return Rejected;
      }
      if s.state == Completed && s.outputPath != NoPath {
        var there := Stat(s.outputPath);
        if !there {
          Save(s.(outputPath := NoPath, state := Failed));
        }
      }
      return Answered;
    }

    /** Removes the files that a deleted session pointed at. */
    method RemoveFiles(s: Session)
      requires Valid()
      modifies this`files
      ensures Valid()
      ensures var g := if s.outputPath != NoPath then Without(old(Now()), s.outputPath) else old(Now());
        Now() == if s.sourcePath != NoPath then Without(g, s.sourcePath) else g
    {
      if s.outputPath != NoPath {
        Remove(s.outputPath);
      }
      if s.sourcePath != NoPath {
        Remove(s.sourcePath);
      }
    }

    method HandleDelete(id: string) returns (reply: Reply)
      requires Valid()
      modifies this`files, store`sessions, store`urlToId
      ensures Valid() && (Now(), reply) == FinishDelete(old(Now()), DelGet(id))
    {
      DeleteRequestRuns(Now(), id);
      var found, s := Load(id);
      if found {
        DeleteRuns(Now(), s);
      }
      RemoveSession(id);
      if found {
        RemoveFiles(s);
      }
      return Answered;
    }

    // ---------------------------------------------------------- the workers

    /** The worker lets go of its job. */
    method Release(j: string, t: Task)
      requires Valid() && j in Tasks() && !Tasks()[j].place.Waiting? && t.job.id == j && !t.place.Waiting?
      modifies queues`tasks
      ensures Valid() && Now() == At(old(Now()), j, t)
    {
      queues.Record(j, t);
    }

    /** The tool has written its output file. */
    method Install(path: Path, content: Content)
      requires Valid()
      modifies this`files
      ensures Valid() && Now() == old(Now()).(files := old(Now()).files[path := content])
    {
      files := files[path := content];
    }

    /** A failed tool run: is there an attempt left? */
    method CountAttempt(t: Task, giveUp: Place) returns (t': Task)
      ensures t' == AfterFailure(cfg, t, giveUp)
    {
      var job := t.job.(attempts := t.job.attempts + 1);
      if job.attempts < cfg.maxRetries {
        t' := Task(job, Sleeping, t.calls + 1);
      } else {
        t' := Task(job, giveUp, t.calls + 1);
      }
    }

    /** handleDownload up to the tool run. */
    method BeginDownload(t: Task, tool: Tool) returns (found: bool, s: Session)
      requires Valid() && t.place == Fetching(DlGet)
      modifies this`hashed, store`sessions
      ensures Valid()
      ensures FinishFetch(cfg, old(Now()), t, tool) ==
        if found then FinishFetch(cfg, Now(), t.(place := Fetching(DlTool(s))), tool)
        else (Now(), t.(place := Ended(Dropped)))
    {
      ghost var goal := FinishFetch(cfg, Now(), t, tool);
      found, s := Load(t.job.sessionId);
      if !found {
        assert goal == FinishFetch(cfg, Now(), t.(place := Ended(Dropped)), tool);
        return;
      }
      s := s.(state := Downloading);
      assert goal == FinishFetch(cfg, Now(), t.(place := Fetching(DlMark(s))), tool);
      Save(s);
      if s.assetHash == "" {
        Note({cfg.canon(s.url)});
        s := s.(assetHash := AssetHash(cfg, s.url));
      }
    }

    /** Stores the session, and its source with the given state as the shared asset. */
    method ShareSource(s: Session, path: Path, state: AssetState)
      requires Valid()
      modifies store`sessions, store`assetMap
      ensures Valid() && Now() == WithAsset(WithSession(old(Now()), s), s.assetHash, path, state)
    {
      Save(s);
      MarkAsset(s.assetHash, path, state);
    }

    /** handleDownload after a failed tool run. */
    method AfterFailedDownload(t0: Task, s0: Session) returns (t: Task)
      requires Valid() && t0.place == Fetching(DlTool(s0))
      modifies store`sessions, store`assetMap
      ensures Valid() && (Now(), t) == FinishFetch(cfg, old(Now()), t0, ToolFails)
    {
      FailedFetchRuns(cfg, Now(), t0, s0);
      var s := s0.(state := Failed);
      t := CountAttempt(t0, Fetching(DlFail(s)));
      if t.place != Sleeping {
        ShareSource(s, NoPath, AssetFailed);
        t := t.(place := Ended(GaveUp));
      }
    }

    /** handleDownload from the tool run on. */
    method EndDownload(t0: Task, s0: Session, tool: Tool) returns (t: Task)
      requires Valid() && t0.place == Fetching(DlTool(s0))
      modifies this`files, store`sessions, store`assetMap
      ensures Valid() && (Now(), t) == FinishFetch(cfg, old(Now()), t0, tool)
    {
      match tool
      case ToolFails =>
        t := AfterFailedDownload(t0, s0);
      case Installs(nonEmpty) =>
        InstallRuns(cfg, Now(), t0, s0, nonEmpty);
        var out := Source(s0.assetHash);
        Install(out, if nonEmpty then Audio(cfg.canon(s0.url)) else Blank);
        ShareSource(s0.(sourcePath := out, state := Downloaded), out, AssetDownloaded);
        t := t0.(place := Ended(Served), calls := t0.calls + 1);
    }

    method HandleDownload(j: string, tool: Tool)
      requires Valid() && j in Tasks() && Tasks()[j].place == Fetching(DlGet)
      modifies this, store, queues, queues.download, queues.convert
      ensures Valid()
      ensures var (g', t') := FinishFetch(cfg, old(Now()), old(Tasks()[j]), tool); Now() == At(g', j, t')
    {
      var t := queues.tasks[j];
      FetchLetsGo(cfg, Now(), t, tool);
      var found, s := BeginDownload(t, tool);
      if found {
        t := EndDownload(t.(place := Fetching(DlTool(s))), s, tool);
      } else {
        t := t.(place := Ended(Dropped));
      }
      Release(j, t);
    }

    /** handleConvert: the session, with a source path from the shared asset if it has none of its own. */
    method Hydrate(t: Task, tool: Tool, n: Names) returns (found: bool, s: Session)
      requires Valid() && t.place == Encoding(CvGet)
      modifies this`hashed, store`sessions, store`assetMap
      ensures Valid()
      ensures FinishPass(cfg, old(Now()), t, tool, n) ==
        FinishPass(cfg, Now(), t.(place := if found then Gate(s) else Ended(Dropped)), tool, n)
    {
      ghost var goal := FinishPass(cfg, Now(), t, tool, n);
      found, s := Load(t.job.sessionId);
      if !found {
        return;
      }
      if s.assetHash == "" {
        Note({cfg.canon(s.url)});
        s := s.(assetHash := AssetHash(cfg, s.url));
      }
      if s.sourcePath == NoPath {
        assert goal == FinishPass(cfg, Now(), t.(place := Encoding(CvLook(s))), tool, n);
        AdoptRuns(cfg, Now(), t, s, tool, n);
        s := Adopt(s);
      }
    }

    /** Take over the shared source if it is there, and mark the asset expired if its file is not. */
    method Adopt(s0: Session) returns (s: Session)
      requires Valid()
      modifies store`sessions, store`assetMap
      ensures Valid() && (Now(), s) == Adopted(old(Now()), s0)
    {
      s := s0;
      var a, ok := store.GetAsset(s.assetHash);
      if a.path != NoPath && a.state == AssetDownloaded {
        var there := Stat(a.path);
        if there {
          s := s.(sourcePath := a.path, state := Downloaded);
          Save(s);
        } else {
          MarkAsset(s.assetHash, NoPath, AssetExpired);
        }
      }
    }

    /** handleConvert's final guard: convert if the source is there, and forget it otherwise. */
    method GuardAndConvert(t0: Task, s0: Session, tool: Tool) returns (t: Task)
      requires Valid() && t0.place == Encoding(CvGuard(s0))
      modifies this`files, this`hashed, this`converted, store`sessions, store`assetMap, store`variantToOut
      ensures Valid() && (Now(), t) == FinishEncode(cfg, old(Now()), t0, tool)
    {
      var there := Stat(s0.sourcePath);
      if !there {
        ForgetSource(cfg, Now(), t0, tool, s0);
        MarkAsset(s0.assetHash, NoPath, AssetExpired);
        Save(s0.(sourcePath := NoPath));
        t := t0.(place := Sleeping);
      } else {
        StartRuns(cfg, Now(), t0, tool, s0);
        var s := s0.(state := Converting);
        Save(s);
        if s.variantHash == "" {
          Note({Key(s.assetHash, ClipOf(t0.job))});
          s := s.(variantHash := VariantHash(cfg, s.assetHash, ClipOf(t0.job)));
        }
        t := RunConverter(t0.(place := Encoding(CvTool(s))), s, tool);
      }
    }

    /** handleConvert after a failed tool run. */
    method AfterFailedRun(t0: Task, s0: Session, tool: Tool) returns (t: Task)
      requires Valid() && t0.place == Encoding(CvTool(s0))
      requires tool.ToolFails? || !OnDisk(files, s0.sourcePath)
      modifies store`sessions
      ensures Valid() && (Now(), t) == FinishEncode(cfg, old(Now()), t0, tool)
    {
      ghost var goal := FinishEncode(cfg, Now(), t0, tool);
      var s := s0.(state := Failed);
      t := CountAttempt(t0, Encoding(CvFail(s)));
      assert goal == FinishEncode(cfg, Now(), t, tool);
      if t.place != Sleeping {
        Save(s);
        t := t.(place := Ended(GaveUp));
        assert goal == FinishEncode(cfg, Now(), t, tool);
      }
    }

    /** Stores the completed session, and its output under its variant. */
    method Publish(s: Session)
      requires Valid()
      modifies store`sessions, store`variantToOut
      ensures Valid()
      ensures var g := WithSession(old(Now()), s); Now() == g.(variants := g.variants[s.variantHash := s.outputPath])
    {
      Save(s);
      MarkVariant(s.variantHash, s.outputPath);
    }

    /** handleConvert after a successful tool run. */
    method AfterConversion(t0: Task, s0: Session, nonEmpty: bool) returns (t: Task)
      requires Valid() && t0.place == Encoding(CvTool(s0)) && OnDisk(files, s0.sourcePath)
      modifies this`files, this`converted, store`sessions, store`variantToOut
      ensures Valid() && (Now(), t) == FinishEncode(cfg, old(Now()), t0, Installs(nonEmpty))
    {
      ConversionRuns(cfg, Now(), t0, s0, nonEmpty);
      var out := Output(s0.variantHash);
      Install(out, if nonEmpty then Mp3(files[s0.sourcePath], ClipOf(t0.job)) else Blank);
      NoteConverted(s0.variantHash);
      Publish(s0.(outputPath := out, state := Completed));
      t := t0.(place := Ended(Served), calls := t0.calls + 1);
    }

    /** handleConvert from the tool run on; a run without a source file fails. */
    method RunConverter(t0: Task, s: Session, tool: Tool) returns (t: Task)
      requires Valid() && t0.place == Encoding(CvTool(s))
      modifies this`files, this`converted, store`sessions, store`variantToOut
      ensures Valid() && (Now(), t) == FinishEncode(cfg, old(Now()), t0, tool)
    {
      var there := Stat(s.sourcePath);
      if tool.ToolFails? || !there {
        t := AfterFailedRun(t0, s, tool);
      } else {
        t := AfterConversion(t0, s, tool.nonEmpty);
      }
    }

    /** handleConvert, up to the worker's letting go of the job. */
    method ConvertPass(t0: Task, tool: Tool, n: Names) returns (t: Task)
      requires Valid() && FreshNames(Now(), n) && t0.place == Encoding(CvGet)
      modifies this, store, queues, queues.download, queues.convert
      ensures Valid() && (Now(), t) == FinishPass(cfg, old(Now()), t0, tool, n)
      ensures forall j | j in old(Tasks()) :: j in Tasks() && Tasks()[j] == old(Tasks())[j]
    {
      var found, s := Hydrate(t0, tool, n);
      GateRuns(cfg, Now(), t0, s, tool, n);
      if !found {
        t := t0.(place := Ended(Dropped));
      } else if s.sourcePath == NoPath {
        MarkAsset(s.assetHash, NoPath, AssetPreparing);
        var queued := Offer(DownloadJob(n, s.id));
        t := t0.(place := Sleeping);
      } else if s.state == Downloading || s.state == Preparing || s.state == Created {
        t := t0.(place := Sleeping);
      } else {
        t := GuardAndConvert(t0.(place := Encoding(CvGuard(s))), s, tool);
      }
    }

    method HandleConvert(j: string, tool: Tool, n: Names)
      requires Valid() && FreshNames(Now(), n) && j in Tasks() && Tasks()[j].place == Encoding(CvGet)
      modifies this, store, queues, queues.download, queues.convert
      ensures Valid()
      ensures var (g', t') := FinishPass(cfg, old(Now()), old(Tasks()[j]), tool, n); Now() == At(g', j, t')
    {
      PassLetsGo(cfg, Now(), Tasks()[j], tool, n);
      var t := ConvertPass(queues.tasks[j], tool, n);
      Release(j, t);
    }

    /** The goroutine that puts a job back, when its delay is over. */
    method Requeue(j: string)
      requires Valid() && j in Tasks() && Tasks()[j].place == Sleeping
      modifies queues, queues.download, queues.convert
      ensures Valid() && Now() == At(old(Now()), j, Woken(cfg, old(Now()), old(Tasks()[j])))
      ensures var kind := old(Tasks()[j]).job.kind;
        var waiting := |set k | k in old(Tasks()) && old(Tasks())[k].place.Waiting? && old(Tasks())[k].job.kind == kind|;
        Tasks()[j] == old(Tasks()[j]).(place := if waiting < cfg.capacity then Waiting else Ended(Dropped))
    {
      var t := queues.tasks[j];
      var ok := queues.Enqueue(t.(place := Waiting));
      if !ok {
        Release(j, t.(place := Ended(Dropped)));
      }
    }

    /** One directory of the cleanup step: removes its files that were written more than `ttl` ago. */
    method Sweep(folder: set<Path>, modified: map<Path, int>, now: int, ttl: int)
      requires Valid() && folder <= files.Keys
      modifies this`files
      ensures Valid()
      ensures Now() == old(Now()).(files := old(files) - (set p | p in folder && PastLifetime(modified, p, now, ttl)))
    {
      var left := folder;
      while left != {}
        invariant Valid() && left <= folder
        invariant Now() == old(Now()).(files := files)
        invariant files == old(files) - (set p | p in folder - left && PastLifetime(modified, p, now, ttl))
        decreases left
      {
        var p :| p in left;
        if PastLifetime(modified, p, now, ttl) {
          files := files - {p};
        }
        left := left - {p};
      }
      assert folder - {} == folder;
    }

    /** The cleanup step: exactly the outputs and sources past their lifetimes are removed. */
    method Cleanup(modified: map<Path, int>, now: int, outputTtl: int, sourceTtl: int)
      requires Valid()
      modifies this`files
      ensures Valid() && Now() == old(Now()).(files := files)
      ensures files.Keys <= old(files).Keys
      ensures forall p | p in old(files) ::
        && (p !in files <==> (p in modified && now - modified[p] > (if p.Output? then outputTtl else sourceTtl) && p != NoPath))
        && (p in files ==> files[p] == old(files)[p])
    {
      Sweep((set p | p in files && p.Output?), modified, now, outputTtl);
      Sweep((set p | p in files && p.Source?), modified, now, sourceTtl);
    }
  }
}
