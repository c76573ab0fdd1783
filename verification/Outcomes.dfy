/**
  Every request and every worker pass in full: the reply and the whole new state, from the state
  before, with every condition written out.
 */
module Outcomes {
  import opened Jobs
  import opened Options
  import opened Text
  import opened ClipBounds
  import opened VariantKey
  import opened Model
  import opened ApiModel
  import opened HandlerRuns
  import opened ConvertOutcome
  import QueueRuns

  // ---------------------------------------------------------------- handlePrepare

  lemma PrepareLooks(cfg: Config, g: Shared, s: Session, n: Names)
    ensures var a := AssetOf(g.assets, s.assetHash);
      var needed := if a.path != NoPath && a.state == AssetDownloaded then !OnDisk(g.files, a.path)
                    else a.state == Unset || a.state == AssetFailed;
      var g1 := WithAsset(g, s.assetHash, NoPath, AssetPreparing);
      FinishPrepare(cfg, g, PrepLook(s), n) ==
        if needed then (Offered(cfg, g1, DownloadJob(n, s.id)), if HasRoom(cfg, g, Download) then Accepted else QueueFull)
        else (g, Accepted)
  {
    var a := AssetOf(g.assets, s.assetHash);
    var g1 := WithAsset(g, s.assetHash, NoPath, AssetPreparing);
    var g2 := WithAsset(g, s.assetHash, NoPath, AssetExpired);
    assert WithAsset(g2, s.assetHash, NoPath, AssetPreparing) == g1 by {
      assert g2.assets[s.assetHash := Asset(NoPath, AssetPreparing)] == g1.assets;
    }
    ReserveRuns(cfg, g, s, n);
    ReserveRuns(cfg, g2, s, n);
    assert HasRoom(cfg, g2, Download) == HasRoom(cfg, g, Download);
    if a.path != NoPath && a.state == AssetDownloaded {
      assert FinishPrepare(cfg, g, PrepLook(s), n) == FinishPrepare(cfg, g, PrepStat(s, a.path), n);
      if !OnDisk(g.files, a.path) {
        assert FinishPrepare(cfg, g, PrepStat(s, a.path), n) == FinishPrepare(cfg, g, PrepExpire(s), n);
        assert FinishPrepare(cfg, g, PrepExpire(s), n) == FinishPrepare(cfg, g2, PrepReserve(s), n);
      } else {
        assert FinishPrepare(cfg, g, PrepStat(s, a.path), n) == FinishPrepare(cfg, g, PrepDone(Accepted), n);
      }
    }
  }

  lemma ReserveRuns(cfg: Config, g: Shared, s: Session, n: Names)
    ensures var g1 := WithAsset(g, s.assetHash, NoPath, AssetPreparing);
      FinishPrepare(cfg, g, PrepReserve(s), n) ==
        (Offered(cfg, g1, DownloadJob(n, s.id)), if HasRoom(cfg, g, Download) then Accepted else QueueFull)
  {
    var g1 := WithAsset(g, s.assetHash, NoPath, AssetPreparing);
    assert HasRoom(cfg, g1, Download) == HasRoom(cfg, g, Download);
    var reply := if HasRoom(cfg, g, Download) then Accepted else QueueFull;
    assert FinishPrepare(cfg, g1, PrepEnqueue(s), n) == FinishPrepare(cfg, Offered(cfg, g1, DownloadJob(n, s.id)), PrepDone(reply), n);
    assert FinishPrepare(cfg, g, PrepReserve(s), n) == FinishPrepare(cfg, g1, PrepEnqueue(s), n);
  }

  /**
    A prepare request: rejected for a video that is too long or an id that is taken, else 503 when a download
    is needed and the download queue is full, else 202. The session is stored in either case, and a
    needed download leaves the asset marked, and a job of priority 10 queued if there is room.
   */
  lemma PrepareOutcome(cfg: Config, g: Shared, id: string, url: string, duration: int, n: Names)
    ensures
      var (end, reply) := FinishPrepare(cfg, g, StartPrepare(cfg, id, url, duration), n);
      var hash := cfg.hash(cfg.canon(url));
      var needed := hash !in g.assets || g.assets[hash].state == Unset || g.assets[hash].state == AssetFailed
        || (g.assets[hash].state == AssetDownloaded && g.assets[hash].path != NoPath
            && !(g.assets[hash].path in g.files && g.files[g.assets[hash].path] != Blank));
      var queued := |set j | j in g.tasks && g.tasks[j].place.Waiting? && g.tasks[j].job.kind == Download|;
      if (cfg.maxDuration > 0 && duration > cfg.maxDuration) || id in g.sessions then reply == Rejected && end == g
      else
        && reply == (if needed && queued >= cfg.capacity then QueueFull else Accepted)
        && end.sessions == g.sessions[id := Session(id, url, hash, "", Created, NoPath, NoPath, duration)]
        && end.assets == (if needed then g.assets[hash := Asset(NoPath, AssetPreparing)] else g.assets)
        && end.tasks == (if needed && queued < cfg.capacity
                         then g.tasks[n.download := Task(Job(n.download, Download, id, "", "", "", n.now, 10, 0), Waiting, 0)]
                         else g.tasks)
        && end.files == g.files && end.variants == g.variants && end.converted == g.converted && end.urls == g.urls
  {
    RegisterRuns(cfg, g, id, url, duration, n);
    var (g1, s) := Registered(cfg, g, id, url, duration);
    PrepareLooks(cfg, g1, s, n);
    assert InQueue(g.tasks, Download) == set j | j in g.tasks && g.tasks[j].place.Waiting? && g.tasks[j].job.kind == Download;
    if id !in g.sessions {
      assert g1.sessions == g.sessions[id := s];
    }
  }

  // ------------------------------------------------------- handleStatus, handleDelete

  /** A status request: 404 for an unknown id, and otherwise an answer; a completed session whose output is gone is failed. */
  lemma StatusOutcome(g: Shared, id: string)
    requires id in g.sessions ==> g.sessions[id].id == id
    ensures
      var (end, reply) := FinishStatus(g, StatusGet(id));
      if id !in g.sessions then reply == Rejected && end == g
      else
        var s := g.sessions[id];
        var lost := s.state == Completed && s.outputPath != NoPath
          && !(s.outputPath in g.files && g.files[s.outputPath] != Blank);
        reply == Answered
        && end == if lost then g.(sessions := g.sessions[id := s.(outputPath := NoPath, state := Failed)]) else g
  {
    if id in g.sessions {
      var s := g.sessions[id];
      if s.state == Completed && s.outputPath != NoPath {
        assert FinishStatus(g, StatusGet(id)) == FinishStatus(g, StatusStat(s));
        if OnDisk(g.files, s.outputPath) {
          assert FinishStatus(g, StatusStat(s)) == FinishStatus(g, StatusDone(Answered)) == (g, Answered);
        } else {
          var s' := s.(outputPath := NoPath, state := Failed);
          assert FinishStatus(g, StatusStat(s)) == FinishStatus(g, StatusFail(s'));
          assert FinishStatus(g, StatusFail(s')) == FinishStatus(WithSession(g, s'), StatusDone(Answered));
        }
      } else {
        assert FinishStatus(g, StatusGet(id)) == FinishStatus(g, StatusDone(Answered)) == (g, Answered);
      }
    } else {
      assert FinishStatus(g, StatusGet(id)) == FinishStatus(g, StatusDone(Rejected)) == (g, Rejected);
    }
  }

  lemma RemovingBoth(files: map<Path, Content>, a: Path, b: Path)
    ensures var files1 := if a != NoPath then files - {a} else files;
      (if b != NoPath then files1 - {b} else files1) == files - ({a, b} - {NoPath})
  {
  }

  /** A delete request: always answered; the session goes, and with it exactly its own output and source. */
  lemma DeleteOutcome(g: Shared, id: string)
    requires id in g.sessions ==> g.sessions[id].id == id
    ensures
      var (end, reply) := FinishDelete(g, DelGet(id));
      && reply == Answered && end == g.(sessions := g.sessions - {id}, files := end.files)
      && end.files == (if id !in g.sessions then g.files
                       else g.files - ({g.sessions[id].outputPath, g.sessions[id].sourcePath} - {NoPath}))
  {
    DeleteRequestRuns(g, id);
    if id in g.sessions {
      var s := g.sessions[id];
      DeleteRuns(g, s);
      RemovingBoth(g.files, s.outputPath, s.sourcePath);
      var g1 := g.(sessions := g.sessions - {id});
      var files1 := if s.outputPath != NoPath then g.files - {s.outputPath} else g.files;
      var files2 := if s.sourcePath != NoPath then files1 - {s.sourcePath} else files1;
      assert FinishDelete(g, DelStore(s)) == (g1.(files := files2), Answered);
    }
  }

  // ------------------------------------------------------------ handleConvertReq

  lemma RequestRuns(cfg: Config, g: Shared, id: string, ask: Ask, n: Names)
    ensures FinishConvert(cfg, g, ConvGet(id, ask), n) ==
      if id !in g.sessions || !ConvertAllowed(cfg, g.sessions[id], ask.clip) then (g, Rejected)
      else
        var s := Asked(cfg, g.sessions[id], ask.clip);
        FinishConvert(cfg, WithSession(WithHashed(g, {cfg.canon(s.url), Key(s.assetHash, ask.clip)}), s), ConvVariant(s, ask), n)
  {
    var (g1, pc1) := OutputSearch(cfg, g, ConvGet(id, ask));
    assert FinishConvert(cfg, g, ConvGet(id, ask), n) == FinishConvert(cfg, g1, pc1, n);
    if pc1.ConvHash? {
      assert FinishConvert(cfg, g1, pc1, n) == FinishConvert(cfg, WithSession(g1, pc1.s), ConvVariant(pc1.s, ask), n);
    }
  }

  /** Setting an asset twice is setting it once. */
  lemma AssetTwice(g: Shared, hash: string, state: AssetState)
    ensures WithAsset(WithAsset(g, hash, NoPath, state), hash, NoPath, AssetPreparing) == WithAsset(g, hash, NoPath, AssetPreparing)
    ensures AssetOf(WithAsset(g, hash, NoPath, state).assets, hash) == Asset(NoPath, state)
  {
    assert g.assets[hash := Asset(NoPath, state)][hash := Asset(NoPath, AssetPreparing)] == g.assets[hash := Asset(NoPath, AssetPreparing)];
  }

  /** The asset offers no source, and no download of it has been asked for. */
  predicate Absent(g: Shared, hash: string) {
    var a := AssetOf(g.assets, hash);
    if a.path != NoPath && a.state == AssetDownloaded then !OnDisk(g.files, a.path)
    else a.state == Unset || a.state == AssetFailed || a.state == AssetExpired
  }

  /** Asking for a download, and going on if it is queued. */
  lemma DownloadRuns(cfg: Config, g: Shared, s: Session, ask: Ask, n: Names)
    requires AssetOf(g.assets, s.assetHash).state in {Unset, AssetFailed, AssetExpired}
    ensures var g1 := WithAsset(g, s.assetHash, NoPath, AssetPreparing);
      FinishSource(cfg, g, ConvCheck(s, ask), n) ==
        if HasRoom(cfg, g, Download) then FinishSource(cfg, Offered(cfg, g1, DownloadJob(n, s.id)), ConvEnqueue(s, ask, false), n)
        else (g1, QueueFull)
  {
    var g1 := WithAsset(g, s.assetHash, NoPath, AssetPreparing);
    assert HasRoom(cfg, g1, Download) == HasRoom(cfg, g, Download);
    CheckRuns(cfg, g, s, ask, n);
  }

  /** The source search on the shared asset. */
  lemma SharedRuns(cfg: Config, g: Shared, s: Session, ask: Ask, n: Names)
    ensures var a := AssetOf(g.assets, s.assetHash);
      var g1 := WithAsset(g, s.assetHash, NoPath, AssetPreparing);
      FinishSource(cfg, g, ConvLook(s, ask), n) ==
        if !Absent(g, s.assetHash) && a.path != NoPath && a.state == AssetDownloaded then
          FinishSource(cfg, g, ConvEnqueue(s.(sourcePath := a.path), ask, true), n)
        else if !Absent(g, s.assetHash) then FinishSource(cfg, g, ConvEnqueue(s, ask, false), n)
        else if HasRoom(cfg, g, Download) then
          FinishSource(cfg, Offered(cfg, g1, DownloadJob(n, s.id)), ConvEnqueue(s, ask, false), n)
        else (g1, QueueFull)
  {
    LookRuns(cfg, g, s, ask, n);
    var (g', s', ready) := AfterLook(g, s);
    if !ready {
      AssetTwice(g, s.assetHash, AssetExpired);
      assert HasRoom(cfg, g', Download) == HasRoom(cfg, g, Download);
      if Absent(g, s.assetHash) {
        DownloadRuns(cfg, g', s, ask, n);
      } else {
        CheckRuns(cfg, g', s, ask, n);
      }
    }
  }

  /** The source search from its beginning: whether a download is needed, and the source that is at hand. */
  lemma SourceRuns(cfg: Config, g: Shared, s: Session, ask: Ask, n: Names)
    ensures var a := AssetOf(g.assets, s.assetHash);
      var own := s.sourcePath != NoPath && OnDisk(g.files, s.sourcePath);
      var needed := if s.sourcePath == NoPath then Absent(g, s.assetHash) else !own;
      var source := if own then s.sourcePath
                    else if !needed && a.path != NoPath && a.state == AssetDownloaded then a.path else NoPath;
      var s1 := s.(sourcePath := source);
      var g1 := WithAsset(g, s.assetHash, NoPath, AssetPreparing);
      FinishSource(cfg, g, ConvSource(s, ask), n) ==
        if !needed then FinishSource(cfg, g, ConvEnqueue(s1, ask, source != NoPath), n)
        else if HasRoom(cfg, g, Download) then
          FinishSource(cfg, Offered(cfg, g1, DownloadJob(n, s.id)), ConvEnqueue(s1, ask, false), n)
        else (g1, QueueFull)
  {
    if s.sourcePath == NoPath {
      assert s.(sourcePath := NoPath) == s;
      assert FinishSource(cfg, g, ConvSource(s, ask), n) == FinishSource(cfg, g, ConvLook(s, ask), n);
      SharedRuns(cfg, g, s, ask, n);
    } else if OnDisk(g.files, s.sourcePath) {
      assert s.(sourcePath := s.sourcePath) == s;
      assert FinishSource(cfg, g, ConvSource(s, ask), n) == FinishSource(cfg, g, ConvEnqueue(s, ask, true), n);
    } else {
      var s1 := s.(sourcePath := NoPath);
      var g1 := WithAsset(g, s.assetHash, NoPath, AssetExpired);
      AssetTwice(g, s.assetHash, AssetExpired);
      assert HasRoom(cfg, g1, Download) == HasRoom(cfg, g, Download);
      assert FinishSource(cfg, g, ConvSource(s, ask), n) == FinishSource(cfg, g, ConvExpireOwn(s, ask), n);
      assert FinishSource(cfg, g, ConvExpireOwn(s, ask), n) == FinishSource(cfg, g1, ConvLook(s1, ask), n);
      SharedRuns(cfg, g1, s1, ask, n);
    }
  }

  /** Queueing a download leaves the room in the other queue as it was. */
  lemma OtherQueue(cfg: Config, g: Shared, n: Names, id: string)
    requires n.download !in g.tasks
    ensures HasRoom(cfg, Offered(cfg, g, DownloadJob(n, id)), Convert) == HasRoom(cfg, g, Convert)
  {
    assert InQueue(Offered(cfg, g, DownloadJob(n, id)).tasks, Convert) == InQueue(g.tasks, Convert);
  }

  /** The source search in full. */
  lemma SourceOutcome(cfg: Config, g: Shared, s: Session, ask: Ask, n: Names)
    requires n.download !in g.tasks
    ensures var a := AssetOf(g.assets, s.assetHash);
      var own := s.sourcePath != NoPath && OnDisk(g.files, s.sourcePath);
      var needed := if s.sourcePath == NoPath then Absent(g, s.assetHash) else !own;
      var source := if own then s.sourcePath
                    else if !needed && a.path != NoPath && a.state == AssetDownloaded then a.path else NoPath;
      var s1 := s.(sourcePath := source, state := if source != NoPath then Converting else SessionState.Queued);
      var g1 := if needed then Offered(cfg, WithAsset(g, s.assetHash, NoPath, AssetPreparing), DownloadJob(n, s.id)) else g;
      FinishSource(cfg, g, ConvSource(s, ask), n) ==
        if HasRoom(cfg, g, Convert) && (needed ==> HasRoom(cfg, g, Download))
        then (WithSession(Offered(cfg, g1, ConvertJob(n, s.id, ask)), s1), Accepted)
        else (g1, QueueFull)
  {
    SourceRuns(cfg, g, s, ask, n);
    var a := AssetOf(g.assets, s.assetHash);
    var own := s.sourcePath != NoPath && OnDisk(g.files, s.sourcePath);
    var needed := if s.sourcePath == NoPath then Absent(g, s.assetHash) else !own;
    var source := if own then s.sourcePath
                  else if !needed && a.path != NoPath && a.state == AssetDownloaded then a.path else NoPath;
    var g0 := WithAsset(g, s.assetHash, NoPath, AssetPreparing);
    var g1 := Offered(cfg, g0, DownloadJob(n, s.id));
    assert HasRoom(cfg, g0, Download) == HasRoom(cfg, g, Download) && HasRoom(cfg, g0, Convert) == HasRoom(cfg, g, Convert);
    OtherQueue(cfg, g0, n, s.id);
    EnqueueRuns(cfg, if needed then g1 else g, s.(sourcePath := source), ask, source != NoPath, n);
  }

  /**
    Which convert requests are rejected, as long as neither bound is longer than an int64 of seconds: those for an
    unknown session or a video that is too long, and those whose bounds are unreadable or no clip of the video.
   */
  lemma RejectionOutcome(cfg: Config, g: Shared, id: string, ask: Ask, n: Names)
    requires NoOverflow(ask.clip.start, ask.clip.end)
    requires id in g.sessions ==> g.sessions[id].duration <= MAX_INT64
    ensures (FinishConvert(cfg, g, ConvGet(id, ask), n).1 == Rejected <==>
      || id !in g.sessions
      || (cfg.maxDuration > 0 && g.sessions[id].duration > cfg.maxDuration)
      || Seconds(ask.clip.start).None? || Seconds(ask.clip.end).None?
      || (var ss, ee, total := Seconds(ask.clip.start).value, Seconds(ask.clip.end).value, g.sessions[id].duration;
          (ee > 0 && ss >= ee) || (total > 0 && (ss >= total || ee > total))))
    ensures FinishConvert(cfg, g, ConvGet(id, ask), n).1 == Rejected ==> FinishConvert(cfg, g, ConvGet(id, ask), n).0 == g
  {
    RequestRuns(cfg, g, id, ask, n);
    if id in g.sessions {
      var d := g.sessions[id].duration;
      AcceptanceInNumbers(ask.clip.start, ask.clip.end, 0, if d < 0 then 0 else d);
      if ConvertAllowed(cfg, g.sessions[id], ask.clip) {
        AllowedIsNotRejected(cfg, g, id, ask, n);
      }
    }
  }

  lemma AllowedIsNotRejected(cfg: Config, g: Shared, id: string, ask: Ask, n: Names)
    requires id in g.sessions && ConvertAllowed(cfg, g.sessions[id], ask.clip)
    ensures FinishConvert(cfg, g, ConvGet(id, ask), n).1 != Rejected
  {
    RequestRuns(cfg, g, id, ask, n);
    var s := Asked(cfg, g.sessions[id], ask.clip);
    var g1 := WithSession(WithHashed(g, {cfg.canon(s.url), Key(s.assetHash, ask.clip)}), s);
    SearchRuns(cfg, g1, s, ask, n);
    var (g2, s2, reused) := AfterSearch(g1, s);
    if !reused {
      SourceAnswers(cfg, g2, ConvSource(s2, ask), n);
    }
  }

  /** The search for an output, with the request's hashes stored. */
  lemma SearchOutcome(cfg: Config, g: Shared, id: string, ask: Ask, n: Names)
    requires id in g.sessions && g.sessions[id].id == id && ConvertAllowed(cfg, g.sessions[id], ask.clip)
    ensures var s := Asked(cfg, g.sessions[id], ask.clip);
      var out := VariantOf(g.variants, s.variantHash);
      var hashed := g.hashed + {cfg.canon(s.url), Key(s.assetHash, ask.clip)};
      var done, bare := s.(outputPath := out, state := Completed), s.(outputPath := NoPath);
      FinishConvert(cfg, g, ConvGet(id, ask), n) ==
        if out == NoPath then
          FinishSource(cfg, g.(hashed := hashed, sessions := g.sessions[id := s]), ConvSource(s, ask), n)
        else if OnDisk(g.files, out) then (g.(hashed := hashed, sessions := g.sessions[id := done]), Reused)
        else
          FinishSource(cfg, g.(hashed := hashed, sessions := g.sessions[id := bare],
                               variants := g.variants[s.variantHash := NoPath]), ConvSource(bare, ask), n)
  {
    RequestRuns(cfg, g, id, ask, n);
    var s := Asked(cfg, g.sessions[id], ask.clip);
    var g1 := WithSession(WithHashed(g, {cfg.canon(s.url), Key(s.assetHash, ask.clip)}), s);
    SearchRuns(cfg, g1, s, ask, n);
    var out := VariantOf(g.variants, s.variantHash);
    var done, bare := s.(outputPath := out, state := Completed), s.(outputPath := NoPath);
    assert g1.sessions == g.sessions[id := s];
    assert g.sessions[id := s][id := done] == g.sessions[id := done];
    assert g.sessions[id := s][id := bare] == g.sessions[id := bare];
  }

  /** A request that is answered from the cache. */
  lemma ReuseOutcome(cfg: Config, g: Shared, id: string, ask: Ask, n: Names)
    requires id in g.sessions ==> g.sessions[id].id == id
    requires FinishConvert(cfg, g, ConvGet(id, ask), n).1 != Rejected
    ensures id in g.sessions
    ensures var (end, reply) := FinishConvert(cfg, g, ConvGet(id, ask), n);
      var s, c := g.sessions[id], ask.clip;
      var hash := cfg.hash(cfg.canon(s.url));
      var v := cfg.hash(hash + "|" + c.quality + "|" + c.start + "|" + c.end);
      && (reply == Reused <==>
            v in g.variants && g.variants[v] != NoPath && g.variants[v] in g.files && g.files[g.variants[v]] != Blank)
      && (reply == Reused ==> end == g.(hashed := end.hashed, sessions := g.sessions[id :=
            s.(assetHash := hash, variantHash := v, outputPath := g.variants[v], state := Completed)]))
  {
    RequestRuns(cfg, g, id, ask, n);
    SearchOutcome(cfg, g, id, ask, n);
    var s := Asked(cfg, g.sessions[id], ask.clip);
    var bare := s.(outputPath := NoPath);
    var hashed := g.hashed + {cfg.canon(s.url), Key(s.assetHash, ask.clip)};
    SourceAnswers(cfg, g.(hashed := hashed, sessions := g.sessions[id := s]), ConvSource(s, ask), n);
    SourceAnswers(cfg, g.(hashed := hashed, sessions := g.sessions[id := bare], variants := g.variants[s.variantHash := NoPath]),
                  ConvSource(bare, ask), n);
  }

  /**
    Two waiting requests, as a convert request queues them: the one with the higher priority is served first, and of
    two with the same priority the one that came first, whatever else arrives meanwhile.
   */
  lemma EarlierRequestFirst(capacity: int, queue: multiset<Job>, run: seq<Event>, n: Names, m: Names,
                            id: string, id': string, ask: Ask, ask': Ask)
    requires ask.priority > ask'.priority || (ask.priority == ask'.priority && n.now < m.now)
    requires var first := Job(n.convert, Convert, id, ask.clip.quality, ask.clip.start, ask.clip.end, n.now, ask.priority, 0);
      QueueRuns.IsRun(capacity, queue, run) && first in queue && Dequeued(first) !in run
    ensures var second := Job(m.convert, Convert, id', ask'.clip.quality, ask'.clip.start, ask'.clip.end, m.now, ask'.priority, 0);
      second !in QueueRuns.Served(run)
  {
    var first := Job(n.convert, Convert, id, ask.clip.quality, ask.clip.start, ask.clip.end, n.now, ask.priority, 0);
    QueueRuns.ServedInOrder(capacity, queue, run, first);
  }

  // What the last result is stated in; none of these is used by the handlers.

  predicate There(files: map<Path, Content>, p: Path) {
    p in files && files[p] != Blank
  }

  /** A free place in the queue of a kind. */
  predicate FreePlace(cfg: Config, g: Shared, kind: JobType) {
    |set j | j in g.tasks && g.tasks[j].place.Waiting? && g.tasks[j].job.kind == kind| < cfg.capacity
  }

  function Entry(g: Shared, hash: string): Asset {
    if hash in g.assets then g.assets[hash] else Asset(NoPath, Unset)
  }

  /** The shared asset claims to have a source. */
  predicate Offers(a: Asset) {
    a.state == AssetDownloaded && a.path != NoPath
  }

  predicate Needed(g: Shared, s: Session, hash: string) {
    var a := Entry(g, hash);
    if s.sourcePath != NoPath then !There(g.files, s.sourcePath)
    else if Offers(a) then !There(g.files, a.path)
    else a.state == Unset || a.state == AssetFailed || a.state == AssetExpired
  }

  /** The same for a prepare request, which leaves an expired asset alone. */
  predicate NeededAtFirst(g: Shared, hash: string) {
    var a := Entry(g, hash);
    if Offers(a) then !There(g.files, a.path) else a.state == Unset || a.state == AssetFailed
  }

  /** The reply that a prepare request gets, from the state before it. */
  function PrepareReply(cfg: Config, g: Shared, id: string, url: string, duration: int): Reply {
    if cfg.maxDuration > 0 && duration > cfg.maxDuration then Rejected
    else if id in g.sessions then Rejected
    else if NeededAtFirst(g, cfg.hash(cfg.canon(url))) && !FreePlace(cfg, g, Download) then QueueFull
    else Accepted
  }

  lemma PrepareReplies(cfg: Config, g: Shared, id: string, url: string, duration: int, n: Names)
    ensures FinishPrepare(cfg, g, StartPrepare(cfg, id, url, duration), n).1 == PrepareReply(cfg, g, id, url, duration)
  {
    PrepareOutcome(cfg, g, id, url, duration, n);
  }

  /** Which convert requests are rejected when neither bound is longer than an int64 of seconds. */
  predicate Unacceptable(cfg: Config, g: Shared, id: string, c: Clip) {
    || id !in g.sessions
    || (cfg.maxDuration > 0 && g.sessions[id].duration > cfg.maxDuration)
    || Seconds(c.start).None? || Seconds(c.end).None?
    || (var ss, ee, total := Seconds(c.start).value, Seconds(c.end).value, g.sessions[id].duration;
        (ee > 0 && ss >= ee) || (total > 0 && (ss >= total || ee > total)))
  }

  /** The source at hand, if any. */
  function AtHand(g: Shared, s: Session, hash: string): Path {
    if Needed(g, s, hash) then NoPath
    else if s.sourcePath != NoPath then s.sourcePath
    else if Offers(Entry(g, hash)) then Entry(g, hash).path
    else NoPath
  }

  function NewTask(job: Job): Task {
    Task(job, Waiting, 0)
  }

  /** The session with the request's hashes, and without an output that has been lost. */
  function Hashed(cfg: Config, g: Shared, s: Session, c: Clip): Session {
    var hash := cfg.hash(cfg.canon(s.url));
    var v := cfg.hash(hash + "|" + c.quality + "|" + c.start + "|" + c.end);
    s.(assetHash := hash, variantHash := v,
       outputPath := if v in g.variants && g.variants[v] != NoPath then NoPath else s.outputPath)
  }

  lemma SpecIsModel(cfg: Config, g: Shared, s: Session, hash: string)
    ensures FreePlace(cfg, g, Download) == HasRoom(cfg, g, Download) && FreePlace(cfg, g, Convert) == HasRoom(cfg, g, Convert)
    ensures Needed(g, s, hash) == if s.sourcePath == NoPath then Absent(g, hash) else !OnDisk(g.files, s.sourcePath)
  {
    assert InQueue(g.tasks, Download) == set j | j in g.tasks && g.tasks[j].place.Waiting? && g.tasks[j].job.kind == Download;
    assert InQueue(g.tasks, Convert) == set j | j in g.tasks && g.tasks[j].place.Waiting? && g.tasks[j].job.kind == Convert;
  }

  /** The rest of a request on a state whose session carries the request's hashes. */
  lemma SourceInFull(cfg: Config, g: Shared, id: string, s: Session, ask: Ask, n: Names)
    requires n.download !in g.tasks && id in g.sessions && s.id == id
    ensures var (end, reply) := FinishSource(cfg, g, ConvSource(s, ask), n);
      var needed, source := Needed(g, s, s.assetHash), AtHand(g, s, s.assetHash);
      var dl := Job(n.download, Download, id, "", "", "", n.now, 10, 0);
      var cv := Job(n.convert, Convert, id, ask.clip.quality, ask.clip.start, ask.clip.end, n.now, ask.priority, 0);
      var accepted := FreePlace(cfg, g, Convert) && (needed ==> FreePlace(cfg, g, Download));
      var tasks := if needed && FreePlace(cfg, g, Download) then g.tasks[n.download := NewTask(dl)] else g.tasks;
      && reply == (if accepted then Accepted else QueueFull)
      && end == g.(
           sessions := if accepted then g.sessions[id :=
                         s.(sourcePath := source, state := if source != NoPath then Converting else SessionState.Queued)]
                       else g.sessions,
           assets := if needed then g.assets[s.assetHash := Asset(NoPath, AssetPreparing)] else g.assets,
           tasks := if accepted then tasks[n.convert := NewTask(cv)] else tasks)
  {
    SourceOutcome(cfg, g, s, ask, n);
    SpecIsModel(cfg, g, s, s.assetHash);
    var g0 := WithAsset(g, s.assetHash, NoPath, AssetPreparing);
    assert HasRoom(cfg, g0, Download) == HasRoom(cfg, g, Download) && HasRoom(cfg, g0, Convert) == HasRoom(cfg, g, Convert);
    OtherQueue(cfg, g0, n, s.id);
  }

  /**
    Any other request: 202 when the convert queue has a free place and so has the download queue if it is needed,
    and 503 otherwise; and what is stored, marked and queued in each case.
   */
  lemma ConversionOutcome(cfg: Config, g: Shared, id: string, ask: Ask, n: Names)
    requires n.download !in g.tasks && id in g.sessions && g.sessions[id].id == id
    requires ConvertAllowed(cfg, g.sessions[id], ask.clip)
    requires var v := Hashed(cfg, g, g.sessions[id], ask.clip).variantHash;
      !(v in g.variants && g.variants[v] != NoPath && There(g.files, g.variants[v]))
    ensures var (end, reply) := FinishConvert(cfg, g, ConvGet(id, ask), n);
      var s := Hashed(cfg, g, g.sessions[id], ask.clip);
      var needed, source := Needed(g, s, s.assetHash), AtHand(g, s, s.assetHash);
      var dl := Job(n.download, Download, id, "", "", "", n.now, 10, 0);
      var cv := Job(n.convert, Convert, id, ask.clip.quality, ask.clip.start, ask.clip.end, n.now, ask.priority, 0);
      var accepted := FreePlace(cfg, g, Convert) && (needed ==> FreePlace(cfg, g, Download));
      var tasks := if needed && FreePlace(cfg, g, Download) then g.tasks[n.download := NewTask(dl)] else g.tasks;
      && reply == (if accepted then Accepted else QueueFull)
      && end == g.(
           hashed := end.hashed,
           sessions := g.sessions[id := if accepted then
                         s.(sourcePath := source, state := if source != NoPath then Converting else SessionState.Queued) else s],
           assets := if needed then g.assets[s.assetHash := Asset(NoPath, AssetPreparing)] else g.assets,
           variants := if s.variantHash in g.variants && g.variants[s.variantHash] != NoPath
                       then g.variants[s.variantHash := NoPath] else g.variants,
           tasks := if accepted then tasks[n.convert := NewTask(cv)] else tasks)
  {
    var s := Hashed(cfg, g, g.sessions[id], ask.clip);
    var g1 := Searched(cfg, g, id, ask);
    SearchInFull(cfg, g, id, ask, n);
    SourceInFull(cfg, g1, id, s, ask, n);
    PlacesSame(cfg, g, g1);
    var s1 := s.(sourcePath := AtHand(g, s, s.assetHash),
                 state := if AtHand(g, s, s.assetHash) != NoPath then Converting else SessionState.Queued);
    assert g1.sessions[id := s1] == g.sessions[id := s1];
  }

  /** The state in which the search for a source begins. */
  function Searched(cfg: Config, g: Shared, id: string, ask: Ask): Shared
    requires id in g.sessions
  {
    var s := Hashed(cfg, g, g.sessions[id], ask.clip);
    g.(hashed := g.hashed + {cfg.canon(s.url), Key(s.assetHash, ask.clip)}, sessions := g.sessions[id := s],
       variants := if s.variantHash in g.variants && g.variants[s.variantHash] != NoPath
                   then g.variants[s.variantHash := NoPath] else g.variants)
  }

  lemma SearchInFull(cfg: Config, g: Shared, id: string, ask: Ask, n: Names)
    requires id in g.sessions && g.sessions[id].id == id && ConvertAllowed(cfg, g.sessions[id], ask.clip)
    requires var v := Hashed(cfg, g, g.sessions[id], ask.clip).variantHash;
      !(v in g.variants && g.variants[v] != NoPath && There(g.files, g.variants[v]))
    ensures FinishConvert(cfg, g, ConvGet(id, ask), n) ==
      FinishSource(cfg, Searched(cfg, g, id, ask), ConvSource(Hashed(cfg, g, g.sessions[id], ask.clip), ask), n)
  {
    SearchOutcome(cfg, g, id, ask, n);
    var asked := Asked(cfg, g.sessions[id], ask.clip);
    assert Hashed(cfg, g, g.sessions[id], ask.clip) ==
      if VariantOf(g.variants, asked.variantHash) == NoPath then asked else asked.(outputPath := NoPath);
  }

  lemma PlacesSame(cfg: Config, g: Shared, g1: Shared)
    requires g1.tasks == g.tasks
    ensures FreePlace(cfg, g1, Download) == FreePlace(cfg, g, Download) && FreePlace(cfg, g1, Convert) == FreePlace(cfg, g, Convert)
  {
  }

  // ---------------------------------------------------------------- handleDownload

  /** The session with its asset hash. */
  function WithHash(cfg: Config, s: Session): Session {
    if s.assetHash == "" then s.(assetHash := cfg.hash(cfg.canon(s.url))) else s
  }

  lemma FetchBegins(cfg: Config, g: Shared, t: Task, tool: Tool) returns (hashed: set<string>)
    requires t.place == Fetching(DlGet) && t.job.sessionId in g.sessions
    requires g.sessions[t.job.sessionId].id == t.job.sessionId
    ensures var s := g.sessions[t.job.sessionId].(state := Downloading);
      FinishFetch(cfg, g, t, tool) ==
        FinishFetch(cfg, g.(hashed := hashed, sessions := g.sessions[s.id := s]), t.(place := Fetching(DlTool(WithHash(cfg, s)))), tool)
  {
    var s := g.sessions[t.job.sessionId].(state := Downloading);
    var t1 := t.(place := Fetching(DlMark(s)));
    var (g2, t2) := DownloadStep(cfg, g, t1, DlMark(s), tool);
    assert FinishFetch(cfg, g, t, tool) == FinishFetch(cfg, g, t1, tool);
    assert FinishFetch(cfg, g, t1, tool) == FinishFetch(cfg, g2, t2, tool);
    hashed := g2.hashed;
    assert g2 == g.(hashed := hashed, sessions := g.sessions[s.id := s]);
  }

  /**
    A download pass: dropped without its session; otherwise a success stores the source for session and asset,
    a failure sends the job back to sleep while attempts are left, and the last one marks both as failed.
   */
  lemma DownloadOutcome(cfg: Config, g: Shared, t: Task, tool: Tool)
    requires t.place == Fetching(DlGet)
    requires t.job.sessionId in g.sessions ==> g.sessions[t.job.sessionId].id == t.job.sessionId
    ensures
      var (end, t') := FinishFetch(cfg, g, t, tool);
      var id, attempts := t.job.sessionId, t.job.attempts + 1;
      if id !in g.sessions then end == g && t' == t.(place := Ended(Dropped))
      else
        var s := WithHash(cfg, g.sessions[id]);
        var out := Source(s.assetHash);
        if tool.Installs? then
          end == g.(hashed := end.hashed,
                    files := g.files[out := if tool.nonEmpty then Audio(cfg.canon(s.url)) else Blank],
                    sessions := g.sessions[id := s.(sourcePath := out, state := Downloaded)],
                    assets := g.assets[s.assetHash := Asset(out, AssetDownloaded)])
          && t' == t.(place := Ended(Served), calls := t.calls + 1)
        else if attempts < cfg.maxRetries then
          end == g.(hashed := end.hashed, sessions := g.sessions[id := g.sessions[id].(state := Downloading)])
          && t' == Task(t.job.(attempts := attempts), Sleeping, t.calls + 1)
        else
          end == g.(hashed := end.hashed, sessions := g.sessions[id := s.(state := Failed)],
                    assets := g.assets[s.assetHash := Asset(NoPath, AssetFailed)])
          && t' == Task(t.job.(attempts := attempts), Ended(GaveUp), t.calls + 1)
  {
    if t.job.sessionId !in g.sessions {
      assert FinishFetch(cfg, g, t, tool) == FinishFetch(cfg, g, t.(place := Ended(Dropped)), tool);
    } else {
      var hashed := FetchBegins(cfg, g, t, tool);
      var m := g.sessions[t.job.sessionId].(state := Downloading);
      var g1 := g.(hashed := hashed, sessions := g.sessions[m.id := m]);
      FetchEnds(cfg, g1, t.(place := Fetching(DlTool(WithHash(cfg, m)))), WithHash(cfg, m), tool);
      var s := WithHash(cfg, m);
      StoreTwice(g.sessions, m, s.(sourcePath := Source(s.assetHash), state := Downloaded));
      StoreTwice(g.sessions, m, s.(state := Failed));
    }
  }

  /** The second of two stored copies stays. */
  lemma StoreTwice(sessions: Sessions, s: Session, s': Session)
    requires s.id == s'.id
    ensures sessions[s.id := s][s.id := s'] == sessions[s.id := s']
  {
  }

  /** From the tool run on. */
  lemma FetchEnds(cfg: Config, g: Shared, t: Task, s: Session, tool: Tool)
    requires t.place == Fetching(DlTool(s)) && s.id in g.sessions
    ensures
      var (end, t') := FinishFetch(cfg, g, t, tool);
      var out, attempts := Source(s.assetHash), t.job.attempts + 1;
      if tool.Installs? then
        end == g.(files := g.files[out := if tool.nonEmpty then Audio(cfg.canon(s.url)) else Blank],
                  sessions := g.sessions[s.id := s.(sourcePath := out, state := Downloaded)],
                  assets := g.assets[s.assetHash := Asset(out, AssetDownloaded)])
        && t' == t.(place := Ended(Served), calls := t.calls + 1)
      else if attempts < cfg.maxRetries then end == g && t' == Task(t.job.(attempts := attempts), Sleeping, t.calls + 1)
      else
        end == g.(sessions := g.sessions[s.id := s.(state := Failed)], assets := g.assets[s.assetHash := Asset(NoPath, AssetFailed)])
        && t' == Task(t.job.(attempts := attempts), Ended(GaveUp), t.calls + 1)
  {
    match tool
    case Installs(nonEmpty) => InstallRuns(cfg, g, t, s, nonEmpty);
    case ToolFails => FailedFetchRuns(cfg, g, t, s);
  }

  // ----------------------------------------------------------------- handleConvert

  /** A pass that reaches the converter with session `s`. */
  lemma ConverterOutcome(cfg: Config, g: Shared, t: Task, s: Session, tool: Tool)
    requires t.place == Encoding(CvGuard(s)) && There(g.files, s.sourcePath) && s.id in g.sessions
    ensures
      var (end, t') := FinishEncode(cfg, g, t, tool);
      var attempts, c := t.job.attempts + 1, Clip(t.job.quality, t.job.startTime, t.job.endTime);
      var v := if s.variantHash != "" then s.variantHash
               else cfg.hash(s.assetHash + "|" + c.quality + "|" + c.start + "|" + c.end);
      if tool.Installs? then
        end == g.(hashed := end.hashed, converted := g.converted + {v},
                  files := g.files[Output(v) := if tool.nonEmpty then Mp3(g.files[s.sourcePath], c) else Blank],
                  sessions := g.sessions[s.id := s.(variantHash := v, outputPath := Output(v), state := Completed)],
                  variants := g.variants[v := Output(v)])
        && t' == t.(place := Ended(Served), calls := t.calls + 1)
      else if attempts < cfg.maxRetries then
        end == g.(hashed := end.hashed, sessions := g.sessions[s.id := s.(state := Converting)])
        && t' == Task(t.job.(attempts := attempts), Sleeping, t.calls + 1)
      else
        end == g.(hashed := end.hashed, sessions := g.sessions[s.id := s.(variantHash := v, state := Failed)])
        && t' == Task(t.job.(attempts := attempts), Ended(GaveUp), t.calls + 1)
  {
    StartRuns(cfg, g, t, tool, s);
    var key := Key(s.assetHash, ClipOf(t.job));
    var s1 := s.(state := Converting);
    var s2 := if s.variantHash != "" then s1 else s1.(variantHash := cfg.hash(key));
    var g1 := WithSession(g, s1);
    var g2 := if s.variantHash != "" then g1 else WithHashed(g1, {key});
    ToolEnds(cfg, g2, t.(place := Encoding(CvTool(s2))), s2, tool);
    StoreTwice(g.sessions, s1, s2.(outputPath := Output(s2.variantHash), state := Completed));
    StoreTwice(g.sessions, s1, s2.(state := Failed));
  }

  lemma ToolEnds(cfg: Config, g: Shared, t: Task, s: Session, tool: Tool)
    requires t.place == Encoding(CvTool(s)) && There(g.files, s.sourcePath) && s.id in g.sessions
    ensures
      var (end, t') := FinishEncode(cfg, g, t, tool);
      var attempts, out := t.job.attempts + 1, Output(s.variantHash);
      if tool.Installs? then
        end == g.(converted := g.converted + {s.variantHash},
                  files := g.files[out := if tool.nonEmpty then
                             Mp3(g.files[s.sourcePath], Clip(t.job.quality, t.job.startTime, t.job.endTime)) else Blank],
                  sessions := g.sessions[s.id := s.(outputPath := out, state := Completed)],
                  variants := g.variants[s.variantHash := out])
        && t' == t.(place := Ended(Served), calls := t.calls + 1)
      else if attempts < cfg.maxRetries then end == g && t' == Task(t.job.(attempts := attempts), Sleeping, t.calls + 1)
      else
        end == g.(sessions := g.sessions[s.id := s.(state := Failed)])
        && t' == Task(t.job.(attempts := attempts), Ended(GaveUp), t.calls + 1)
  {
    match tool
    case Installs(nonEmpty) => ConversionRuns(cfg, g, t, s, nonEmpty);
    case ToolFails =>
      var s1 := s.(state := Failed);
      var t1 := AfterFailure(cfg, t, Encoding(CvFail(s1)));
      assert FinishEncode(cfg, g, t, ToolFails) == FinishEncode(cfg, g, t1, ToolFails);
      if t1.place != Sleeping {
        assert FinishEncode(cfg, g, t1, ToolFails) == FinishEncode(cfg, WithSession(g, s1), t1.(place := Ended(GaveUp)), ToolFails);
      }
  }

  /** A pass before the converter: what it does with its session, and whether it goes on. */
  lemma PassBegins(cfg: Config, g: Shared, t: Task, tool: Tool, n: Names) returns (hashed: set<string>)
    requires t.place == Encoding(CvGet) && t.job.sessionId in g.sessions
    ensures var s := WithHash(cfg, g.sessions[t.job.sessionId]);
      FinishPass(cfg, g, t, tool, n) ==
        FinishPass(cfg, g.(hashed := hashed), t.(place := if s.sourcePath == NoPath then Encoding(CvLook(s)) else Gate(s)), tool, n)
  {
    var (g1, t1) := SeekStep(cfg, g, t, CvGet, n);
    hashed := g1.hashed;
    assert g1 == g.(hashed := hashed);
    assert FinishPass(cfg, g, t, tool, n) == FinishPass(cfg, g1, t1, tool, n);
  }

  /** A conversion pass without its session: the job is dropped. */
  lemma PassWithoutSession(cfg: Config, g: Shared, t: Task, tool: Tool, n: Names)
    requires t.place == Encoding(CvGet) && t.job.sessionId !in g.sessions
    ensures FinishPass(cfg, g, t, tool, n) == (g, t.(place := Ended(Dropped)))
  {
    assert FinishPass(cfg, g, t, tool, n) == FinishPass(cfg, g, t.(place := Ended(Dropped)), tool, n);
  }

  /**
    A pass for a session without a source: with a shared one at hand it takes that over and goes on to the
    converter; otherwise it marks the asset, asks for a download and sleeps.
   */
  lemma PassWithoutSource(cfg: Config, g: Shared, t: Task, tool: Tool, n: Names) returns (hashed: set<string>)
    requires t.place == Encoding(CvGet) && t.job.sessionId in g.sessions
    requires g.sessions[t.job.sessionId].id == t.job.sessionId && g.sessions[t.job.sessionId].sourcePath == NoPath
    ensures
      var id := t.job.sessionId;
      var s := WithHash(cfg, g.sessions[id]);
      var a := Entry(g, s.assetHash);
      var dl := Job(n.download, Download, id, "", "", "", n.now, 10, 0);
      var s1 := s.(sourcePath := a.path, state := Downloaded);
      FinishPass(cfg, g, t, tool, n) ==
        if Offers(a) && There(g.files, a.path) then
          FinishEncode(cfg, g.(hashed := hashed, sessions := g.sessions[id := s1]), t.(place := Encoding(CvGuard(s1))), tool)
        else
          (g.(hashed := hashed, assets := g.assets[s.assetHash := Asset(NoPath, AssetPreparing)],
              tasks := if FreePlace(cfg, g, Download) then g.tasks[n.download := NewTask(dl)] else g.tasks),
           t.(place := Sleeping))
  {
    var s := WithHash(cfg, g.sessions[t.job.sessionId]);
    hashed := PassBegins(cfg, g, t, tool, n);
    var g1 := g.(hashed := hashed);
    var (g2, s2) := Adopted(g1, s);
    AdoptRuns(cfg, g1, t, s, tool, n);
    GateRuns(cfg, g2, t, s2, tool, n);
    AssetTwice(g1, s.assetHash, AssetExpired);
    SpecIsModel(cfg, g, s, s.assetHash);
    assert HasRoom(cfg, WithAsset(g1, s.assetHash, NoPath, AssetPreparing), Download) == HasRoom(cfg, g, Download);
  }

  /**
    A pass for a session with a source: while that is still being fetched it sleeps; if it is gone it is
    forgotten; and otherwise the pass goes on to the converter.
   */
  lemma PassWithSource(cfg: Config, g: Shared, t: Task, tool: Tool, n: Names) returns (hashed: set<string>)
    requires t.place == Encoding(CvGet) && t.job.sessionId in g.sessions
    requires g.sessions[t.job.sessionId].id == t.job.sessionId && g.sessions[t.job.sessionId].sourcePath != NoPath
    ensures
      var id := t.job.sessionId;
      var s := WithHash(cfg, g.sessions[id]);
      FinishPass(cfg, g, t, tool, n) ==
        if s.state == Downloading || s.state == Preparing || s.state == Created then
          (g.(hashed := hashed), t.(place := Sleeping))
        else if !There(g.files, s.sourcePath) then
          (g.(hashed := hashed, assets := g.assets[s.assetHash := Asset(NoPath, AssetExpired)],
              sessions := g.sessions[id := s.(sourcePath := NoPath)]),
           t.(place := Sleeping))
        else FinishEncode(cfg, g.(hashed := hashed), t.(place := Encoding(CvGuard(s))), tool)
  {
    var s := WithHash(cfg, g.sessions[t.job.sessionId]);
    hashed := PassBegins(cfg, g, t, tool, n);
    var g1 := g.(hashed := hashed);
    GateRuns(cfg, g1, t, s, tool, n);
    if !There(g.files, s.sourcePath) {
      ForgetSource(cfg, g1, t.(place := Encoding(CvGuard(s))), tool, s);
    }
  }
}
