/**
  A convert job whose source has disappeared: which worker passes get it downloaded again.
  A pass is one whole run of handleConvert, with no other step in between.
 */
module SelfHealing {
  import opened Jobs
  import opened VariantKey
  import opened Model
  import opened ApiModel
  import opened ApiInvariant
  import opened HandlerRuns

  function Pass(cfg: Config, g: Shared, t: Task, tool: Tool, n: Names): (Shared, Task) {
    FinishPass(cfg, g, t.(place := Encoding(CvGet)), tool, n)
  }

  /** The worker's copy after it has looked up the asset hash. */
  function Hydrated(cfg: Config, s: Session): Session {
    if s.assetHash == "" then s.(assetHash := AssetHash(cfg, s.url)) else s
  }

  /** The job's session, its asset, and a source file that is gone. */
  ghost predicate SourceGone(cfg: Config, g: Shared, t: Task) {
    && MapsOk(cfg, g) && t.job.sessionId in g.sessions
    && !OnDisk(g.files, Source(AssetHash(cfg, g.sessions[t.job.sessionId].url)))
  }

  /** The pass ended with the job asleep, its tool not run, and every other job in place. */
  ghost predicate OnlyWaits(g: Shared, t: Task, g': Shared, t': Task) {
    && t' == t.(place := Sleeping)
    && g'.files == g.files && g'.variants == g.variants && g'.converted == g.converted
    && (forall j | j in g.tasks :: j in g'.tasks)
  }

  lemma OfferKeeps(cfg: Config, g: Shared, job: Job)
    ensures forall j :: j in Offered(cfg, g, job).tasks <==> j in g.tasks || (j == job.id && HasRoom(cfg, g, job.kind))
  {
  }

  /** The worker found no source: the asset gets marked and a download is queued if there is room. */
  lemma {:induction false} SeekDownloads(cfg: Config, g: Shared, t: Task, tool: Tool, n: Names, s: Session)
    requires AssetsOk(g.assets) && s.sourcePath == NoPath && !OnDisk(g.files, Source(s.assetHash))
    requires t.place.Encoding?
    requires var e := t.place.e;
      e == CvLook(s) || e == CvStat(s, Source(s.assetHash)) || e == CvExpireShared(s) || e == CvReserve(s) || e == CvDownload(s)
    requires t.place.e == CvDownload(s) ==> AssetOf(g.assets, s.assetHash) == Asset(NoPath, AssetPreparing)
    ensures var (g', t') := FinishPass(cfg, g, t, tool, n);
      && OnlyWaits(g, t, g', t') && g'.sessions == g.sessions
      && AssetOf(g'.assets, s.assetHash) == Asset(NoPath, AssetPreparing) && AssetsOk(g'.assets)
      && (n.download in g'.tasks <==> n.download in g.tasks || HasRoom(cfg, g, Download))
    decreases EncodeRank(t.place.e)
  {
    var (g', t') := SeekStep(cfg, g, t, t.place.e, n);
    if t.place.e == CvDownload(s) {
      OfferKeeps(cfg, g, DownloadJob(n, s.id));
    } else {
      assert s.assetHash in g.assets ==> AssetOk(s.assetHash, g.assets[s.assetHash]);
      assert g'.tasks == g.tasks;
      SeekDownloads(cfg, g', t', tool, n, s);
    }
  }

  /** A session without a source: one pass queues the download. */
  lemma PassDownloads(cfg: Config, g: Shared, t: Task, tool: Tool, n: Names)
    requires SourceGone(cfg, g, t) && g.sessions[t.job.sessionId].sourcePath == NoPath
    ensures var (g', t') := Pass(cfg, g, t, tool, n);
      && OnlyWaits(g, t, g', t') && SourceGone(cfg, g', t') && g'.sessions == g.sessions
      && AssetOf(g'.assets, AssetHash(cfg, g.sessions[t.job.sessionId].url)) == Asset(NoPath, AssetPreparing)
      && (n.download in g'.tasks <==> n.download in g.tasks || HasRoom(cfg, g, Download))
  {
    var s0 := g.sessions[t.job.sessionId];
    assert Storable(cfg, g.converted, s0);
    var s := Hydrated(cfg, s0);
    var (g1, t1) := SeekStep(cfg, g, t.(place := Encoding(CvGet)), CvGet, n);
    assert t1.place == Encoding(CvLook(s));
    SeekDownloads(cfg, g1, t1, tool, n, s);
  }

  /** A download seems to be under way for a session that already points at a source. */
  predicate Stuck(s: Session) {
    s.sourcePath != NoPath && s.state == Downloading
  }

  /** Such a session passes the gate and meets the final guard. */
  lemma PassReachesGuard(cfg: Config, g: Shared, t: Task, tool: Tool, n: Names)
    requires SourceGone(cfg, g, t) && g.sessions[t.job.sessionId].sourcePath != NoPath
    requires g.sessions[t.job.sessionId].state != Downloading
    ensures var s := Hydrated(cfg, g.sessions[t.job.sessionId]);
      var g1 := SeekStep(cfg, g, t.(place := Encoding(CvGet)), CvGet, n).0;
      && g1 == g.(hashed := g1.hashed) && !OnDisk(g.files, s.sourcePath)
      && Pass(cfg, g, t, tool, n) == FinishEncode(cfg, g1, t.(place := Encoding(CvGuard(s))), tool)
  {
    assert Storable(cfg, g.converted, g.sessions[t.job.sessionId]);
    var s := Hydrated(cfg, g.sessions[t.job.sessionId]);
    var (g1, t1) := SeekStep(cfg, g, t.(place := Encoding(CvGet)), CvGet, n);
    assert t1 == t.(place := Encoding(CvGuard(s)));
    assert Pass(cfg, g, t, tool, n) == FinishPass(cfg, g1, t1, tool, n);
  }

  /** A session that points at the missing file: one pass makes it forget the file. */
  lemma PassForgets(cfg: Config, g: Shared, t: Task, tool: Tool, n: Names)
    requires SourceGone(cfg, g, t) && g.sessions[t.job.sessionId].sourcePath != NoPath
    requires g.sessions[t.job.sessionId].state != Downloading
    ensures var (g', t') := Pass(cfg, g, t, tool, n);
      && OnlyWaits(g, t, g', t') && SourceGone(cfg, g', t') && g'.tasks == g.tasks
      && g'.sessions[t.job.sessionId].sourcePath == NoPath
      && g'.sessions[t.job.sessionId].url == g.sessions[t.job.sessionId].url
  {
    assert Storable(cfg, g.converted, g.sessions[t.job.sessionId]);
    var s := Hydrated(cfg, g.sessions[t.job.sessionId]);
    var g1 := SeekStep(cfg, g, t.(place := Encoding(CvGet)), CvGet, n).0;
    PassReachesGuard(cfg, g, t, tool, n);
    ForgetSource(cfg, g1, t.(place := Encoding(CvGuard(s))), tool, s);
    UpdateKeeps(cfg, g.converted, g.sessions, s.(sourcePath := NoPath));
  }

  /** A session in Downloading that points at the missing file: a pass changes nothing at all. */
  lemma PassSpins(cfg: Config, g: Shared, t: Task, tool: Tool, n: Names)
    requires t.job.sessionId in g.sessions && Stuck(g.sessions[t.job.sessionId])
    ensures var (g', t') := Pass(cfg, g, t, tool, n);
      t' == t.(place := Sleeping) && g' == g.(hashed := g'.hashed)
  {
    var s0 := g.sessions[t.job.sessionId];
    var t0 := t.(place := Encoding(CvGet));
    var (g1, t1) := SeekStep(cfg, g, t0, CvGet, n);
    assert t1 == t.(place := Sleeping) && g1 == g.(hashed := g1.hashed);
    assert Pass(cfg, g, t, tool, n) == FinishPass(cfg, g1, t1, tool, n) == FinishEncode(cfg, g1, t1, tool) == (g1, t1);
  }

  /** The job goes through `names.length` passes, each followed by its return to the queue. */
  function Passes(cfg: Config, g: Shared, t: Task, tool: Tool, names: seq<Names>): (Shared, Task)
    decreases |names|
  {
    if names == [] then (g, t) else
      var (g', t') := Pass(cfg, g, t, tool, names[0]);
      Passes(cfg, g', t', tool, names[1..])
  }

  lemma {:induction false} PassesSpin(cfg: Config, g: Shared, t: Task, tool: Tool, names: seq<Names>)
    requires t.job.sessionId in g.sessions && Stuck(g.sessions[t.job.sessionId])
    ensures Passes(cfg, g, t, tool, names).0.tasks == g.tasks
    decreases |names|
  {
    if names != [] {
      var (g', t') := Pass(cfg, g, t, tool, names[0]);
      PassSpins(cfg, g, t, tool, names[0]);
      PassesSpin(cfg, g', t', tool, names[1..]);
    }
  }

  /** Two passes with room for one more download queue one. */
  lemma TwoPassesDownload(cfg: Config, g: Shared, t: Task, tool: Tool, n: Names, m: Names)
    requires SourceGone(cfg, g, t) && HasRoom(cfg, g, Download)
    requires !Stuck(g.sessions[t.job.sessionId])
    ensures var g' := Passes(cfg, g, t, tool, [n, m]).0;
      n.download in g'.tasks || m.download in g'.tasks
  {
    var (g1, t1) := Pass(cfg, g, t, tool, n);
    if g.sessions[t.job.sessionId].sourcePath == NoPath {
      PassDownloads(cfg, g, t, tool, n);
    } else {
      PassForgets(cfg, g, t, tool, n);
    }
    PassDownloads(cfg, g1, t1, tool, m);
    TwoPasses(cfg, g, t, tool, n, m);
  }

  lemma TwoPasses(cfg: Config, g: Shared, t: Task, tool: Tool, n: Names, m: Names)
    ensures var (g1, t1) := Pass(cfg, g, t, tool, n);
      Passes(cfg, g, t, tool, [n, m]) == Pass(cfg, g1, t1, tool, m)
  {
    var (g1, t1) := Pass(cfg, g, t, tool, n);
    var (g2, t2) := Pass(cfg, g1, t1, tool, m);
    assert [n, m][1..] == [m] && [m][1..] == [];
    assert Passes(cfg, g2, t2, tool, []) == (g2, t2);
    assert Passes(cfg, g1, t1, tool, [m]) == (g2, t2);
  }

  /**
    Self-healing, exactly: with the source file gone and room in the queue, two passes ask for a
    fresh download if and only if the session is not stuck in Downloading with a source path;
    a stuck one is never helped by passes alone, however many there are.
   */
  lemma HealsIffNotStuck(cfg: Config, g: Shared, t: Task, tool: Tool, n: Names, m: Names)
    requires SourceGone(cfg, g, t) && HasRoom(cfg, g, Download)
    requires n.download !in g.tasks && m.download !in g.tasks
    ensures var g' := Passes(cfg, g, t, tool, [n, m]).0;
      (n.download in g'.tasks || m.download in g'.tasks) <==> !Stuck(g.sessions[t.job.sessionId])
    ensures Stuck(g.sessions[t.job.sessionId]) ==>
      forall names :: Passes(cfg, g, t, tool, names).0.tasks == g.tasks
  {
    if Stuck(g.sessions[t.job.sessionId]) {
      forall names ensures Passes(cfg, g, t, tool, names).0.tasks == g.tasks {
        PassesSpin(cfg, g, t, tool, names);
      }
    } else {
      TwoPassesDownload(cfg, g, t, tool, n, m);
    }
  }

  /**
    If only the session's own source path was lost, while the asset is downloaded and on disk,
    one pass finds it again and runs the converter, whatever state the session was in.
   */
  lemma LostPathIsRecovered(cfg: Config, g: Shared, t: Task, tool: Tool, n: Names)
    requires HexHashes(cfg) && MapsOk(cfg, g) && t.job.sessionId in g.sessions
    requires var s := g.sessions[t.job.sessionId];
      && s.sourcePath == NoPath && OnDisk(g.files, Source(AssetHash(cfg, s.url)))
      && AssetOf(g.assets, AssetHash(cfg, s.url)).state == AssetDownloaded
    ensures Pass(cfg, g, t, tool, n).1.calls == t.calls + 1
  {
    var s0 := g.sessions[t.job.sessionId];
    assert Storable(cfg, g.converted, s0);
    var hash := AssetHash(cfg, s0.url);
    assert AssetOk(hash, g.assets[hash]);
    var s := Hydrated(cfg, s0);
    var s' := s.(sourcePath := Source(hash), state := Downloaded);
    var t0, t1 := t.(place := Encoding(CvGet)), t.(place := Encoding(CvLook(s)));
    var t2, t3 := t.(place := Encoding(CvStat(s, Source(hash)))), t.(place := Encoding(CvHydrate(s')));
    var g1 := SeekStep(cfg, g, t0, CvGet, n).0;
    assert SeekStep(cfg, g, t0, CvGet, n).1 == t1;
    assert SeekStep(cfg, g1, t1, CvLook(s), n) == (g1, t2);
    assert SeekStep(cfg, g1, t2, CvStat(s, Source(hash)), n) == (g1, t3);
    var g2 := WithSession(g1, s');
    var t4 := t.(place := Encoding(CvGuard(s')));
    assert SeekStep(cfg, g1, t3, CvHydrate(s'), n) == (g2, t4);
    assert FinishPass(cfg, g1, t3, tool, n) == FinishEncode(cfg, g2, t4, tool);
    assert FinishPass(cfg, g1, t1, tool, n) == FinishPass(cfg, g1, t3, tool, n);
    GuardedPassConverts(cfg, g2, t4, tool, s');
  }

  lemma GuardedPassConverts(cfg: Config, g: Shared, t: Task, tool: Tool, s: Session)
    requires t.place == Encoding(CvGuard(s)) && OnDisk(g.files, s.sourcePath)
    ensures FinishEncode(cfg, g, t, tool).1.calls == t.calls + 1
  {
    var s1 := s.(state := Converting);
    var t1 := t.(place := Encoding(CvStart(s1)));
    assert EncodeStep(cfg, g, t, CvGuard(s), tool) == (g, t1);
    var (g2, t2) := EncodeStep(cfg, g, t1, CvStart(s1), tool);
    assert t2.place.Encoding? && t2.place.e.CvTool?;
    var (g3, t3) := EncodeStep(cfg, g2, t2, t2.place.e, tool);
    assert t3.calls == t.calls + 1;
    RecordingKeepsCalls(cfg, g3, t3, tool);
    assert FinishEncode(cfg, g, t, tool) == FinishEncode(cfg, g, t1, tool);
    assert FinishEncode(cfg, g, t1, tool) == FinishEncode(cfg, g2, t2, tool);
    assert FinishEncode(cfg, g2, t2, tool) == FinishEncode(cfg, g3, t3, tool);
  }

  lemma {:induction false} RecordingKeepsCalls(cfg: Config, g: Shared, t: Task, tool: Tool)
    requires t.place == Sleeping || (t.place.Encoding? && (t.place.e.CvFail? || t.place.e.CvSave? || t.place.e.CvPublish?))
    ensures FinishEncode(cfg, g, t, tool).1.calls == t.calls
    decreases if t.place.Encoding? then EncodeRank(t.place.e) else 0
  {
    if t.place.Encoding? && t.place.e.CvSave? {
      var (g', t') := EncodeStep(cfg, g, t, t.place.e, tool);
      RecordingKeepsCalls(cfg, g', t', tool);
    }
  }
}
