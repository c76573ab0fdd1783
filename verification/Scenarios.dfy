/**
  Runs from the start of the server that reach the states in which a natural claim fails.
 */
module Scenarios {
  import opened Jobs
  import opened ClipBounds
  import opened VariantKey
  import opened Model
  import opened ApiModel
  import opened ApiInvariant
  import opened HandlerRuns
  import opened HandlerClaims
  import opened ConvertOutcome
  import opened FreshIds
  import opened WholeRuns
  import opened VariantCache
  import opened VariantMatch
  import opened VariantClash
  import opened Dedup
  import opened Sharing
  import opened SharingFails
  import opened SelfHealing
  import opened Promises
  import opened Identity

  // --------------------------------------------------- extending a run by a handler

  /** No request is under way. */
  ghost predicate AllDone(st: State) {
    forall r | r in st.requests :: st.requests[r].Finished()
  }

  lemma Extend(cfg: Config, run: seq<Step>, st: State, more: seq<Step>)
    requires Reached(cfg, run, st) && IsRun(cfg, st, more)
    ensures Reached(cfg, run + more, AfterRun(cfg, st, more))
  {
    RunsJoin(cfg, State(START, map[]), run, more);
  }

  lemma DoStep(cfg: Config, run: seq<Step>, st: State, step: Step) returns (run': seq<Step>, st': State)
    requires Reached(cfg, run, st) && Enabled(st, step)
    ensures Reached(cfg, run', st') && st' == Next(cfg, st, step)
  {
    StepLast(cfg, st, step);
    Extend(cfg, run, st, [step]);
    run', st' := run + [step], Next(cfg, st, step);
  }

  lemma DoPrepare(cfg: Config, run: seq<Step>, st: State, id: string, url: string, n: Names) returns (run': seq<Step>, st': State)
    requires Reached(cfg, run, st) && id !in st.g.urls && FreshNames(st.g, n)
    ensures AllDone(st) ==> AllDone(st')
    ensures Reached(cfg, run', st')
    ensures st'.g == FinishPrepare(cfg, st.g.(urls := st.g.urls[id := url]), StartPrepare(cfg, id, url, 0), n).0
  {
    var r := NewNumber(st.requests.Keys);
    run', st' := DoStep(cfg, run, st, BeginPrepare(r, id, url, 0));
    var more := PrepareIsRun(cfg, st', r, StartPrepare(cfg, id, url, 0), n);
    Extend(cfg, run', st', more);
    run', st' := run' + more, AfterRun(cfg, st', more);
  }

  lemma DoConvert(cfg: Config, run: seq<Step>, st: State, id: string, ask: Ask, n: Names) returns (run': seq<Step>, st': State)
    requires Reached(cfg, run, st) && FreshNames(st.g, n)
    ensures AllDone(st) ==> AllDone(st')
    ensures Reached(cfg, run', st') && st'.g == FinishConvert(cfg, st.g, ConvGet(id, ask), n).0
  {
    var r := NewNumber(st.requests.Keys);
    run', st' := DoStep(cfg, run, st, BeginConvert(r, id, ask));
    var more := ConvertIsRun(cfg, st', r, ConvGet(id, ask), n);
    Extend(cfg, run', st', more);
    run', st' := run' + more, AfterRun(cfg, st', more);
  }

  lemma DoDelete(cfg: Config, run: seq<Step>, st: State, id: string) returns (run': seq<Step>, st': State)
    requires Reached(cfg, run, st)
    ensures AllDone(st) ==> AllDone(st')
    ensures Reached(cfg, run', st') && st'.g == FinishDelete(st.g, DelGet(id)).0
  {
    var r := NewNumber(st.requests.Keys);
    run', st' := DoStep(cfg, run, st, BeginDelete(r, id));
    var more := DeleteIsRun(cfg, st', r, DelGet(id));
    Extend(cfg, run', st', more);
    run', st' := run' + more, AfterRun(cfg, st', more);
  }

  lemma DoFetch(cfg: Config, run: seq<Step>, st: State, j: string, tool: Tool) returns (run': seq<Step>, st': State)
    requires Reached(cfg, run, st) && j in st.g.tasks && st.g.tasks[j].place == Fetching(DlGet)
    ensures AllDone(st) ==> AllDone(st')
    ensures Reached(cfg, run', st')
    ensures var (end, t') := FinishFetch(cfg, st.g, st.g.tasks[j], tool); st'.g == At(end, j, t')
  {
    var more := FetchIsRun(cfg, st, j, tool);
    Extend(cfg, run, st, more);
    run', st' := run + more, AfterRun(cfg, st, more);
  }

  lemma DoPass(cfg: Config, run: seq<Step>, st: State, j: string, tool: Tool, n: Names) returns (run': seq<Step>, st': State)
    requires Reached(cfg, run, st) && j in st.g.tasks && st.g.tasks[j].place == Encoding(CvGet) && FreshNames(st.g, n)
    ensures AllDone(st) ==> AllDone(st')
    ensures Reached(cfg, run', st')
    ensures var (end, t') := FinishPass(cfg, st.g, st.g.tasks[j], tool, n); st'.g == At(end, j, t')
  {
    var more := PassIsRun(cfg, st, j, tool, n);
    Extend(cfg, run, st, more);
    run', st' := run + more, AfterRun(cfg, st, more);
  }

  // ------------------------------------------------------- what the handlers do here

  function NewSession(cfg: Config, id: string, url: string): Session {
    Session(id, url, AssetHash(cfg, url), "", Created, NoPath, NoPath, 0)
  }

  /** A prepare request for a video that nobody has asked for. */
  lemma FirstPrepare(cfg: Config, g: Shared, id: string, url: string, n: Names)
    requires id !in g.sessions && AssetOf(g.assets, AssetHash(cfg, url)) == Asset(NoPath, Unset)
    ensures var g' := FinishPrepare(cfg, g, StartPrepare(cfg, id, url, 0), n).0;
      && g'.sessions == g.sessions[id := NewSession(cfg, id, url)]
      && g'.assets == g.assets[AssetHash(cfg, url) := Asset(NoPath, AssetPreparing)]
      && g'.tasks == Plus(g.tasks, HasRoom(cfg, g, Download), DownloadJob(n, id))
      && g'.files == g.files && g'.variants == g.variants && g'.urls == g.urls
  {
    var hash, s := AssetHash(cfg, url), NewSession(cfg, id, url);
    var s0 := Session(id, url, "", "", Preparing, NoPath, NoPath, 0);
    var s1 := s0.(state := Created);
    var g1 := g.(sessions := g.sessions[id := s0]);
    var g2 := WithHashed(WithSession(g1, s1), {cfg.canon(url)});
    var g3 := WithSession(g2, s);
    var g4 := WithAsset(g3, hash, NoPath, AssetPreparing);
    assert PrepareStep(cfg, g, PrepCreate(s0, 0), n) == (g1, PrepMark(s1));
    assert PrepareStep(cfg, g1, PrepMark(s1), n) == (g2, PrepHash(s));
    assert PrepareStep(cfg, g2, PrepHash(s), n) == (g3, PrepLook(s));
    assert PrepareStep(cfg, g3, PrepLook(s), n) == (g3, PrepReserve(s));
    assert PrepareStep(cfg, g3, PrepReserve(s), n) == (g4, PrepEnqueue(s));
    var g5 := Offered(cfg, g4, DownloadJob(n, id));
    assert FinishPrepare(cfg, g4, PrepEnqueue(s), n).0 == g5;
    assert FinishPrepare(cfg, g3, PrepLook(s), n).0 == g5;
    assert FinishPrepare(cfg, g2, PrepHash(s), n).0 == g5;
    assert FinishPrepare(cfg, g1, PrepMark(s1), n).0 == g5;
    assert g3.sessions == g.sessions[id := s];
    assert HasRoom(cfg, g4, Download) <==> HasRoom(cfg, g, Download);
  }

  /** A successful download for a session of the video. */
  lemma FetchServes(cfg: Config, g: Shared, t: Task)
    requires t.place == Fetching(DlGet) && t.job.sessionId in g.sessions
    requires var s := g.sessions[t.job.sessionId]; s.id == t.job.sessionId && s.assetHash != "" && s.assetHash == AssetHash(cfg, s.url)
    ensures var s := g.sessions[t.job.sessionId];
      var (g', t') := FinishFetch(cfg, g, t, Installs(true));
      && g'.sessions == g.sessions[s.id := s.(sourcePath := Source(s.assetHash), state := Downloaded)]
      && g'.files == g.files[Source(s.assetHash) := Audio(cfg.canon(s.url))]
      && g'.assets == g.assets[s.assetHash := Asset(Source(s.assetHash), AssetDownloaded)]
      && g'.tasks == g.tasks && g'.variants == g.variants && g'.urls == g.urls
      && t' == t.(place := Ended(Served), calls := t.calls + 1)
  {
    var s := g.sessions[t.job.sessionId];
    var out := Source(s.assetHash);
    var s1 := s.(state := Downloading);
    var s2 := s1.(sourcePath := out, state := Downloaded);
    var t1, t2 := t.(place := Fetching(DlMark(s1))), t.(place := Fetching(DlTool(s1)));
    var t3 := t.(place := Fetching(DlSave(s2)), calls := t.calls + 1);
    var t4, t5 := t3.(place := Fetching(DlAsset(s2))), t3.(place := Ended(Served));
    var g2 := WithSession(g, s1);
    var g3 := g2.(files := g2.files[out := Audio(cfg.canon(s.url))]);
    var g4 := WithSession(g3, s2);
    var g5 := WithAsset(g4, s.assetHash, out, AssetDownloaded);
    assert DownloadStep(cfg, g, t, DlGet, Installs(true)) == (g, t1);
    assert DownloadStep(cfg, g, t1, DlMark(s1), Installs(true)) == (g2, t2);
    assert DownloadStep(cfg, g2, t2, DlTool(s1), Installs(true)) == (g3, t3);
    assert DownloadStep(cfg, g3, t3, DlSave(s2), Installs(true)) == (g4, t4);
    assert DownloadStep(cfg, g4, t4, DlAsset(s2), Installs(true)) == (g5, t5);
    assert FinishFetch(cfg, g4, t4, Installs(true)) == FinishFetch(cfg, g5, t5, Installs(true)) == (g5, t5);
    assert FinishFetch(cfg, g3, t3, Installs(true)) == FinishFetch(cfg, g4, t4, Installs(true));
    assert FinishFetch(cfg, g2, t2, Installs(true)) == FinishFetch(cfg, g3, t3, Installs(true));
    assert FinishFetch(cfg, g, t1, Installs(true)) == FinishFetch(cfg, g2, t2, Installs(true));
    assert g4.sessions == g.sessions[s.id := s2];
  }

  /** A clip without bounds is always allowed. */
  lemma UnboundedAllowed(cfg: Config, s: Session, quality: string)
    requires s.duration == 0
    ensures ConvertAllowed(cfg, s, Clip(quality, "", ""))
  {
    EmptyBound("");
    NoEnd("", "", 0, 0);
  }

  // -------------------------------------------------------------------- scenarios

  const FIRST := Names("d1", "c1", 1)
  const SECOND := Names("d2", "c2", 2)
  const THIRD := Names("d3", "c3", 3)
  const ASK_A := Ask(Clip("a", "", ""), 5)
  const ASK_B := Ask(Clip("b", "", ""), 5)

  /** One prepare request after the start. */
  lemma AfterPrepare(cfg: Config, url: string) returns (run: seq<Step>, st: State)
    ensures Reached(cfg, run, st) && AllDone(st)
    ensures st.g.sessions == map["s" := NewSession(cfg, "s", url)]
    ensures st.g.assets == map[AssetHash(cfg, url) := Asset(NoPath, AssetPreparing)]
    ensures st.g.tasks == Plus(map[], cfg.capacity > 0, DownloadJob(FIRST, "s"))
    ensures st.g.files == map[] && st.g.variants == map[] && st.g.urls == map["s" := url]
  {
    var st0 := State(START, map[]);
    assert Reached(cfg, [], st0);
    run, st := DoPrepare(cfg, [], st0, "s", url, FIRST);
    var g := START.(urls := START.urls["s" := url]);
    FirstPrepare(cfg, g, "s", url, FIRST);
    assert InQueue(g.tasks, Download) == {};
  }

  /** The session after its download. */
  function Fetched(cfg: Config, url: string): Session {
    NewSession(cfg, "s", url).(sourcePath := Source(AssetHash(cfg, url)), state := Downloaded)
  }

  /** And its download. */
  lemma AfterDownload(cfg: Config, url: string) returns (run: seq<Step>, st: State)
    requires HexHashes(cfg) && cfg.capacity >= 1
    ensures Reached(cfg, run, st)
    ensures st.g.sessions == map["s" := Fetched(cfg, url)]
    ensures st.g.files == map[Source(AssetHash(cfg, url)) := Audio(cfg.canon(url))]
    ensures st.g.assets == map[AssetHash(cfg, url) := Asset(Source(AssetHash(cfg, url)), AssetDownloaded)]
    ensures st.g.tasks.Keys == {"d1"} && st.g.tasks["d1"].place == Ended(Served)
    ensures st.g.variants == map[] && st.g.urls == map["s" := url]
  {
    run, st := AfterPrepare(cfg, url);
    run, st := DoStep(cfg, run, st, Dequeue("d1"));
    var g, t := st.g, st.g.tasks["d1"];
    assert IsDigest(AssetHash(cfg, url));
    FetchServes(cfg, g, t);
    run, st := DoFetch(cfg, run, st, "d1", Installs(true));
  }

  /** A convert job waits for a session whose source is at hand. */
  lemma ReadySessionIsReached(cfg: Config, url: string) returns (run: seq<Step>, st: State)
    requires HexHashes(cfg) && cfg.capacity >= 1
    ensures Reached(cfg, run, st)
    ensures var s := Requested(cfg, Fetched(cfg, url), ASK_A.clip);
      && st.g.sessions == map["s" := s]
      && st.g.tasks.Keys == {"d1", "c2"} && st.g.tasks["d1"].place == Ended(Served)
      && st.g.tasks["c2"] == Task(ConvertJob(SECOND, "s", ASK_A), Waiting, 0)
      && ReadySession(cfg, st.g, s, st.g.tasks["c2"]) && st.g.variants == map[]
  {
    run, st := AfterDownload(cfg, url);
    var g := st.g;
    assert InQueue(g.tasks, Convert) == {};
    UnboundedAllowed(cfg, Fetched(cfg, url), "a");
    ReadyRequest(cfg, g, Fetched(cfg, url), ASK_A, SECOND);
    run, st := DoConvert(cfg, run, st, "s", ASK_A, SECOND);
    assert st.g.sessions == map["s" := Requested(cfg, Fetched(cfg, url), ASK_A.clip)];
  }

  /** Two clips of one session: the file named after the second holds the first. */
  lemma SpoiledOutputIsReached(cfg: Config, url: string) returns (run: seq<Step>, st: State)
    requires HexHashes(cfg) && cfg.capacity >= 2
    requires CollisionFree(cfg, {Key(AssetHash(cfg, url), ASK_A.clip), Key(AssetHash(cfg, url), ASK_B.clip)})
    ensures Reached(cfg, run, st) && !OutputsMatch(cfg, st.g.files)
  {
    run, st := ReadySessionIsReached(cfg, url);
    var s := Requested(cfg, Fetched(cfg, url), ASK_A.clip);
    var s' := Requested(cfg, s, ASK_B.clip);
    assert InQueue(st.g.tasks, Convert) == {"c2"};
    UnboundedAllowed(cfg, s, "b");
    ReadyRequest(cfg, st.g, s, ASK_B, THIRD);
    run, st := DoConvert(cfg, run, st, "s", ASK_B, THIRD);
    run, st := DoStep(cfg, run, st, Dequeue("c2"));
    var t := st.g.tasks["c2"];
    var n := NewNames(st.g);
    assert IsDigest(s'.assetHash) && IsDigest(s'.variantHash);
    PassWrites(cfg, st.g, s', t, n);
    assert t.(place := Encoding(CvGet)) == t;
    run, st := DoPass(cfg, run, st, "c2", Installs(true), n);
    ClipsDiffer(cfg, url);
    assert !MatchesKey(cfg, s'.variantHash, st.g.files[Output(s'.variantHash)]);
  }

  lemma ClipsDiffer(cfg: Config, url: string)
    requires CollisionFree(cfg, {Key(AssetHash(cfg, url), ASK_A.clip), Key(AssetHash(cfg, url), ASK_B.clip)})
    ensures VariantHash(cfg, AssetHash(cfg, url), ASK_A.clip) != VariantHash(cfg, AssetHash(cfg, url), ASK_B.clip)
  {
    var asset := AssetHash(cfg, url);
    if Key(asset, ASK_A.clip) == Key(asset, ASK_B.clip) {
      SplitKeys(asset, ASK_A.clip, asset, ASK_B.clip);
    }
  }

  /** A session that points at a missing file; as many downloads of it as the queue holds can follow. */
  lemma StaleIsReached(cfg: Config, url: string, k: nat) returns (run: seq<Step>, st: State, calls: seq<Call>)
    requires HexHashes(cfg) && 2 <= k <= cfg.capacity
    ensures Reached(cfg, run, st) && Triggers(cfg, st.g, AssetHash(cfg, url), "s", ASK_A)
    ensures IsSequence(cfg, st.g, calls, AssetHash(cfg, url)) && TotalQueued(cfg, st.g, calls) >= k
  {
    run, st := AfterDownload(cfg, url);
    run, st := DoStep(cfg, run, st, Expire(Source(AssetHash(cfg, url))));
    UnboundedAllowed(cfg, Fetched(cfg, url), "a");
    assert Triggers(cfg, st.g, AssetHash(cfg, url), "s", ASK_A);
    ReachedInv(cfg, run, st);
    assert InQueue(st.g.tasks, Download) == {};
    SharingFailsIff(cfg, st.g, AssetHash(cfg, url), k);
    calls :| IsSequence(cfg, st.g, calls, AssetHash(cfg, url)) && TotalQueued(cfg, st.g, calls) >= k;
  }

  /** The asset stays marked as being prepared, and nothing will ever download it. */
  lemma BrokenPromiseIsReached(cfg: Config, url: string) returns (run: seq<Step>, st: State)
    ensures Reached(cfg, run, st) && IsPreparing(st.g.assets, AssetHash(cfg, url))
    ensures !Promised(cfg, st, AssetHash(cfg, url))
  {
    run, st := AfterPrepare(cfg, url);
    if cfg.capacity > 0 {
      var s := NewSession(cfg, "s", url);
      DeleteRuns(st.g, s);
      assert FinishDelete(st.g, DelGet("s")) == FinishDelete(st.g, DelStore(s));
      run, st := DoDelete(cfg, run, st, "s");
      run, st := DoStep(cfg, run, st, Dequeue("d1"));
      var t := st.g.tasks["d1"];
      assert FinishFetch(cfg, st.g, t, ToolFails) == (st.g, t.(place := Ended(Dropped)));
      run, st := DoFetch(cfg, run, st, "d1", ToolFails);
    }
  }

  /** A session whose source is still being downloaded. */
  predicate Expecting(cfg: Config, g: Shared, s: Session) {
    && s.id in g.sessions && g.sessions[s.id] == s && s.sourcePath == NoPath && s.assetHash == AssetHash(cfg, s.url)
    && AssetOf(g.assets, s.assetHash) == Asset(NoPath, AssetPreparing)
  }

  /** Its request finds no source, and one already promised. */
  lemma EarlySource(cfg: Config, g: Shared, s: Session, ask: Ask, n: Names)
    requires Expecting(cfg, g, s) && HasRoom(cfg, g, Convert)
    ensures FinishSource(cfg, g, ConvSource(s, ask), n) ==
      (WithSession(Offered(cfg, g, ConvertJob(n, s.id, ask)), s.(state := SessionState.Queued)), Accepted)
  {
    var g1 := Offered(cfg, g, ConvertJob(n, s.id, ask));
    var s1 := s.(state := SessionState.Queued);
    assert SourceSearch(cfg, g, ConvSource(s, ask), n) == (g, ConvLook(s, ask));
    assert SourceSearch(cfg, g, ConvLook(s, ask), n) == (g, ConvCheck(s, ask));
    assert SourceSearch(cfg, g, ConvCheck(s, ask), n) == (g, ConvEnqueue(s, ask, false));
    assert SourceSearch(cfg, g, ConvEnqueue(s, ask, false), n) == (g1, ConvFinish(s1));
    assert FinishSource(cfg, g1, ConvFinish(s1), n) == (WithSession(g1, s1), Accepted);
    assert FinishSource(cfg, g, ConvCheck(s, ask), n) == FinishSource(cfg, g1, ConvFinish(s1), n);
  }

  /** A convert request that comes before the download has ended. */
  lemma EarlyRequest(cfg: Config, g: Shared, s: Session, ask: Ask, n: Names)
    requires Expecting(cfg, g, s) && ConvertAllowed(cfg, s, ask.clip) && HasRoom(cfg, g, Convert)
    requires g.variants == map[]
    ensures var s' := s.(variantHash := VariantHash(cfg, s.assetHash, ask.clip), state := SessionState.Queued);
      var g' := FinishConvert(cfg, g, ConvGet(s.id, ask), n).0;
      && g'.sessions == g.sessions[s.id := s'] && g'.assets == g.assets && g'.files == g.files && g'.variants == g.variants
      && g'.tasks == g.tasks[n.convert := Task(ConvertJob(n, s.id, ask), Waiting, 0)] && g'.urls == g.urls
  {
    var s1 := s.(variantHash := VariantHash(cfg, s.assetHash, ask.clip));
    var g1 := WithHashed(g, {cfg.canon(s.url), Key(s.assetHash, ask.clip)});
    var g2 := WithSession(g1, s1);
    assert OutputSearch(cfg, g, ConvGet(s.id, ask)) == (g1, ConvHash(s1, ask));
    assert OutputSearch(cfg, g1, ConvHash(s1, ask)) == (g2, ConvVariant(s1, ask));
    assert OutputSearch(cfg, g2, ConvVariant(s1, ask)) == (g2, ConvSource(s1, ask));
    EarlySource(cfg, g2, s1, ask, n);
    assert FinishConvert(cfg, g2, ConvVariant(s1, ask), n) == FinishSource(cfg, g2, ConvSource(s1, ask), n);
    assert FinishConvert(cfg, g1, ConvHash(s1, ask), n) == FinishSource(cfg, g2, ConvSource(s1, ask), n);
    assert g2.sessions[s.id := s1.(state := SessionState.Queued)] == g.sessions[s.id := s1.(state := SessionState.Queued)];
  }

  /** A pass of its job asks for a download of its own. */
  lemma EarlyPass(cfg: Config, g: Shared, s: Session, t: Task, tool: Tool, n: Names)
    requires Expecting(cfg, g, s) && t.job.sessionId == s.id && t.place == Encoding(CvGet) && s.assetHash != ""
    requires HasRoom(cfg, g, Download)
    ensures var (g', t') := FinishPass(cfg, g, t, tool, n);
      && g' == g.(tasks := g.tasks[n.download := Task(DownloadJob(n, s.id), Waiting, 0)])
      && t' == t.(place := Sleeping)
  {
    var t1, t2 := t.(place := Encoding(CvLook(s))), t.(place := Encoding(CvReserve(s)));
    var t3, t4 := t.(place := Encoding(CvDownload(s))), t.(place := Sleeping);
    var g4 := Offered(cfg, g, DownloadJob(n, s.id));
    assert WithAsset(g, s.assetHash, NoPath, AssetPreparing) == g by {
      assert g.assets[s.assetHash := Asset(NoPath, AssetPreparing)] == g.assets;
    }
    assert SeekStep(cfg, g, t, CvGet, n) == (g, t1);
    assert SeekStep(cfg, g, t1, CvLook(s), n) == (g, t2);
    assert SeekStep(cfg, g, t2, CvReserve(s), n) == (g, t3);
    assert SeekStep(cfg, g, t3, CvDownload(s), n) == (g4, t4);
    assert FinishPass(cfg, g, t3, tool, n) == FinishPass(cfg, g4, t4, tool, n) == (g4, t4);
    assert FinishPass(cfg, g, t1, tool, n) == FinishPass(cfg, g, t2, tool, n) == FinishPass(cfg, g, t3, tool, n);
  }

  /** The session of a convert request that came before its download had ended. */
  function EarlySession(cfg: Config, url: string): Session {
    NewSession(cfg, "s", url).(variantHash := VariantHash(cfg, AssetHash(cfg, url), ASK_A.clip), state := SessionState.Queued)
  }

  /** A convert job waits while the first download does. */
  lemma EarlyRequestIsReached(cfg: Config, url: string) returns (run: seq<Step>, st: State)
    requires HexHashes(cfg) && cfg.capacity >= 1
    ensures Reached(cfg, run, st)
    ensures st.g.sessions == map["s" := EarlySession(cfg, url)] && st.g.files == map[]
    ensures st.g.assets == map[AssetHash(cfg, url) := Asset(NoPath, AssetPreparing)]
    ensures st.g.tasks == map["d1" := Task(DownloadJob(FIRST, "s"), Waiting, 0),
                              "c2" := Task(ConvertJob(SECOND, "s", ASK_A), Waiting, 0)]
  {
    run, st := AfterPrepare(cfg, url);
    var s := NewSession(cfg, "s", url);
    UnboundedAllowed(cfg, s, "a");
    assert InQueue(st.g.tasks, Convert) == {};
    EarlyRequest(cfg, st.g, s, ASK_A, SECOND);
    run, st := DoConvert(cfg, run, st, "s", ASK_A, SECOND);
  }

  /** Workers have taken both jobs. */
  lemma BothTakenIsReached(cfg: Config, url: string) returns (run: seq<Step>, st: State)
    requires HexHashes(cfg) && cfg.capacity >= 1
    ensures Reached(cfg, run, st)
    ensures st.g.sessions == map["s" := EarlySession(cfg, url)] && st.g.files == map[]
    ensures st.g.assets == map[AssetHash(cfg, url) := Asset(NoPath, AssetPreparing)]
    ensures st.g.tasks == map["d1" := Task(DownloadJob(FIRST, "s"), Fetching(DlGet), 0),
                              "c2" := Task(ConvertJob(SECOND, "s", ASK_A), Encoding(CvGet), 0)]
  {
    run, st := EarlyRequestIsReached(cfg, url);
    run, st := DoStep(cfg, run, st, Dequeue("d1"));
    run, st := DoStep(cfg, run, st, Dequeue("c2"));
  }

  /** The first download is in a worker, a second one waits, and the convert job sleeps. */
  lemma SecondDownloadIsReached(cfg: Config, url: string) returns (run: seq<Step>, st: State)
    requires HexHashes(cfg) && cfg.capacity >= 1
    ensures Reached(cfg, run, st)
    ensures st.g.sessions == map["s" := EarlySession(cfg, url)] && st.g.files == map[]
    ensures st.g.tasks == map["d1" := Task(DownloadJob(FIRST, "s"), Fetching(DlGet), 0),
                              "c2" := Task(ConvertJob(SECOND, "s", ASK_A), Sleeping, 0),
                              "d3" := Task(DownloadJob(THIRD, "s"), Waiting, 0)]
  {
    run, st := BothTakenIsReached(cfg, url);
    assert IsDigest(AssetHash(cfg, url));
    assert InQueue(st.g.tasks, Download) == {};
    EarlyPass(cfg, st.g, EarlySession(cfg, url), st.g.tasks["c2"], ToolFails, THIRD);
    run, st := DoPass(cfg, run, st, "c2", ToolFails, THIRD);
  }

  /** A session stuck in Downloading with its source gone, and a convert job that no pass will help. */
  lemma StuckIsReached(cfg: Config, url: string) returns (run: seq<Step>, st: State)
    requires HexHashes(cfg) && cfg.capacity >= 1
    ensures Reached(cfg, run, st) && "c2" in st.g.tasks && st.g.tasks["c2"].place == Sleeping
    ensures st.g.tasks["c2"].job.sessionId == "s" && SourceGone(cfg, st.g, st.g.tasks["c2"])
    ensures Stuck(st.g.sessions["s"])
  {
    run, st := SecondDownloadIsReached(cfg, url);
    assert IsDigest(AssetHash(cfg, url));
    FetchServes(cfg, st.g, st.g.tasks["d1"]);
    run, st := DoFetch(cfg, run, st, "d1", Installs(true));
    run, st := DoStep(cfg, run, st, Expire(Source(AssetHash(cfg, url))));
    run, st := DoStep(cfg, run, st, Dequeue("d3"));
    var n := NewNames(st.g);
    run, st := DoStep(cfg, run, st, Labour("d3", ToolFails, n));
    run, st := DoStep(cfg, run, st, Labour("d3", ToolFails, n));
    ReachedInv(cfg, run, st);
  }

  /** With room for one conversion: one is in a worker, and the same clip has been asked for again. */
  lemma RepeatedRequestIsReached(cfg: Config, url: string) returns (run: seq<Step>, st: State)
    requires HexHashes(cfg) && cfg.capacity == 1
    ensures Reached(cfg, run, st)
    ensures var s := Requested(cfg, Fetched(cfg, url), ASK_A.clip);
      && st.g.sessions == map["s" := s] && st.g.tasks.Keys == {"d1", "c2", "c3"}
      && st.g.tasks["c2"] == Task(ConvertJob(SECOND, "s", ASK_A), Encoding(CvGet), 0)
      && st.g.tasks["c3"] == Task(ConvertJob(THIRD, "s", ASK_A), Waiting, 0)
      && ReadySession(cfg, st.g, s, st.g.tasks["c2"])
  {
    run, st := ReadySessionIsReached(cfg, url);
    var s := Requested(cfg, Fetched(cfg, url), ASK_A.clip);
    run, st := DoStep(cfg, run, st, Dequeue("c2"));
    assert InQueue(st.g.tasks, Convert) == {};
    UnboundedAllowed(cfg, s, "a");
    ReadyRequest(cfg, st.g, s, ASK_A, THIRD);
    run, st := DoConvert(cfg, run, st, "s", ASK_A, THIRD);
  }

  /** The first conversion has completed the session, and its output has been lost. */
  lemma LostOutputIsReached(cfg: Config, url: string) returns (run: seq<Step>, st: State)
    requires HexHashes(cfg) && cfg.capacity == 1
    ensures Reached(cfg, run, st)
    ensures var s := Requested(cfg, Fetched(cfg, url), ASK_A.clip);
      && st.g.sessions == map["s" := s.(outputPath := Output(s.variantHash), state := Completed)]
      && OutputGone(st.g, s.variantHash) && !HasRoom(cfg, st.g, Convert)
  {
    run, st := RepeatedRequestIsReached(cfg, url);
    var s := Requested(cfg, Fetched(cfg, url), ASK_A.clip);
    assert IsDigest(s.assetHash) && IsDigest(s.variantHash);
    var n := NewNames(st.g);
    PassWrites(cfg, st.g, s, st.g.tasks["c2"], n);
    assert st.g.tasks["c2"].(place := Encoding(CvGet)) == st.g.tasks["c2"];
    run, st := DoPass(cfg, run, st, "c2", Installs(true), n);
    run, st := DoStep(cfg, run, st, Expire(Output(s.variantHash)));
    assert "c3" in InQueue(st.g.tasks, Convert);
  }

  /** Asking once more leaves a completed session without an output. */
  lemma CompletedWithoutOutputIsReached(cfg: Config, url: string) returns (run: seq<Step>, st: State)
    requires HexHashes(cfg) && cfg.capacity == 1
    ensures Reached(cfg, run, st) && "s" in st.g.sessions && Bare(st.g.sessions["s"])
  {
    run, st := LostOutputIsReached(cfg, url);
    var n := NewNames(st.g);
    UnboundedAllowed(cfg, st.g.sessions["s"], "a");
    CompletedWithoutOutputIff(cfg, st.g, "s", ASK_A, n);
    run, st := DoConvert(cfg, run, st, "s", ASK_A, n);
  }

  /** A conversion has completed the session. */
  lemma CompletedIsReached(cfg: Config, url: string) returns (run: seq<Step>, st: State)
    requires HexHashes(cfg) && cfg.capacity >= 1
    ensures Reached(cfg, run, st)
    ensures var s := Requested(cfg, Fetched(cfg, url), ASK_A.clip);
      var done := s.(outputPath := Output(s.variantHash), state := Completed);
      && st.g.sessions == map["s" := done] && AtHand(cfg, st.g, done)
      && st.g.variants == map[s.variantHash := Output(s.variantHash)]
      && st.g.tasks.Keys == {"d1", "c2"} && InQueue(st.g.tasks, Convert) == {}
  {
    run, st := ReadySessionIsReached(cfg, url);
    var s := Requested(cfg, Fetched(cfg, url), ASK_A.clip);
    run, st := DoStep(cfg, run, st, Dequeue("c2"));
    assert IsDigest(s.assetHash) && IsDigest(s.variantHash);
    var n := NewNames(st.g);
    PassWrites(cfg, st.g, s, st.g.tasks["c2"], n);
    assert st.g.tasks["c2"].(place := Encoding(CvGet)) == st.g.tasks["c2"];
    run, st := DoPass(cfg, run, st, "c2", Installs(true), n);
  }

  /** Completed is not final: a request for another clip makes the session convert again. */
  lemma CompletedIsReopened(cfg: Config, url: string) returns (run: seq<Step>, st: State, more: seq<Step>)
    requires HexHashes(cfg) && cfg.capacity >= 1
    requires CollisionFree(cfg, {Key(AssetHash(cfg, url), ASK_A.clip), Key(AssetHash(cfg, url), ASK_B.clip)})
    ensures Reached(cfg, run, st) && "s" in st.g.sessions && st.g.sessions["s"].state == Completed
    ensures IsRun(cfg, st, more)
    ensures var sessions' := AfterRun(cfg, st, more).g.sessions; "s" in sessions' && sessions'["s"].state == Converting
  {
    run, st := CompletedIsReached(cfg, url);
    var s := st.g.sessions["s"];
    UnboundedAllowed(cfg, s, "b");
    ClipsDiffer(cfg, url);
    ReadyRequest(cfg, st.g, s, ASK_B, THIRD);
    var r := NewNumber(st.requests.Keys);
    var begin := BeginConvert(r, "s", ASK_B);
    var rest := ConvertIsRun(cfg, Next(cfg, st, begin), r, ConvGet("s", ASK_B), THIRD);
    StepFirst(cfg, st, begin, rest);
    more := [begin] + rest;
  }
}
