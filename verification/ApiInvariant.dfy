/**
  What holds of the shared maps, of every local session copy and of every job in every
  state that any interleaving of the handlers can reach.
 */
module ApiInvariant {
  import opened Jobs
  import opened VariantKey
  import opened Model
  import opened ApiModel
  import opened Effects

  /** HashString always yields 40 hexadecimal digits. */
  ghost predicate HexHashes(cfg: Config) {
    forall x :: IsDigest(cfg.hash(x))
  }

  /** `v` is the hash of some variant of the asset. */
  ghost predicate IsVariantOf(cfg: Config, asset: string, v: string) {
    exists c: Clip :: v == VariantHash(cfg, asset, c)
  }

  /**
    A session or a local copy of one: its hashes and paths derive from its own URL, and its output
    is a variant of its own asset that has once been converted.
   */
  ghost predicate Sound(cfg: Config, converted: set<string>, s: Session) {
    var asset := AssetHash(cfg, s.url);
    && (s.assetHash == "" || s.assetHash == asset)
    && (s.sourcePath == NoPath || s.sourcePath == Source(asset))
    && (s.variantHash == "" || IsVariantOf(cfg, asset, s.variantHash))
    && (s.outputPath == NoPath ||
        (s.outputPath.Output? && s.outputPath.hash in converted && IsVariantOf(cfg, asset, s.outputPath.hash)))
  }

  /** A session as it may be stored: one that is being prepared has no source yet. */
  ghost predicate Storable(cfg: Config, converted: set<string>, s: Session) {
    Sound(cfg, converted, s) && (s.state == Preparing || s.state == Created ==> s.sourcePath == NoPath)
  }

  ghost predicate Hashed(cfg: Config, converted: set<string>, s: Session) {
    Storable(cfg, converted, s) && s.assetHash == AssetHash(cfg, s.url)
  }

  /** As `Hashed`, except that a source may have been attached to a session that is not stored yet. */
  ghost predicate Attached(cfg: Config, converted: set<string>, s: Session) {
    Sound(cfg, converted, s) && s.assetHash == AssetHash(cfg, s.url)
  }

  ghost predicate PrepareOk(cfg: Config, converted: set<string>, pc: PreparePc) {
    match pc
    case PrepCreate(s, _) => Storable(cfg, converted, s) && s.sourcePath == NoPath
    case PrepMark(s) => Storable(cfg, converted, s)
    case PrepHash(s) => Hashed(cfg, converted, s)
    case PrepLook(s) => Hashed(cfg, converted, s)
    case PrepStat(s, _) => Hashed(cfg, converted, s)
    case PrepExpire(s) => Hashed(cfg, converted, s)
    case PrepReserve(s) => Hashed(cfg, converted, s)
    case PrepEnqueue(s) => Hashed(cfg, converted, s)
    case PrepDone(_) => true
  }

  ghost predicate ConvertOk(cfg: Config, converted: set<string>, pc: ConvertPc) {
    match pc
    case ConvGet(_, _) => true
    case ConvHash(s, _) => Hashed(cfg, converted, s) && s.variantHash != ""
    case ConvVariant(s, _) => Hashed(cfg, converted, s) && s.variantHash != ""
    case ConvVariantStat(s, _, out) =>
      Hashed(cfg, converted, s) && s.variantHash != "" && out == Output(s.variantHash) && s.variantHash in converted
    case ConvReuse(s) => Hashed(cfg, converted, s)
    case ConvClear(s, _) => Hashed(cfg, converted, s)
    case ConvForget(s, _) => Hashed(cfg, converted, s)
    case ConvSource(s, _) => Hashed(cfg, converted, s)
    case ConvExpireOwn(s, _) => Hashed(cfg, converted, s)
    case ConvLook(s, _) => Hashed(cfg, converted, s)
    case ConvLookStat(s, _, src) => Hashed(cfg, converted, s) && src == Source(s.assetHash)
    case ConvExpireShared(s, _) => Hashed(cfg, converted, s)
    case ConvCheck(s, _) => Hashed(cfg, converted, s)
    case ConvReserve(s, _) => Hashed(cfg, converted, s)
    case ConvDownload(s, _) => Hashed(cfg, converted, s)
    case ConvEnqueue(s, _, _) => Attached(cfg, converted, s)
    case ConvFinish(s) => Hashed(cfg, converted, s)
    case ConvDone(_) => true
  }

  ghost predicate StatusOk(cfg: Config, converted: set<string>, pc: StatusPc) {
    match pc
    case StatusStat(s) => Storable(cfg, converted, s)
    case StatusFail(s) => Storable(cfg, converted, s)
    case _ => true
  }

  ghost predicate DeleteOk(cfg: Config, converted: set<string>, pc: DeletePc) {
    match pc
    case DelStore(s) => Storable(cfg, converted, s)
    case DelOutput(s) => Storable(cfg, converted, s)
    case DelSource(s) => Storable(cfg, converted, s)
    case _ => true
  }

  ghost predicate RequestOk(cfg: Config, converted: set<string>, r: Request) {
    match r
    case OnPrepare(p) => PrepareOk(cfg, converted, p)
    case OnConvert(c) => ConvertOk(cfg, converted, c)
    case OnStatus(q) => StatusOk(cfg, converted, q)
    case OnDelete(d) => DeleteOk(cfg, converted, d)
  }

  ghost predicate FetchOk(cfg: Config, converted: set<string>, pc: FetchPc) {
    match pc
    case DlGet => true
    case DlMark(s) => Storable(cfg, converted, s)
    case DlTool(s) => Hashed(cfg, converted, s)
    case DlFail(s) => Hashed(cfg, converted, s) && s.state == Failed
    case DlFailAsset(s) => Hashed(cfg, converted, s) && s.state == Failed
    case DlSave(s) => Hashed(cfg, converted, s)
    case DlAsset(s) => Hashed(cfg, converted, s)
  }

  ghost predicate EncodeOk(cfg: Config, converted: set<string>, pc: EncodePc) {
    match pc
    case CvGet => true
    case CvLook(s) => Hashed(cfg, converted, s)
    case CvStat(s, src) => Hashed(cfg, converted, s) && src == Source(s.assetHash)
    case CvHydrate(s) => Hashed(cfg, converted, s)
    case CvExpireShared(s) => Hashed(cfg, converted, s)
    case CvReserve(s) => Hashed(cfg, converted, s)
    case CvDownload(s) => Hashed(cfg, converted, s)
    case CvGuard(s) => Hashed(cfg, converted, s)
    case CvExpireOwn(s) => Hashed(cfg, converted, s)
    case CvForget(s) => Hashed(cfg, converted, s)
    case CvStart(s) => Hashed(cfg, converted, s)
    case CvTool(s) => Hashed(cfg, converted, s) && s.variantHash != ""
    case CvFail(s) => Hashed(cfg, converted, s) && s.state == Failed
    case CvSave(s) => Hashed(cfg, converted, s) && s.variantHash != "" && s.variantHash in converted
    case CvPublish(s) => Hashed(cfg, converted, s) && s.variantHash != "" && s.variantHash in converted
  }

  ghost predicate PlaceOk(cfg: Config, converted: set<string>, p: Place) {
    match p
    case Fetching(f) => FetchOk(cfg, converted, f)
    case Encoding(e) => EncodeOk(cfg, converted, e)
    case _ => true
  }

  /** An asset has a path exactly when it is downloaded, and then it is the file named after its hash. */
  ghost predicate AssetOk(hash: string, a: Asset) {
    && (a.path != NoPath <==> a.state == AssetDownloaded)
    && (a.state == AssetDownloaded ==> a.path == Source(hash))
    && a.state != Unset
  }

  ghost predicate VariantOk(converted: set<string>, v: string, p: Path) {
    p == NoPath || (p == Output(v) && v in converted)
  }

  ghost predicate SessionsOk(cfg: Config, converted: set<string>, sessions: Sessions) {
    forall id | id in sessions :: Storable(cfg, converted, sessions[id]) && sessions[id].id == id
  }

  ghost predicate AssetsOk(assets: map<string, Asset>) {
    forall h | h in assets :: AssetOk(h, assets[h])
  }

  ghost predicate VariantsOk(converted: set<string>, variants: map<string, Path>) {
    forall v | v in variants :: VariantOk(converted, v, variants[v])
  }

  ghost predicate MapsOk(cfg: Config, g: Shared) {
    && SessionsOk(cfg, g.converted, g.sessions)
    && AssetsOk(g.assets)
    && VariantsOk(g.converted, g.variants)
  }

  ghost predicate WorkersOk(cfg: Config, converted: set<string>, tasks: map<string, Task>) {
    forall j | j in tasks :: PlaceOk(cfg, converted, tasks[j].place)
  }

  ghost predicate RequestsOk(cfg: Config, converted: set<string>, requests: map<nat, Request>) {
    forall r | r in requests :: RequestOk(cfg, converted, requests[r])
  }

  ghost predicate Inv(cfg: Config, st: State) {
    && MapsOk(cfg, st.g)
    && WorkersOk(cfg, st.g.converted, st.g.tasks)
    && RequestsOk(cfg, st.g.converted, st.requests)
  }

  // ------------------------------------------------ history only ever grows

  lemma SoundMonotone(cfg: Config, c: set<string>, c': set<string>, s: Session)
    requires c <= c' && Sound(cfg, c, s)
    ensures Sound(cfg, c', s)
  {
  }

  lemma PlaceMonotone(cfg: Config, c: set<string>, c': set<string>, p: Place)
    requires c <= c' && PlaceOk(cfg, c, p)
    ensures PlaceOk(cfg, c', p)
  {
  }

  lemma RequestMonotone(cfg: Config, c: set<string>, c': set<string>, r: Request)
    requires c <= c' && RequestOk(cfg, c, r)
    ensures RequestOk(cfg, c', r)
  {
  }

  lemma LocalsMonotone(cfg: Config, c: set<string>, c': set<string>, tasks: map<string, Task>, requests: map<nat, Request>)
    requires c <= c' && WorkersOk(cfg, c, tasks) && RequestsOk(cfg, c, requests)
    ensures WorkersOk(cfg, c', tasks) && RequestsOk(cfg, c', requests)
  {
    forall j | j in tasks ensures PlaceOk(cfg, c', tasks[j].place) {
      PlaceMonotone(cfg, c, c', tasks[j].place);
    }
    forall r | r in requests ensures RequestOk(cfg, c', requests[r]) {
      RequestMonotone(cfg, c, c', requests[r]);
    }
  }

  // ---------------------------------------------------- the handlers keep it

  lemma UpdateKeeps(cfg: Config, converted: set<string>, sessions: Sessions, s: Session)
    requires SessionsOk(cfg, converted, sessions) && Storable(cfg, converted, s)
    ensures SessionsOk(cfg, converted, Updated(sessions, s)) && SessionsOk(cfg, converted, Inserted(sessions, s))
  {
  }

  lemma PrepareKeeps(cfg: Config, g: Shared, pc: PreparePc, n: Names)
    requires MapsOk(cfg, g) && PrepareOk(cfg, g.converted, pc)
    ensures var (g', pc') := PrepareStep(cfg, g, pc, n);
      MapsOk(cfg, g') && g'.converted == g.converted && PrepareOk(cfg, g.converted, pc')
  {
    if pc.PrepCreate? || pc.PrepMark? || pc.PrepHash? {
      UpdateKeeps(cfg, g.converted, g.sessions, pc.s);
    }
  }

  lemma VariantHashIsVariant(cfg: Config, asset: string, c: Clip)
    requires HexHashes(cfg)
    ensures VariantHash(cfg, asset, c) != "" && IsVariantOf(cfg, asset, VariantHash(cfg, asset, c))
  {
    assert IsDigest(VariantHash(cfg, asset, c));
  }

  lemma OutputSearchKeeps(cfg: Config, g: Shared, pc: ConvertPc)
    requires HexHashes(cfg) && MapsOk(cfg, g) && ConvertOk(cfg, g.converted, pc)
    ensures var (g', pc') := OutputSearch(cfg, g, pc);
      MapsOk(cfg, g') && g'.converted == g.converted && ConvertOk(cfg, g.converted, pc')
  {
    if pc.ConvGet? && pc.id in g.sessions {
      VariantHashIsVariant(cfg, AssetHash(cfg, g.sessions[pc.id].url), pc.ask.clip);
    }
    if pc.ConvHash? || pc.ConvReuse? || pc.ConvForget? {
      UpdateKeeps(cfg, g.converted, g.sessions, pc.s);
    }
  }

  lemma SourceSearchKeeps(cfg: Config, g: Shared, pc: ConvertPc, n: Names)
    requires MapsOk(cfg, g) && ConvertOk(cfg, g.converted, pc)
    ensures var (g', pc') := SourceSearch(cfg, g, pc, n);
      MapsOk(cfg, g') && g'.converted == g.converted && ConvertOk(cfg, g.converted, pc')
  {
    if pc.ConvFinish? {
      UpdateKeeps(cfg, g.converted, g.sessions, pc.s);
    }
  }

  lemma StatusKeeps(cfg: Config, g: Shared, pc: StatusPc)
    requires MapsOk(cfg, g) && StatusOk(cfg, g.converted, pc)
    ensures var (g', pc') := StatusStep(g, pc);
      MapsOk(cfg, g') && g'.converted == g.converted && StatusOk(cfg, g.converted, pc')
  {
    if pc.StatusFail? {
      UpdateKeeps(cfg, g.converted, g.sessions, pc.s);
    }
  }

  lemma DeleteKeeps(cfg: Config, g: Shared, pc: DeletePc)
    requires MapsOk(cfg, g) && DeleteOk(cfg, g.converted, pc)
    ensures var (g', pc') := DeleteStep(g, pc);
      MapsOk(cfg, g') && g'.converted == g.converted && DeleteOk(cfg, g.converted, pc')
  {
  }

  lemma RequestStepKeeps(cfg: Config, g: Shared, r: Request, n: Names)
    requires HexHashes(cfg) && MapsOk(cfg, g) && RequestOk(cfg, g.converted, r)
    ensures var (g', r') := RequestStep(cfg, g, r, n);
      MapsOk(cfg, g') && g'.converted == g.converted && RequestOk(cfg, g.converted, r')
  {
    match r
    case OnPrepare(p) => PrepareKeeps(cfg, g, p, n);
    case OnConvert(c) =>
      if LooksForOutput(c) {
        OutputSearchKeeps(cfg, g, c);
      } else {
        SourceSearchKeeps(cfg, g, c, n);
      }
    case OnStatus(q) => StatusKeeps(cfg, g, q);
    case OnDelete(d) => DeleteKeeps(cfg, g, d);
  }

  lemma DownloadKeeps(cfg: Config, g: Shared, t: Task, pc: FetchPc, tool: Tool)
    requires MapsOk(cfg, g) && FetchOk(cfg, g.converted, pc)
    ensures var (g', t') := DownloadStep(cfg, g, t, pc, tool);
      MapsOk(cfg, g') && g'.converted == g.converted && PlaceOk(cfg, g.converted, t'.place)
  {
    if pc.DlMark? || pc.DlFail? || pc.DlSave? {
      UpdateKeeps(cfg, g.converted, g.sessions, pc.s);
    }
  }

  lemma SeekingKeeps(cfg: Config, g: Shared, t: Task, pc: EncodePc, n: Names)
    requires MapsOk(cfg, g) && EncodeOk(cfg, g.converted, pc) && PlaceOk(cfg, g.converted, t.place)
    ensures var (g', t') := SeekStep(cfg, g, t, pc, n);
      MapsOk(cfg, g') && g'.converted == g.converted && PlaceOk(cfg, g.converted, t'.place)
  {
    if pc.CvHydrate? {
      UpdateKeeps(cfg, g.converted, g.sessions, pc.s);
    }
  }

  lemma EncodingKeeps(cfg: Config, g: Shared, t: Task, pc: EncodePc, tool: Tool)
    requires HexHashes(cfg) && MapsOk(cfg, g) && EncodeOk(cfg, g.converted, pc) && !pc.CvTool?
    requires PlaceOk(cfg, g.converted, t.place)
    ensures var (g', t') := EncodeStep(cfg, g, t, pc, tool);
      MapsOk(cfg, g') && g'.converted == g.converted && PlaceOk(cfg, g.converted, t'.place)
  {
    if pc.CvStart? {
      VariantHashIsVariant(cfg, pc.s.assetHash, ClipOf(t.job));
    }
    if pc.CvForget? || pc.CvStart? || pc.CvFail? || pc.CvSave? {
      UpdateKeeps(cfg, g.converted, g.sessions, pc.s);
    }
  }

  lemma MapsMonotone(cfg: Config, g: Shared, converted: set<string>)
    requires MapsOk(cfg, g) && g.converted <= converted
    ensures MapsOk(cfg, g.(converted := converted))
  {
    forall id | id in g.sessions ensures Storable(cfg, converted, g.sessions[id]) {
      SoundMonotone(cfg, g.converted, converted, g.sessions[id]);
    }
  }

  lemma ConversionToolKeeps(cfg: Config, g: Shared, t: Task, s: Session, tool: Tool)
    requires MapsOk(cfg, g) && EncodeOk(cfg, g.converted, CvTool(s))
    ensures var (g', t') := EncodeStep(cfg, g, t, CvTool(s), tool);
      MapsOk(cfg, g') && g.converted <= g'.converted && PlaceOk(cfg, g'.converted, t'.place)
  {
    if tool.ToolFails? || !OnDisk(g.files, s.sourcePath) {
      assert EncodeStep(cfg, g, t, CvTool(s), tool).0 == g;
    } else {
      var (g', t') := EncodeStep(cfg, g, t, CvTool(s), tool);
      MapsMonotone(cfg, g, g'.converted);
      SoundMonotone(cfg, g.converted, g'.converted, s);
    }
  }

  lemma WorkStepMapsKeep(cfg: Config, g: Shared, id: string, tool: Tool, n: Names)
    requires HexHashes(cfg) && MapsOk(cfg, g) && WorkersOk(cfg, g.converted, g.tasks)
    requires id in g.tasks && AtWork(g.tasks[id].place)
    ensures var g' := WorkStep(cfg, g, id, tool, n);
      MapsOk(cfg, g') && g.converted <= g'.converted && PlaceOk(cfg, g'.converted, g'.tasks[id].place)
  {
    var t := g.tasks[id];
    assert PlaceOk(cfg, g.converted, t.place);
    match t.place
    case Fetching(f) => DownloadKeeps(cfg, g, t, f, tool);
    case Encoding(e) =>
      if e.CvTool? {
        ConversionToolKeeps(cfg, g, t, e.s, tool);
      } else if SeeksSource(e) {
        SeekingKeeps(cfg, g, t, e, n);
      } else {
        EncodingKeeps(cfg, g, t, e, tool);
      }
  }

  /** `tasks'` is `tasks`, possibly with one new job in a queue. */
  ghost predicate AddsWaiting(tasks: map<string, Task>, tasks': map<string, Task>) {
    && (forall j | j in tasks :: j in tasks' && tasks'[j] == tasks[j])
    && (forall j | j in tasks' && j !in tasks ::
          tasks'[j].place == Waiting && tasks'[j].calls == 0 && tasks'[j].job.attempts == 0)
  }

  ghost predicate AddsDownloads(tasks: map<string, Task>, tasks': map<string, Task>) {
    forall j | j in tasks' && j !in tasks :: tasks'[j].job.kind == Download
  }

  lemma OfferAdds(cfg: Config, g: Shared, job: Job)
    requires job.id !in g.tasks && job.attempts == 0
    ensures AddsWaiting(g.tasks, Offered(cfg, g, job).tasks)
  {
  }

  lemma PrepareAdds(cfg: Config, g: Shared, pc: PreparePc, n: Names)
    requires FreshNames(g, n)
    ensures AddsWaiting(g.tasks, PrepareStep(cfg, g, pc, n).0.tasks)
  {
    if pc.PrepEnqueue? {
      OfferAdds(cfg, g, DownloadJob(n, pc.s.id));
    } else {
      assert PrepareStep(cfg, g, pc, n).0.tasks == g.tasks;
    }
  }

  lemma OutputSearchAdds(cfg: Config, g: Shared, pc: ConvertPc)
    ensures OutputSearch(cfg, g, pc).0.tasks == g.tasks
  {
  }

  lemma SourceSearchAdds(cfg: Config, g: Shared, pc: ConvertPc, n: Names)
    requires FreshNames(g, n)
    ensures AddsWaiting(g.tasks, SourceSearch(cfg, g, pc, n).0.tasks)
  {
    if pc.ConvDownload? {
      OfferAdds(cfg, g, DownloadJob(n, pc.s.id));
    } else if pc.ConvEnqueue? {
      OfferAdds(cfg, g, ConvertJob(n, pc.s.id, pc.ask));
    } else {
      assert SourceSearch(cfg, g, pc, n).0.tasks == g.tasks;
    }
  }

  lemma ConvertAdds(cfg: Config, g: Shared, pc: ConvertPc, n: Names)
    requires FreshNames(g, n)
    ensures AddsWaiting(g.tasks, ConvertStep(cfg, g, pc, n).0.tasks)
  {
    if LooksForOutput(pc) {
      OutputSearchAdds(cfg, g, pc);
    } else {
      SourceSearchAdds(cfg, g, pc, n);
    }
  }

  lemma RequestAdds(cfg: Config, g: Shared, r: Request, n: Names)
    requires FreshNames(g, n)
    ensures AddsWaiting(g.tasks, RequestStep(cfg, g, r, n).0.tasks)
  {
    match r
    case OnPrepare(p) => PrepareAdds(cfg, g, p, n);
    case OnConvert(c) => ConvertAdds(cfg, g, c, n);
    case OnStatus(q) => StatusEffect(g, q);
    case OnDelete(d) => DeleteEffect(g, d);
  }

  lemma DownloadAdds(cfg: Config, g: Shared, t: Task, pc: FetchPc, tool: Tool)
    ensures DownloadStep(cfg, g, t, pc, tool).0.tasks == g.tasks
  {
  }

  lemma SeekAdds(cfg: Config, g: Shared, t: Task, pc: EncodePc, n: Names)
    requires FreshNames(g, n)
    ensures AddsWaiting(g.tasks, SeekStep(cfg, g, t, pc, n).0.tasks)
    ensures AddsDownloads(g.tasks, SeekStep(cfg, g, t, pc, n).0.tasks)
  {
    if pc.CvDownload? {
      OfferAdds(cfg, g, DownloadJob(n, pc.s.id));
    } else {
      assert SeekStep(cfg, g, t, pc, n).0.tasks == g.tasks;
    }
  }

  lemma EncodeAdds(cfg: Config, g: Shared, t: Task, pc: EncodePc, tool: Tool)
    ensures EncodeStep(cfg, g, t, pc, tool).0.tasks == g.tasks
  {
  }

  /** The worker's own task after its step. */
  function TaskAfter(cfg: Config, g: Shared, t: Task, tool: Tool, n: Names): Task
    requires AtWork(t.place)
  {
    if t.place.Fetching? then DownloadStep(cfg, g, t, t.place.f, tool).1
    else ConversionStep(cfg, g, t, t.place.e, tool, n).1
  }

  /** A worker changes its own task, and may add one. */
  lemma WorkAdds(cfg: Config, g: Shared, id: string, tool: Tool, n: Names) returns (mid: map<string, Task>)
    requires id in g.tasks && AtWork(g.tasks[id].place) && FreshNames(g, n)
    ensures AddsWaiting(g.tasks, mid) && AddsDownloads(g.tasks, mid)
    ensures WorkStep(cfg, g, id, tool, n).tasks == mid[id := TaskAfter(cfg, g, g.tasks[id], tool, n)]
  {
    var t := g.tasks[id];
    if t.place.Fetching? {
      DownloadAdds(cfg, g, t, t.place.f, tool);
      mid := g.tasks;
    } else {
      SeekAdds(cfg, g, t, t.place.e, n);
      EncodeAdds(cfg, g, t, t.place.e, tool);
      mid := ConversionStep(cfg, g, t, t.place.e, tool, n).0.tasks;
    }
  }

  lemma ProceedKeepsInv(cfg: Config, st: State, r: nat, n: Names)
    requires HexHashes(cfg) && Inv(cfg, st) && Enabled(st, Proceed(r, n))
    ensures Inv(cfg, Next(cfg, st, Proceed(r, n)))
  {
    RequestStepKeeps(cfg, st.g, st.requests[r], n);
    RequestAdds(cfg, st.g, st.requests[r], n);
  }

  lemma LabourKeepsInv(cfg: Config, st: State, j: string, tool: Tool, n: Names)
    requires HexHashes(cfg) && Inv(cfg, st) && Enabled(st, Labour(j, tool, n))
    ensures Inv(cfg, Next(cfg, st, Labour(j, tool, n)))
  {
    var g' := WorkStep(cfg, st.g, j, tool, n);
    WorkStepMapsKeep(cfg, st.g, j, tool, n);
    var mid := WorkAdds(cfg, st.g, j, tool, n);
    LocalsMonotone(cfg, st.g.converted, g'.converted, st.g.tasks, st.requests);
  }

  lemma StepKeepsInv(cfg: Config, st: State, step: Step)
    requires HexHashes(cfg) && Inv(cfg, st) && Enabled(st, step)
    ensures Inv(cfg, Next(cfg, st, step))
  {
    match step
    case Proceed(r, n) => ProceedKeepsInv(cfg, st, r, n);
    case Labour(j, tool, n) => LabourKeepsInv(cfg, st, j, tool, n);
    case _ =>
  }

  lemma {:induction false} RunKeepsInv(cfg: Config, st: State, run: seq<Step>)
    requires HexHashes(cfg) && Inv(cfg, st) && IsRun(cfg, st, run)
    ensures Inv(cfg, AfterRun(cfg, st, run))
    decreases |run|
  {
    if run != [] {
      StepKeepsInv(cfg, st, run[0]);
      RunKeepsInv(cfg, Next(cfg, st, run[0]), run[1..]);
    }
  }

  ghost predicate Reached(cfg: Config, run: seq<Step>, st: State) {
    IsRun(cfg, State(START, map[]), run) && st == AfterRun(cfg, State(START, map[]), run)
  }

  /** The shared-map invariant holds in every reachable state. */
  lemma ReachedInv(cfg: Config, run: seq<Step>, st: State)
    requires HexHashes(cfg) && Reached(cfg, run, st)
    ensures Inv(cfg, st)
  {
    RunKeepsInv(cfg, State(START, map[]), run);
  }

  /** Spelled out: what every reachable state says about assets, sessions and variants. */
  lemma ReachedMaps(cfg: Config, run: seq<Step>, st: State)
    requires HexHashes(cfg) && Reached(cfg, run, st)
    ensures forall h | h in st.g.assets ::
      var a := st.g.assets[h];
      (a.path != NoPath <==> a.state == AssetDownloaded) && (a.state == AssetDownloaded ==> a.path == Source(h))
    ensures forall id | id in st.g.sessions ::
      var s := st.g.sessions[id];
      var hash := AssetHash(cfg, s.url);
      && (s.assetHash == "" || s.assetHash == hash) && (s.sourcePath == NoPath || s.sourcePath == Source(hash))
      && (s.state == Preparing || s.state == Created ==> s.sourcePath == NoPath)
      && (s.outputPath != NoPath ==> s.outputPath.Output? && s.outputPath.hash in st.g.converted
                                     && IsVariantOf(cfg, hash, s.outputPath.hash))
    ensures forall v | v in st.g.variants :: st.g.variants[v] == NoPath || st.g.variants[v] == Output(v)
  {
    ReachedInv(cfg, run, st);
    forall h | h in st.g.assets ensures AssetOk(h, st.g.assets[h]) {
    }
    forall id | id in st.g.sessions ensures Storable(cfg, st.g.converted, st.g.sessions[id]) {
    }
    forall v | v in st.g.variants ensures VariantOk(st.g.converted, v, st.g.variants[v]) {
    }
  }
}
