/**
  The request and worker handlers of api.go as small programs over shared maps. A step
  is one call on the store, one look at a file, one tool run or one queue operation;
  everything between two steps works on the handler's own copy of the session.
 */
module ApiModel {
  import opened Jobs
  import opened ClipBounds
  import opened VariantKey
  import opened Model

  /** `hash` is HashString and `canon` is CanonicalVideoID. */
  datatype Config = Config(
    hash: string -> string,
    canon: string -> string,
    capacity: int,
    maxRetries: int,
    maxDuration: int)

  function AssetHash(cfg: Config, url: string): string {
    cfg.hash(cfg.canon(url))
  }

  function VariantHash(cfg: Config, asset: string, c: Clip): string {
    cfg.hash(Key(asset, c))
  }

  /** What a file holds; `Blank` is a file of size 0. */
  datatype Content = Blank | Audio(video: string) | Mp3(source: Content, clip: Clip)

  /** os.Stat succeeds and the size is not 0. */
  predicate OnDisk(files: map<Path, Content>, p: Path) {
    p in files && files[p] != Blank
  }

  // ------------------------------------------------------------------ programs

  /** How a request ended: 202, 202 with a reused output, 4xx, 503, or a plain 200. */
  datatype Reply = Accepted | Reused | Rejected | QueueFull | Answered

  /** A convert request: its parameters and the queue priority of its API key. */
  datatype Ask = Ask(clip: Clip, priority: int)

  /** Where handlePrepare is, with its local session copy. */
  datatype PreparePc =
    | PrepCreate(s: Session, duration: int)
    | PrepMark(s: Session)
    | PrepHash(s: Session)
    | PrepLook(s: Session)
    | PrepStat(s: Session, src: Path)
    | PrepExpire(s: Session)
    | PrepReserve(s: Session)
    | PrepEnqueue(s: Session)
    | PrepDone(reply: Reply)

  /** Where handleConvertReq is, with its local session copy. */
  datatype ConvertPc =
    | ConvGet(id: string, ask: Ask)
    | ConvHash(s: Session, ask: Ask)
    | ConvVariant(s: Session, ask: Ask)
    | ConvVariantStat(s: Session, ask: Ask, out: Path)
    | ConvReuse(s: Session)
    | ConvClear(s: Session, ask: Ask)
    | ConvForget(s: Session, ask: Ask)
    | ConvSource(s: Session, ask: Ask)
    | ConvExpireOwn(s: Session, ask: Ask)
    | ConvLook(s: Session, ask: Ask)
    | ConvLookStat(s: Session, ask: Ask, src: Path)
    | ConvExpireShared(s: Session, ask: Ask)
    | ConvCheck(s: Session, ask: Ask)
    | ConvReserve(s: Session, ask: Ask)
    | ConvDownload(s: Session, ask: Ask)
    | ConvEnqueue(s: Session, ask: Ask, ready: bool)
    | ConvFinish(s: Session)
    | ConvDone(reply: Reply)

  /** Where handleStatus is. */
  datatype StatusPc = StatusGet(id: string) | StatusStat(s: Session) | StatusFail(s: Session) | StatusDone(reply: Reply)

  /** Where handleDelete is. */
  datatype DeletePc =
    | DelGet(id: string)
    | DelMissing(id: string)
    | DelStore(s: Session)
    | DelOutput(s: Session)
    | DelSource(s: Session)
    | DelDone(reply: Reply)

  datatype Request = OnPrepare(p: PreparePc) | OnConvert(c: ConvertPc) | OnStatus(q: StatusPc) | OnDelete(d: DeletePc)
  {
    predicate Finished() {
      match this
      case OnPrepare(p) => p.PrepDone?
      case OnConvert(c) => c.ConvDone?
      case OnStatus(q) => q.StatusDone?
      case OnDelete(d) => d.DelDone?
    }
  }

  /** Where handleDownload is, with its local session copy. */
  datatype FetchPc =
    | DlGet
    | DlMark(s: Session)
    | DlTool(s: Session)
    | DlFail(s: Session)
    | DlFailAsset(s: Session)
    | DlSave(s: Session)
    | DlAsset(s: Session)

  /** Where handleConvert is, with its local session copy. */
  datatype EncodePc =
    | CvGet
    | CvLook(s: Session)
    | CvStat(s: Session, src: Path)
    | CvHydrate(s: Session)
    | CvExpireShared(s: Session)
    | CvReserve(s: Session)
    | CvDownload(s: Session)
    | CvGuard(s: Session)
    | CvExpireOwn(s: Session)
    | CvForget(s: Session)
    | CvStart(s: Session)
    | CvTool(s: Session)
    | CvFail(s: Session)
    | CvSave(s: Session)
    | CvPublish(s: Session)

  /** Why a job is gone: done, out of attempts, or its session or its place in the queue was lost. */
  datatype Ending = Served | GaveUp | Dropped

  /** In its queue, asleep in a goroutine that will put it back, in a worker, or gone. */
  datatype Place = Waiting | Sleeping | Fetching(f: FetchPc) | Encoding(e: EncodePc) | Ended(how: Ending)

  /** A job, where it is, and how often its tool has been run (a history variable). */
  datatype Task = Task(job: Job, place: Place, calls: nat)

  /**
    The shared maps and files. The last three fields are history: the texts hashed so far,
    the variants ever converted, and the URL of every session id ever drawn.
   */
  datatype Shared = Shared(
    sessions: Sessions,
    assets: map<string, Asset>,
    variants: map<string, Path>,
    files: map<Path, Content>,
    tasks: map<string, Task>,
    hashed: set<string>,
    converted: set<string>,
    urls: map<string, string>)

  /** The new job ids and the time that a step may use. */
  datatype Names = Names(download: string, convert: string, now: int)

  predicate FreshNames(g: Shared, n: Names) {
    n.download !in g.tasks && n.convert !in g.tasks && n.download != n.convert
  }

  // ---------------------------------------------------------- shared operations

  function WithSession(g: Shared, s: Session): Shared {
    g.(sessions := Updated(g.sessions, s))
  }

  function WithAsset(g: Shared, hash: string, p: Path, state: AssetState): Shared {
    g.(assets := g.assets[hash := Asset(p, state)])
  }

  function WithHashed(g: Shared, texts: set<string>): Shared {
    g.(hashed := g.hashed + texts)
  }

  function Without(g: Shared, p: Path): Shared {
    g.(files := g.files - {p})
  }

  function InQueue(tasks: map<string, Task>, kind: JobType): set<string> {
    set id | id in tasks && tasks[id].place.Waiting? && tasks[id].job.kind == kind
  }

  predicate HasRoom(cfg: Config, g: Shared, kind: JobType) {
    |InQueue(g.tasks, kind)| < cfg.capacity
  }

  /** Enqueue of a new job. */
  function Offered(cfg: Config, g: Shared, job: Job): Shared {
    if HasRoom(cfg, g, job.kind) then g.(tasks := g.tasks[job.id := Task(job, Waiting, 0)]) else g
  }

  /** The download jobs all carry priority 10. */
  function DownloadJob(n: Names, sessionId: string): Job {
    Job(n.download, Download, sessionId, "", "", "", n.now, 10, 0)
  }

  function ConvertJob(n: Names, sessionId: string, ask: Ask): Job {
    Job(n.convert, Convert, sessionId, ask.clip.quality, ask.clip.start, ask.clip.end, n.now, ask.priority, 0)
  }

  function ClipOf(j: Job): Clip {
    Clip(j.quality, j.startTime, j.endTime)
  }

  predicate TooLong(cfg: Config, duration: int) {
    cfg.maxDuration > 0 && duration > cfg.maxDuration
  }

  // ----------------------------------------------------------- request handlers

  /** handlePrepare once the URL is accepted and its metadata is known. */
  function StartPrepare(cfg: Config, id: string, url: string, duration: int): PreparePc {
    if TooLong(cfg, duration) then PrepDone(Rejected)
    else PrepCreate(Session(id, url, "", "", Preparing, NoPath, NoPath, 0), duration)
  }

  function PrepareStep(cfg: Config, g: Shared, pc: PreparePc, n: Names): (Shared, PreparePc) {
    match pc
    case PrepCreate(s, duration) =>
      if s.id in g.sessions then (g, PrepDone(Rejected))
      else (g.(sessions := Inserted(g.sessions, s)), PrepMark(s.(state := Created, duration := duration)))
    case PrepMark(s) =>
      (WithHashed(WithSession(g, s), {cfg.canon(s.url)}), PrepHash(s.(assetHash := AssetHash(cfg, s.url))))
    case PrepHash(s) => (WithSession(g, s), PrepLook(s))
    case PrepLook(s) =>
      var a := AssetOf(g.assets, s.assetHash);
      if a.path != NoPath && a.state == AssetDownloaded then (g, PrepStat(s, a.path))
      else if a.state == Unset || a.state == AssetFailed then (g, PrepReserve(s))
      else (g, PrepDone(Accepted))
    case PrepStat(s, src) => if OnDisk(g.files, src) then (g, PrepDone(Accepted)) else (g, PrepExpire(s))
    case PrepExpire(s) => (WithAsset(g, s.assetHash, NoPath, AssetExpired), PrepReserve(s))
    case PrepReserve(s) => (WithAsset(g, s.assetHash, NoPath, AssetPreparing), PrepEnqueue(s))
    case PrepEnqueue(s) =>
      (Offered(cfg, g, DownloadJob(n, s.id)), PrepDone(if HasRoom(cfg, g, Download) then Accepted else QueueFull))
    case PrepDone(_) => (g, pc)
  }

  /** The checks of handleConvertReq on the fetched session. */
  predicate ConvertAllowed(cfg: Config, s: Session, c: Clip) {
    && !TooLong(cfg, s.duration)
    && ParseClipBounds(c.start, c.end, 0, if s.duration < 0 then 0 else s.duration).Some?
  }

  /** The local copy after the request's hashes have been computed. */
  function Asked(cfg: Config, s: Session, c: Clip): Session {
    var asset := AssetHash(cfg, s.url);
    s.(assetHash := asset, variantHash := VariantHash(cfg, asset, c))
  }

  /** The part of handleConvertReq that looks for a reusable output. */
  predicate LooksForOutput(pc: ConvertPc) {
    pc.ConvGet? || pc.ConvHash? || pc.ConvVariant? || pc.ConvVariantStat? || pc.ConvReuse? || pc.ConvClear?
    || pc.ConvForget?
  }

  function OutputSearch(cfg: Config, g: Shared, pc: ConvertPc): (Shared, ConvertPc) {
    match pc
    case ConvGet(id, ask) =>
      if id !in g.sessions || !ConvertAllowed(cfg, g.sessions[id], ask.clip) then (g, ConvDone(Rejected))
      else
        var s := Asked(cfg, g.sessions[id], ask.clip);
        (WithHashed(g, {cfg.canon(s.url), Key(s.assetHash, ask.clip)}), ConvHash(s, ask))
    case ConvHash(s, ask) => (WithSession(g, s), ConvVariant(s, ask))
    case ConvVariant(s, ask) =>
      var out := VariantOf(g.variants, s.variantHash);
      if out != NoPath then (g, ConvVariantStat(s, ask, out)) else (g, ConvSource(s, ask))
    case ConvVariantStat(s, ask, out) =>
      if OnDisk(g.files, out) then (g, ConvReuse(s.(outputPath := out, state := Completed)))
      else (g, ConvClear(s, ask))
    case ConvReuse(s) => (WithSession(g, s), ConvDone(Reused))
    case ConvClear(s, ask) =>
      (g.(variants := g.variants[s.variantHash := NoPath]), ConvForget(s.(outputPath := NoPath), ask))
    case ConvForget(s, ask) => (WithSession(g, s), ConvSource(s, ask))
    case _ => (g, pc)
  }

  /** The rest: find the source, make sure it is being fetched, and queue the conversion. */
  function SourceSearch(cfg: Config, g: Shared, pc: ConvertPc, n: Names): (Shared, ConvertPc) {
    match pc
    case ConvSource(s, ask) =>
      if s.sourcePath == NoPath then (g, ConvLook(s, ask))
      else if OnDisk(g.files, s.sourcePath) then (g, ConvEnqueue(s, ask, true))
      else (g, ConvExpireOwn(s, ask))
    case ConvExpireOwn(s, ask) =>
      (WithAsset(g, s.assetHash, NoPath, AssetExpired), ConvLook(s.(sourcePath := NoPath), ask))
    case ConvLook(s, ask) =>
      var a := AssetOf(g.assets, s.assetHash);
      if a.path != NoPath && a.state == AssetDownloaded then (g, ConvLookStat(s, ask, a.path))
      else (g, ConvCheck(s, ask))
    case ConvLookStat(s, ask, src) =>
      if OnDisk(g.files, src) then (g, ConvEnqueue(s.(sourcePath := src), ask, true))
      else (g, ConvExpireShared(s, ask))
    case ConvExpireShared(s, ask) => (WithAsset(g, s.assetHash, NoPath, AssetExpired), ConvCheck(s, ask))
    case ConvCheck(s, ask) =>
      var a := AssetOf(g.assets, s.assetHash);
      if a.state == Unset || a.state == AssetFailed || a.state == AssetExpired then (g, ConvReserve(s, ask))
      else (g, ConvEnqueue(s, ask, false))
    case ConvReserve(s, ask) => (WithAsset(g, s.assetHash, NoPath, AssetPreparing), ConvDownload(s, ask))
    case ConvDownload(s, ask) =>
      (Offered(cfg, g, DownloadJob(n, s.id)),
       if HasRoom(cfg, g, Download) then ConvEnqueue(s, ask, false) else ConvDone(QueueFull))
    case ConvEnqueue(s, ask, ready) =>
      (Offered(cfg, g, ConvertJob(n, s.id, ask)),
       if HasRoom(cfg, g, Convert) then ConvFinish(s.(state := if ready then Converting else Queued))
       else ConvDone(QueueFull))
    case ConvFinish(s) => (WithSession(g, s), ConvDone(Accepted))
    case _ => (g, pc)
  }

  function ConvertStep(cfg: Config, g: Shared, pc: ConvertPc, n: Names): (Shared, ConvertPc) {
    if LooksForOutput(pc) then OutputSearch(cfg, g, pc) else SourceSearch(cfg, g, pc, n)
  }

  function StatusStep(g: Shared, pc: StatusPc): (Shared, StatusPc) {
    match pc
    case StatusGet(id) =>
      if id !in g.sessions then (g, StatusDone(Rejected))
      else if g.sessions[id].state == Completed && g.sessions[id].outputPath != NoPath then
        (g, StatusStat(g.sessions[id]))
      else (g, StatusDone(Answered))
    case StatusStat(s) =>
      if OnDisk(g.files, s.outputPath) then (g, StatusDone(Answered))
      else (g, StatusFail(s.(outputPath := NoPath, state := Failed)))
    case StatusFail(s) => (WithSession(g, s), StatusDone(Answered))
    case StatusDone(_) => (g, pc)
  }

  function DeleteStep(g: Shared, pc: DeletePc): (Shared, DeletePc) {
    match pc
    case DelGet(id) => if id in g.sessions then (g, DelStore(g.sessions[id])) else (g, DelMissing(id))
    case DelMissing(id) => (g.(sessions := Removed(g.sessions, id)), DelDone(Answered))
    case DelStore(s) => (g.(sessions := Removed(g.sessions, s.id)), DelOutput(s))
    case DelOutput(s) => (if s.outputPath != NoPath then Without(g, s.outputPath) else g, DelSource(s))
    case DelSource(s) => (if s.sourcePath != NoPath then Without(g, s.sourcePath) else g, DelDone(Answered))
    case DelDone(_) => (g, pc)
  }

  function RequestStep(cfg: Config, g: Shared, r: Request, n: Names): (Shared, Request) {
    match r
    case OnPrepare(p) => var (g', p') := PrepareStep(cfg, g, p, n); (g', OnPrepare(p'))
    case OnConvert(c) => var (g', c') := ConvertStep(cfg, g, c, n); (g', OnConvert(c'))
    case OnStatus(q) => var (g', q') := StatusStep(g, q); (g', OnStatus(q'))
    case OnDelete(d) => var (g', d') := DeleteStep(g, d); (g', OnDelete(d'))
  }

  // ------------------------------------------------------------ worker handlers

  /** The outcome of a yt-dlp or ffmpeg run; a successful one installs its file, which may be empty. */
  datatype Tool = ToolFails | Installs(nonEmpty: bool)

  function At(g: Shared, id: string, t: Task): Shared {
    g.(tasks := g.tasks[id := t])
  }

  /** A failed run: back to sleep while attempts are left, else on to `giveUp`. */
  function AfterFailure(cfg: Config, t: Task, giveUp: Place): Task {
    var attempts := t.job.attempts + 1;
    Task(t.job.(attempts := attempts), if attempts < cfg.maxRetries then Sleeping else giveUp, t.calls + 1)
  }

  function DownloadStep(cfg: Config, g: Shared, t: Task, pc: FetchPc, tool: Tool): (Shared, Task) {
    match pc
    case DlGet =>
      if t.job.sessionId !in g.sessions then (g, t.(place := Ended(Dropped)))
      else (g, t.(place := Fetching(DlMark(g.sessions[t.job.sessionId].(state := Downloading)))))
    case DlMark(s) =>
      var g' := WithSession(g, s);
      if s.assetHash != "" then (g', t.(place := Fetching(DlTool(s))))
      else (WithHashed(g', {cfg.canon(s.url)}),
            t.(place := Fetching(DlTool(s.(assetHash := AssetHash(cfg, s.url))))))
    case DlTool(s) =>
      if tool.ToolFails? then (g, AfterFailure(cfg, t, Fetching(DlFail(s.(state := Failed)))))
      else
        var out := Source(s.assetHash);
        (g.(files := g.files[out := if tool.nonEmpty then Audio(cfg.canon(s.url)) else Blank]),
         t.(place := Fetching(DlSave(s.(sourcePath := out, state := Downloaded))), calls := t.calls + 1))
    case DlFail(s) => (WithSession(g, s), t.(place := Fetching(DlFailAsset(s))))
    case DlFailAsset(s) => (WithAsset(g, s.assetHash, NoPath, AssetFailed), t.(place := Ended(GaveUp)))
    case DlSave(s) => (WithSession(g, s), t.(place := Fetching(DlAsset(s))))
    case DlAsset(s) =>
      (WithAsset(g, s.assetHash, Source(s.assetHash), AssetDownloaded), t.(place := Ended(Served)))
  }

  /** The test before conversion: no source, source not ready, or on to the final guard. */
  function Gate(s: Session): Place {
    if s.sourcePath == NoPath then Encoding(CvReserve(s))
    else if s.state == Downloading || s.state == Preparing || s.state == Created then Sleeping
    else Encoding(CvGuard(s))
  }

  /** The part of handleConvert that makes sure of the source. */
  predicate SeeksSource(pc: EncodePc) {
    pc.CvGet? || pc.CvLook? || pc.CvStat? || pc.CvHydrate? || pc.CvExpireShared? || pc.CvReserve? || pc.CvDownload?
  }

  function SeekStep(cfg: Config, g: Shared, t: Task, pc: EncodePc, n: Names): (Shared, Task) {
    match pc
    case CvGet =>
      if t.job.sessionId !in g.sessions then (g, t.(place := Ended(Dropped)))
      else
        var s0 := g.sessions[t.job.sessionId];
        var s := if s0.assetHash == "" then s0.(assetHash := AssetHash(cfg, s0.url)) else s0;
        (if s0.assetHash == "" then WithHashed(g, {cfg.canon(s0.url)}) else g,
         t.(place := if s.sourcePath == NoPath then Encoding(CvLook(s)) else Gate(s)))
    case CvLook(s) =>
      var a := AssetOf(g.assets, s.assetHash);
      (g, t.(place := if a.path != NoPath && a.state == AssetDownloaded then Encoding(CvStat(s, a.path)) else Gate(s)))
    case CvStat(s, src) =>
      (g, t.(place := Encoding(if OnDisk(g.files, src) then CvHydrate(s.(sourcePath := src, state := Downloaded))
                              else CvExpireShared(s))))
    case CvHydrate(s) => (WithSession(g, s), t.(place := Gate(s)))
    case CvExpireShared(s) => (WithAsset(g, s.assetHash, NoPath, AssetExpired), t.(place := Gate(s)))
    case CvReserve(s) => (WithAsset(g, s.assetHash, NoPath, AssetPreparing), t.(place := Encoding(CvDownload(s))))
    case CvDownload(s) => (Offered(cfg, g, DownloadJob(n, s.id)), t.(place := Sleeping))
    case _ => (g, t)
  }

  /** The rest: the final guard, the conversion, and its outcome. */
  function EncodeStep(cfg: Config, g: Shared, t: Task, pc: EncodePc, tool: Tool): (Shared, Task) {
    match pc
    case CvGuard(s) =>
      (g, t.(place := Encoding(if OnDisk(g.files, s.sourcePath) then CvStart(s.(state := Converting)) else CvExpireOwn(s))))
    case CvExpireOwn(s) =>
      (WithAsset(g, s.assetHash, NoPath, AssetExpired), t.(place := Encoding(CvForget(s.(sourcePath := NoPath)))))
    case CvForget(s) => (WithSession(g, s), t.(place := Sleeping))
    case CvStart(s) =>
      var g' := WithSession(g, s);
      if s.variantHash != "" then (g', t.(place := Encoding(CvTool(s))))
      else (WithHashed(g', {Key(s.assetHash, ClipOf(t.job))}),
            t.(place := Encoding(CvTool(s.(variantHash := VariantHash(cfg, s.assetHash, ClipOf(t.job)))))))
    case CvTool(s) =>
      if tool.ToolFails? || !OnDisk(g.files, s.sourcePath) then
        (g, AfterFailure(cfg, t, Encoding(CvFail(s.(state := Failed)))))
      else
        var out := Output(s.variantHash);
        (g.(files := g.files[out := if tool.nonEmpty then Mp3(g.files[s.sourcePath], ClipOf(t.job)) else Blank],
            converted := g.converted + {s.variantHash}),
         t.(place := Encoding(CvSave(s.(outputPath := out, state := Completed))), calls := t.calls + 1))
    case CvFail(s) => (WithSession(g, s), t.(place := Ended(GaveUp)))
    case CvSave(s) => (WithSession(g, s), t.(place := Encoding(CvPublish(s))))
    case CvPublish(s) =>
      (g.(variants := g.variants[s.variantHash := Output(s.variantHash)]), t.(place := Ended(Served)))
    case _ => (g, t)
  }

  function ConversionStep(cfg: Config, g: Shared, t: Task, pc: EncodePc, tool: Tool, n: Names): (Shared, Task) {
    if SeeksSource(pc) then SeekStep(cfg, g, t, pc, n) else EncodeStep(cfg, g, t, pc, tool)
  }

  predicate AtWork(p: Place) {
    p.Fetching? || p.Encoding?
  }

  /** One step of the worker that has job `id`. */
  function WorkStep(cfg: Config, g: Shared, id: string, tool: Tool, n: Names): Shared
    requires id in g.tasks && AtWork(g.tasks[id].place)
  {
    var t := g.tasks[id];
    var (g', t') := if t.place.Fetching? then DownloadStep(cfg, g, t, t.place.f, tool)
                    else ConversionStep(cfg, g, t, t.place.e, tool, n);
    At(g', id, t')
  }

  // --------------------------------------------------------------- whole system

  datatype State = State(g: Shared, requests: map<nat, Request>)

  datatype Step =
    | BeginPrepare(r: nat, id: string, url: string, duration: int)
    | BeginConvert(r: nat, id: string, ask: Ask)
    | BeginStatus(r: nat, id: string)
    | BeginDelete(r: nat, id: string)
    | Proceed(r: nat, n: Names)
    | Dequeue(job: string)
    | Labour(job: string, tool: Tool, n: Names)
    | Wake(job: string)
    | Expire(path: Path)  // cleanup removes a file that is past its lifetime

  predicate Enabled(st: State, step: Step) {
    match step
    case BeginPrepare(r, id, _, _) => r !in st.requests && id !in st.g.urls
    case BeginConvert(r, _, _) => r !in st.requests
    case BeginStatus(r, _) => r !in st.requests
    case BeginDelete(r, _) => r !in st.requests
    case Proceed(r, n) => r in st.requests && !st.requests[r].Finished() && FreshNames(st.g, n)
    case Dequeue(j) => j in st.g.tasks && st.g.tasks[j].place.Waiting?
    case Labour(j, _, n) => j in st.g.tasks && AtWork(st.g.tasks[j].place) && FreshNames(st.g, n)
    case Wake(j) => j in st.g.tasks && st.g.tasks[j].place.Sleeping?
    case Expire(_) => true
  }

  function Begun(t: Task): Task {
    t.(place := if t.job.kind == JobType.Download then Fetching(DlGet) else Encoding(CvGet))
  }

  /** The goroutine puts the job back, and forgets it when the queue is full. */
  function Woken(cfg: Config, g: Shared, t: Task): Task {
    t.(place := if HasRoom(cfg, g, t.job.kind) then Waiting else Ended(Dropped))
  }

  function Next(cfg: Config, st: State, step: Step): State
    requires Enabled(st, step)
  {
    match step
    case BeginPrepare(r, id, url, duration) =>
      State(st.g.(urls := st.g.urls[id := url]), st.requests[r := OnPrepare(StartPrepare(cfg, id, url, duration))])
    case BeginConvert(r, id, ask) => st.(requests := st.requests[r := OnConvert(ConvGet(id, ask))])
    case BeginStatus(r, id) => st.(requests := st.requests[r := OnStatus(StatusGet(id))])
    case BeginDelete(r, id) => st.(requests := st.requests[r := OnDelete(DelGet(id))])
    case Proceed(r, n) =>
      var (g', pc') := RequestStep(cfg, st.g, st.requests[r], n);
      State(g', st.requests[r := pc'])
    case Dequeue(j) => st.(g := At(st.g, j, Begun(st.g.tasks[j])))
    case Labour(j, tool, n) => st.(g := WorkStep(cfg, st.g, j, tool, n))
    case Wake(j) => st.(g := At(st.g, j, Woken(cfg, st.g, st.g.tasks[j])))
    case Expire(p) => st.(g := Without(st.g, p))
  }

  ghost predicate IsRun(cfg: Config, st: State, run: seq<Step>)
    decreases |run|
  {
    run == [] || (Enabled(st, run[0]) && IsRun(cfg, Next(cfg, st, run[0]), run[1..]))
  }

  ghost function AfterRun(cfg: Config, st: State, run: seq<Step>): State
    requires IsRun(cfg, st, run)
    decreases |run|
  {
    if run == [] then st else AfterRun(cfg, Next(cfg, st, run[0]), run[1..])
  }

  /** A server that has just started on empty directories. */
  const START := Shared(map[], map[], map[], map[], map[], {}, {}, map[])
}
