/**
  The cache of converted outputs: what every run keeps of hashes, files and jobs, exactly when
  all outputs match the keys in their names, and why they do when each session sticks to one clip.
 */
module VariantCache {
  import opened Jobs
  import opened VariantKey
  import opened Model
  import opened ApiModel
  import opened ApiInvariant
  import opened ApiRetries
  import opened Identity
  import opened Effects

  /** Which clips each session may ask for. */
  type Plan = (string, Clip) -> bool

  /** No restriction at all. */
  function Anything(): Plan {
    (id, c) => true
  }

  /** `content` is the conversion of the source audio and parameters whose key hashes to `v`. */
  predicate MatchesKey(cfg: Config, v: string, content: Content) {
    content.Mp3? && content.source.Audio?
    && v == VariantHash(cfg, cfg.hash(content.source.video), content.clip)
  }

  /** `v` is the hash of the key of `c`, computed in this run from bounds that the check accepted. */
  predicate HashedAs(cfg: Config, hashed: set<string>, asset: string, v: string, c: Clip) {
    v == VariantHash(cfg, asset, c) && Key(asset, c) in hashed && Unseparated(c)
  }

  ghost predicate FileOk(cfg: Config, hashed: set<string>, p: Path, content: Content) {
    match p
    case NoPath => false
    case Source(h) =>
      content == Blank || (content.Audio? && cfg.hash(content.video) == h && content.video in hashed)
    case Output(v) =>
      content == Blank
      || (content.Mp3? && content.source.Audio? && Unseparated(content.clip) && content.source.video in hashed
          && Key(cfg.hash(content.source.video), content.clip) in hashed)
  }

  /** The hashes that a session copy holds have been computed, the variant for a planned clip. */
  ghost predicate Planned(cfg: Config, plan: Plan, hashed: set<string>, s: Session) {
    && (s.assetHash != "" ==> cfg.canon(s.url) in hashed)
    && (s.variantHash != "" ==>
          exists c :: plan(s.id, c) && HashedAs(cfg, hashed, AssetHash(cfg, s.url), s.variantHash, c))
  }

  /** The request is planned, and the copy's variant is the one it asks for. */
  predicate AskPlanned(cfg: Config, plan: Plan, hashed: set<string>, s: Session, ask: Ask) {
    s.variantHash != "" && plan(s.id, ask.clip)
    && HashedAs(cfg, hashed, AssetHash(cfg, s.url), s.variantHash, ask.clip)
  }

  ghost predicate ConvertPlanned(cfg: Config, plan: Plan, hashed: set<string>, pc: ConvertPc) {
    if pc.ConvDone? then true
    else if pc.ConvGet? then plan(pc.id, pc.ask.clip)
    else
      Planned(cfg, plan, hashed, pc.s)
      && (pc.ConvReuse? || pc.ConvFinish? || AskPlanned(cfg, plan, hashed, pc.s, pc.ask))
  }

  ghost predicate RequestPlanned(cfg: Config, plan: Plan, hashed: set<string>, r: Request) {
    match r
    case OnPrepare(p) => p.PrepDone? || Planned(cfg, plan, hashed, p.s)
    case OnConvert(c) => ConvertPlanned(cfg, plan, hashed, c)
    case OnStatus(q) => q.StatusGet? || q.StatusDone? || Planned(cfg, plan, hashed, q.s)
    case OnDelete(_) => true
  }

  /** A convert job carries a planned clip, whose key has been hashed for the session's URL. */
  predicate JobPlanned(cfg: Config, plan: Plan, hashed: set<string>, urls: Urls, job: Job) {
    job.kind == Convert ==>
      && plan(job.sessionId, ClipOf(job)) && Unseparated(ClipOf(job))
      && job.sessionId in urls && Key(AssetHash(cfg, urls[job.sessionId]), ClipOf(job)) in hashed
  }

  ghost predicate TaskPlanned(cfg: Config, plan: Plan, hashed: set<string>, urls: Urls, t: Task) {
    && JobPlanned(cfg, plan, hashed, urls, t.job)
    && match t.place
       case Fetching(f) => f.DlGet? || Planned(cfg, plan, hashed, f.s)
       case Encoding(e) => t.job.kind == Convert && (e.CvGet? || Planned(cfg, plan, hashed, e.s))
       case _ => true
  }

  ghost predicate SessionsPlanned(cfg: Config, plan: Plan, hashed: set<string>, sessions: Sessions) {
    forall id | id in sessions :: Planned(cfg, plan, hashed, sessions[id])
  }

  ghost predicate FilesOk(cfg: Config, hashed: set<string>, files: map<Path, Content>) {
    forall p | p in files :: FileOk(cfg, hashed, p, files[p])
  }

  ghost predicate TasksPlanned(cfg: Config, plan: Plan, hashed: set<string>, urls: Urls, tasks: map<string, Task>) {
    forall j | j in tasks :: TaskPlanned(cfg, plan, hashed, urls, tasks[j])
  }

  ghost predicate RequestsPlanned(cfg: Config, plan: Plan, hashed: set<string>, requests: map<nat, Request>) {
    forall r | r in requests :: RequestPlanned(cfg, plan, hashed, requests[r])
  }

  ghost predicate CacheInv(cfg: Config, plan: Plan, st: State) {
    && SessionsPlanned(cfg, plan, st.g.hashed, st.g.sessions)
    && FilesOk(cfg, st.g.hashed, st.g.files)
    && TasksPlanned(cfg, plan, st.g.hashed, st.g.urls, st.g.tasks)
    && RequestsPlanned(cfg, plan, st.g.hashed, st.requests)
  }

  /** The step does not make a session ask for a clip outside the plan. */
  predicate FollowsPlan(plan: Plan, step: Step) {
    step.BeginConvert? ==> plan(step.id, step.ask.clip)
  }

  // --------------------------------------------------- history only ever grows

  lemma FilesMonotone(cfg: Config, h: set<string>, h': set<string>, files: map<Path, Content>)
    requires h <= h' && FilesOk(cfg, h, files)
    ensures FilesOk(cfg, h', files)
  {
  }

  lemma SessionsMonotone(cfg: Config, plan: Plan, h: set<string>, h': set<string>, sessions: Sessions)
    requires h <= h' && SessionsPlanned(cfg, plan, h, sessions)
    ensures SessionsPlanned(cfg, plan, h', sessions)
  {
  }

  lemma PlannedMonotone(cfg: Config, plan: Plan, h: set<string>, h': set<string>, s: Session)
    requires h <= h' && Planned(cfg, plan, h, s)
    ensures Planned(cfg, plan, h', s)
  {
  }

  lemma TaskMonotone(cfg: Config, plan: Plan, h: set<string>, h': set<string>, urls: Urls, urls': Urls, t: Task)
    requires h <= h' && Extends(urls, urls') && TaskPlanned(cfg, plan, h, urls, t)
    ensures TaskPlanned(cfg, plan, h', urls', t)
  {
  }

  lemma RequestPlanMonotone(cfg: Config, plan: Plan, h: set<string>, h': set<string>, r: Request)
    requires h <= h' && RequestPlanned(cfg, plan, h, r)
    ensures RequestPlanned(cfg, plan, h', r)
  {
    match r
    case OnPrepare(p) =>
      if !p.PrepDone? {
        PlannedMonotone(cfg, plan, h, h', p.s);
      }
    case OnConvert(c) =>
      if !c.ConvDone? && !c.ConvGet? {
        PlannedMonotone(cfg, plan, h, h', c.s);
      }
    case OnStatus(q) =>
      if !q.StatusGet? && !q.StatusDone? {
        PlannedMonotone(cfg, plan, h, h', q.s);
      }
    case OnDelete(_) =>
  }

  lemma TasksMonotone(cfg: Config, plan: Plan, h: set<string>, h': set<string>, urls: Urls, urls': Urls, tasks: map<string, Task>)
    requires h <= h' && Extends(urls, urls') && TasksPlanned(cfg, plan, h, urls, tasks)
    ensures TasksPlanned(cfg, plan, h', urls', tasks)
  {
    forall j | j in tasks ensures TaskPlanned(cfg, plan, h', urls', tasks[j]) {
      TaskMonotone(cfg, plan, h, h', urls, urls', tasks[j]);
    }
  }

  lemma RequestsMonotone(cfg: Config, plan: Plan, h: set<string>, h': set<string>, requests: map<nat, Request>)
    requires h <= h' && RequestsPlanned(cfg, plan, h, requests)
    ensures RequestsPlanned(cfg, plan, h', requests)
  {
    forall r | r in requests ensures RequestPlanned(cfg, plan, h', requests[r]) {
      RequestPlanMonotone(cfg, plan, h, h', requests[r]);
    }
  }

  // ------------------------------------------------------- the handlers keep it

  ghost predicate GoodMaps(cfg: Config, plan: Plan, g: Shared) {
    SessionsPlanned(cfg, plan, g.hashed, g.sessions) && FilesOk(cfg, g.hashed, g.files)
  }

  /** Storing a planned copy, possibly after hashing more texts. */
  lemma StorePlanned(cfg: Config, plan: Plan, g: Shared, s: Session, texts: set<string>)
    requires GoodMaps(cfg, plan, g) && Planned(cfg, plan, g.hashed, s)
    ensures SessionsPlanned(cfg, plan, g.hashed + texts, Updated(g.sessions, s))
    ensures SessionsPlanned(cfg, plan, g.hashed + texts, Inserted(g.sessions, s))
    ensures FilesOk(cfg, g.hashed + texts, g.files)
  {
    SessionsMonotone(cfg, plan, g.hashed, g.hashed + texts, g.sessions);
    FilesMonotone(cfg, g.hashed, g.hashed + texts, g.files);
  }

  lemma PrepareKeepsPlan(cfg: Config, plan: Plan, g: Shared, pc: PreparePc, n: Names)
    requires GoodMaps(cfg, plan, g) && RequestPlanned(cfg, plan, g.hashed, OnPrepare(pc))
    ensures var (g', pc') := PrepareStep(cfg, g, pc, n);
      GoodMaps(cfg, plan, g') && g.hashed <= g'.hashed && RequestPlanned(cfg, plan, g'.hashed, OnPrepare(pc'))
  {
    if !pc.PrepDone? {
      StorePlanned(cfg, plan, g, pc.s, {});
      StorePlanned(cfg, plan, g, pc.s, {cfg.canon(pc.s.url)});
      assert g.hashed + {} == g.hashed;
    }
  }

  lemma OutputSearchKeepsPlan(cfg: Config, plan: Plan, g: Shared, pc: ConvertPc)
    requires GoodMaps(cfg, plan, g) && ConvertPlanned(cfg, plan, g.hashed, pc)
    requires HexHashes(cfg) && SessionsOk(cfg, g.converted, g.sessions)
    ensures var (g', pc') := OutputSearch(cfg, g, pc);
      GoodMaps(cfg, plan, g') && g.hashed <= g'.hashed && ConvertPlanned(cfg, plan, g'.hashed, pc')
  {
    if pc.ConvGet? {
      if pc.id in g.sessions && ConvertAllowed(cfg, g.sessions[pc.id], pc.ask.clip) {
        var s := g.sessions[pc.id];
        AskIsPlanned(cfg, plan, g, s, pc.ask.clip);
      }
    } else if !pc.ConvDone? {
      StorePlanned(cfg, plan, g, pc.s, {});
      assert g.hashed + {} == g.hashed;
    }
  }

  /** The hashes that handleConvertReq computes are those of the plan. */
  lemma AskIsPlanned(cfg: Config, plan: Plan, g: Shared, s: Session, c: Clip)
    requires GoodMaps(cfg, plan, g) && HexHashes(cfg) && plan(s.id, c) && ConvertAllowed(cfg, s, c)
    ensures var asset := AssetHash(cfg, s.url);
      var hashed := g.hashed + {cfg.canon(s.url), Key(asset, c)};
      && Planned(cfg, plan, hashed, s.(assetHash := asset, variantHash := VariantHash(cfg, asset, c)))
      && VariantHash(cfg, asset, c) != "" && HashedAs(cfg, hashed, asset, VariantHash(cfg, asset, c), c)
      && SessionsPlanned(cfg, plan, hashed, g.sessions) && FilesOk(cfg, hashed, g.files)
  {
    var asset := AssetHash(cfg, s.url);
    var hashed := g.hashed + {cfg.canon(s.url), Key(asset, c)};
    ReadableByCheck(c, 0, if s.duration < 0 then 0 else s.duration);
    ReadableIsUnseparated(c);
    VariantHashIsVariant(cfg, asset, c);
    SessionsMonotone(cfg, plan, g.hashed, hashed, g.sessions);
    FilesMonotone(cfg, g.hashed, hashed, g.files);
  }

  /** The fields that the plan depends on. */
  predicate SameIdentity(s: Session, s': Session) {
    s.id == s'.id && s.url == s'.url && s.assetHash == s'.assetHash && s.variantHash == s'.variantHash
  }

  lemma SourceSearchFrame(cfg: Config, g: Shared, pc: ConvertPc, n: Names)
    requires !LooksForOutput(pc) && !pc.ConvDone?
    ensures var (g', pc') := SourceSearch(cfg, g, pc, n);
      && g'.hashed == g.hashed && g'.files == g.files
      && g'.sessions == (if pc.ConvFinish? then Updated(g.sessions, pc.s) else g.sessions)
      && !LooksForOutput(pc')
      && (!pc'.ConvDone? ==> SameIdentity(pc.s, pc'.s) && !pc.ConvFinish? && (pc'.ConvFinish? || pc'.ask == pc.ask))
  {
  }

  lemma FramedKeepsPlan(cfg: Config, plan: Plan, hashed: set<string>, pc: ConvertPc, pc': ConvertPc)
    requires !LooksForOutput(pc) && !pc.ConvDone? && !LooksForOutput(pc') && ConvertPlanned(cfg, plan, hashed, pc)
    requires !pc'.ConvDone? ==> SameIdentity(pc.s, pc'.s) && !pc.ConvFinish? && (pc'.ConvFinish? || pc'.ask == pc.ask)
    ensures ConvertPlanned(cfg, plan, hashed, pc')
  {
  }

  lemma SourceSearchKeepsPlan(cfg: Config, plan: Plan, g: Shared, pc: ConvertPc, n: Names)
    requires GoodMaps(cfg, plan, g) && ConvertPlanned(cfg, plan, g.hashed, pc) && !LooksForOutput(pc)
    ensures var (g', pc') := SourceSearch(cfg, g, pc, n);
      GoodMaps(cfg, plan, g') && g.hashed == g'.hashed && ConvertPlanned(cfg, plan, g'.hashed, pc')
  {
    if !pc.ConvDone? {
      var (g', pc') := SourceSearch(cfg, g, pc, n);
      SourceSearchFrame(cfg, g, pc, n);
      FramedKeepsPlan(cfg, plan, g.hashed, pc, pc');
      if pc.ConvFinish? {
        StoreSame(cfg, plan, g, pc.s);
      }
    }
  }

  lemma StatusKeepsPlan(cfg: Config, plan: Plan, g: Shared, pc: StatusPc)
    requires GoodMaps(cfg, plan, g) && RequestPlanned(cfg, plan, g.hashed, OnStatus(pc))
    ensures var (g', pc') := StatusStep(g, pc);
      GoodMaps(cfg, plan, g') && g.hashed == g'.hashed && RequestPlanned(cfg, plan, g'.hashed, OnStatus(pc'))
  {
    if pc.StatusFail? {
      StorePlanned(cfg, plan, g, pc.s, {});
      assert g.hashed + {} == g.hashed;
    }
  }

  lemma DeleteKeepsPlan(cfg: Config, plan: Plan, g: Shared, pc: DeletePc)
    requires GoodMaps(cfg, plan, g)
    ensures var (g', pc') := DeleteStep(g, pc); GoodMaps(cfg, plan, g') && g.hashed == g'.hashed
  {
  }

  lemma RequestKeepsPlan(cfg: Config, plan: Plan, g: Shared, r: Request, n: Names)
    requires GoodMaps(cfg, plan, g) && RequestPlanned(cfg, plan, g.hashed, r)
    requires HexHashes(cfg) && SessionsOk(cfg, g.converted, g.sessions)
    ensures var (g', r') := RequestStep(cfg, g, r, n);
      GoodMaps(cfg, plan, g') && g.hashed <= g'.hashed && RequestPlanned(cfg, plan, g'.hashed, r')
  {
    match r
    case OnPrepare(p) => PrepareKeepsPlan(cfg, plan, g, p, n);
    case OnConvert(c) =>
      if LooksForOutput(c) {
        OutputSearchKeepsPlan(cfg, plan, g, c);
      } else {
        SourceSearchKeepsPlan(cfg, plan, g, c, n);
      }
    case OnStatus(q) => StatusKeepsPlan(cfg, plan, g, q);
    case OnDelete(d) => DeleteKeepsPlan(cfg, plan, g, d);
  }

  // -------------------------------------------------------- the workers keep it

  /** The file that a download installs holds the audio whose canonical id hashes to its name. */
  lemma SourceFileOk(cfg: Config, plan: Plan, g: Shared, s: Session, nonEmpty: bool)
    requires HexHashes(cfg) && GoodMaps(cfg, plan, g)
    requires Planned(cfg, plan, g.hashed, s) && s.assetHash == AssetHash(cfg, s.url)
    ensures FilesOk(cfg, g.hashed,
      g.files[Source(s.assetHash) := if nonEmpty then Audio(cfg.canon(s.url)) else Blank])
  {
    assert IsDigest(cfg.hash(cfg.canon(s.url)));
  }

  /** Facts about the worker's copy that the general invariant provides. */
  predicate FetchFacts(cfg: Config, f: FetchPc) {
    f.DlTool? ==> f.s.assetHash == AssetHash(cfg, f.s.url)
  }

  predicate EncodeFacts(cfg: Config, e: EncodePc) {
    && (e.CvStart? || e.CvTool? ==> e.s.assetHash == AssetHash(cfg, e.s.url))
    && (e.CvTool? ==> e.s.variantHash != "" && (e.s.sourcePath == NoPath || e.s.sourcePath == Source(e.s.assetHash)))
  }

  lemma PlaceFacts(cfg: Config, converted: set<string>, p: Place)
    requires PlaceOk(cfg, converted, p)
    ensures p.Fetching? ==> FetchFacts(cfg, p.f)
    ensures p.Encoding? ==> EncodeFacts(cfg, p.e)
  {
  }

  lemma MarkKeepsPlan(cfg: Config, plan: Plan, g: Shared, t: Task, s: Session, tool: Tool)
    requires GoodMaps(cfg, plan, g) && TaskPlanned(cfg, plan, g.hashed, g.urls, t) && t.place == Fetching(DlMark(s))
    ensures var (g', t') := DownloadStep(cfg, g, t, DlMark(s), tool);
      GoodMaps(cfg, plan, g') && g.hashed <= g'.hashed && TaskPlanned(cfg, plan, g'.hashed, g.urls, t')
  {
    var texts := {cfg.canon(s.url)};
    StoreSame(cfg, plan, g, s);
    StorePlanned(cfg, plan, g, s, texts);
    PlannedMonotone(cfg, plan, g.hashed, g.hashed + texts, s);
  }

  lemma FetchToolKeepsPlan(cfg: Config, plan: Plan, g: Shared, t: Task, s: Session, tool: Tool)
    requires HexHashes(cfg) && GoodMaps(cfg, plan, g) && TaskPlanned(cfg, plan, g.hashed, g.urls, t)
    requires t.place == Fetching(DlTool(s)) && s.assetHash == AssetHash(cfg, s.url)
    ensures var (g', t') := DownloadStep(cfg, g, t, DlTool(s), tool);
      GoodMaps(cfg, plan, g') && g.hashed <= g'.hashed && TaskPlanned(cfg, plan, g'.hashed, g.urls, t')
  {
    SourceFileOk(cfg, plan, g, s, tool.Installs? && tool.nonEmpty);
  }

  lemma FetchRestKeepsPlan(cfg: Config, plan: Plan, g: Shared, t: Task, pc: FetchPc, tool: Tool)
    requires GoodMaps(cfg, plan, g) && TaskPlanned(cfg, plan, g.hashed, g.urls, t)
    requires t.place == Fetching(pc) && !pc.DlMark? && !pc.DlTool?
    ensures var (g', t') := DownloadStep(cfg, g, t, pc, tool);
      GoodMaps(cfg, plan, g') && g.hashed <= g'.hashed && TaskPlanned(cfg, plan, g'.hashed, g.urls, t')
  {
    if !pc.DlGet? {
      StoreSame(cfg, plan, g, pc.s);
    }
  }

  lemma DownloadKeepsPlan(cfg: Config, plan: Plan, g: Shared, t: Task, tool: Tool)
    requires HexHashes(cfg) && GoodMaps(cfg, plan, g) && TaskPlanned(cfg, plan, g.hashed, g.urls, t) && t.place.Fetching?
    requires FetchFacts(cfg, t.place.f)
    ensures var (g', t') := DownloadStep(cfg, g, t, t.place.f, tool);
      GoodMaps(cfg, plan, g') && g.hashed <= g'.hashed && TaskPlanned(cfg, plan, g'.hashed, g.urls, t')
  {
    match t.place.f
    case DlMark(s) => MarkKeepsPlan(cfg, plan, g, t, s, tool);
    case DlTool(s) => FetchToolKeepsPlan(cfg, plan, g, t, s, tool);
    case _ => FetchRestKeepsPlan(cfg, plan, g, t, t.place.f, tool);
  }

  lemma StoreSame(cfg: Config, plan: Plan, g: Shared, s: Session)
    requires GoodMaps(cfg, plan, g) && Planned(cfg, plan, g.hashed, s)
    ensures SessionsPlanned(cfg, plan, g.hashed, Updated(g.sessions, s))
  {
  }

  lemma SeekGetKeepsPlan(cfg: Config, plan: Plan, g: Shared, t: Task, n: Names)
    requires GoodMaps(cfg, plan, g) && TaskPlanned(cfg, plan, g.hashed, g.urls, t) && t.place == Encoding(CvGet)
    ensures var (g', t') := SeekStep(cfg, g, t, CvGet, n);
      GoodMaps(cfg, plan, g') && g.hashed <= g'.hashed && TaskPlanned(cfg, plan, g'.hashed, g.urls, t')
  {
    if t.job.sessionId in g.sessions {
      var s := g.sessions[t.job.sessionId];
      var hashed := g.hashed + {cfg.canon(s.url)};
      SessionsMonotone(cfg, plan, g.hashed, hashed, g.sessions);
      FilesMonotone(cfg, g.hashed, hashed, g.files);
    }
  }

  lemma SeekKeepsPlan(cfg: Config, plan: Plan, g: Shared, t: Task, n: Names)
    requires GoodMaps(cfg, plan, g) && TaskPlanned(cfg, plan, g.hashed, g.urls, t)
    requires t.place.Encoding? && SeeksSource(t.place.e)
    ensures var (g', t') := SeekStep(cfg, g, t, t.place.e, n);
      GoodMaps(cfg, plan, g') && g.hashed <= g'.hashed && TaskPlanned(cfg, plan, g'.hashed, g.urls, t')
  {
    var pc := t.place.e;
    if pc.CvGet? {
      SeekGetKeepsPlan(cfg, plan, g, t, n);
    } else {
      StoreSame(cfg, plan, g, pc.s);
    }
  }

  /** A conversion writes the audio of its session, cut as its job says; both keys have been hashed. */
  lemma OutputFileOk(cfg: Config, plan: Plan, g: Shared, t: Task, s: Session, nonEmpty: bool)
    requires GoodMaps(cfg, plan, g) && EncodeFacts(cfg, CvTool(s)) && Known(g.urls, s)
    requires JobPlanned(cfg, plan, g.hashed, g.urls, t.job) && t.job.kind == Convert && s.id == t.job.sessionId
    requires OnDisk(g.files, s.sourcePath)
    ensures FilesOk(cfg, g.hashed,
      g.files[Output(s.variantHash) := if nonEmpty then Mp3(g.files[s.sourcePath], ClipOf(t.job)) else Blank])
  {
    assert FileOk(cfg, g.hashed, s.sourcePath, g.files[s.sourcePath]);
  }

  lemma StartKeepsPlan(cfg: Config, plan: Plan, g: Shared, t: Task, s: Session, tool: Tool)
    requires GoodMaps(cfg, plan, g) && TaskPlanned(cfg, plan, g.hashed, g.urls, t) && t.place == Encoding(CvStart(s))
    requires s.assetHash == AssetHash(cfg, s.url) && s.id == t.job.sessionId
    ensures var (g', t') := EncodeStep(cfg, g, t, CvStart(s), tool);
      GoodMaps(cfg, plan, g') && g.hashed <= g'.hashed && TaskPlanned(cfg, plan, g'.hashed, g.urls, t')
  {
    var texts := {Key(s.assetHash, ClipOf(t.job))};
    StoreSame(cfg, plan, g, s);
    StorePlanned(cfg, plan, g, s, texts);
    PlannedMonotone(cfg, plan, g.hashed, g.hashed + texts, s);
  }

  lemma EncodeToolKeepsPlan(cfg: Config, plan: Plan, g: Shared, t: Task, s: Session, tool: Tool)
    requires GoodMaps(cfg, plan, g) && TaskPlanned(cfg, plan, g.hashed, g.urls, t) && t.place == Encoding(CvTool(s))
    requires EncodeFacts(cfg, CvTool(s)) && Known(g.urls, s) && s.id == t.job.sessionId
    ensures var (g', t') := EncodeStep(cfg, g, t, CvTool(s), tool);
      GoodMaps(cfg, plan, g') && g.hashed <= g'.hashed && TaskPlanned(cfg, plan, g'.hashed, g.urls, t')
  {
    if OnDisk(g.files, s.sourcePath) {
      OutputFileOk(cfg, plan, g, t, s, tool.Installs? && tool.nonEmpty);
    }
  }

  lemma EncodeRestKeepsPlan(cfg: Config, plan: Plan, g: Shared, t: Task, pc: EncodePc, tool: Tool)
    requires GoodMaps(cfg, plan, g) && TaskPlanned(cfg, plan, g.hashed, g.urls, t)
    requires t.place == Encoding(pc) && !SeeksSource(pc) && !pc.CvStart? && !pc.CvTool?
    ensures var (g', t') := EncodeStep(cfg, g, t, pc, tool);
      GoodMaps(cfg, plan, g') && g.hashed <= g'.hashed && TaskPlanned(cfg, plan, g'.hashed, g.urls, t')
  {
    StoreSame(cfg, plan, g, pc.s);
  }

  lemma EncodeKeepsPlan(cfg: Config, plan: Plan, g: Shared, t: Task, tool: Tool)
    requires GoodMaps(cfg, plan, g) && TaskPlanned(cfg, plan, g.hashed, g.urls, t)
    requires t.place.Encoding? && !SeeksSource(t.place.e)
    requires EncodeFacts(cfg, t.place.e) && HoldsSession(t.place, t.job.sessionId) && TaskKnown(g.urls, t)
    ensures var (g', t') := EncodeStep(cfg, g, t, t.place.e, tool);
      GoodMaps(cfg, plan, g') && g.hashed <= g'.hashed && TaskPlanned(cfg, plan, g'.hashed, g.urls, t')
  {
    var pc := t.place.e;
    if pc.CvStart? {
      StartKeepsPlan(cfg, plan, g, t, pc.s, tool);
    } else if pc.CvTool? {
      EncodeToolKeepsPlan(cfg, plan, g, t, pc.s, tool);
    } else {
      EncodeRestKeepsPlan(cfg, plan, g, t, pc, tool);
    }
  }

  lemma WorkKeepsPlan(cfg: Config, plan: Plan, g: Shared, j: string, tool: Tool, n: Names)
    requires HexHashes(cfg) && GoodMaps(cfg, plan, g) && j in g.tasks && AtWork(g.tasks[j].place)
    requires TaskPlanned(cfg, plan, g.hashed, g.urls, g.tasks[j]) && TaskOk(cfg, g.tasks[j]) && TaskKnown(g.urls, g.tasks[j])
    requires PlaceOk(cfg, g.converted, g.tasks[j].place)
    ensures var g' := WorkStep(cfg, g, j, tool, n);
      && GoodMaps(cfg, plan, g') && g.hashed <= g'.hashed
      && TaskPlanned(cfg, plan, g'.hashed, g.urls, TaskAfter(cfg, g, g.tasks[j], tool, n))
  {
    var t := g.tasks[j];
    PlaceFacts(cfg, g.converted, t.place);
    if t.place.Fetching? {
      DownloadKeepsPlan(cfg, plan, g, t, tool);
    } else if SeeksSource(t.place.e) {
      SeekKeepsPlan(cfg, plan, g, t, n);
    } else {
      EncodeKeepsPlan(cfg, plan, g, t, tool);
    }
  }

  /** A new job is planned. */
  ghost predicate AddsPlanned(cfg: Config, plan: Plan, g: Shared, tasks': map<string, Task>) {
    AddsWaiting(g.tasks, tasks') &&
    forall j | j in tasks' && j !in g.tasks :: JobPlanned(cfg, plan, g.hashed, g.urls, tasks'[j].job)
  }

  lemma ConvertAddsPlanned(cfg: Config, plan: Plan, g: Shared, pc: ConvertPc, n: Names)
    requires ConvertPlanned(cfg, plan, g.hashed, pc) && RequestKnown(g.urls, OnConvert(pc)) && FreshNames(g, n)
    ensures AddsPlanned(cfg, plan, g, ConvertStep(cfg, g, pc, n).0.tasks)
  {
    ConvertAdds(cfg, g, pc, n);
    if LooksForOutput(pc) {
      OutputEffects(cfg, g, pc);
    } else {
      SourceEffects(cfg, g, pc, n);
      if pc.ConvEnqueue? {
        assert ClipOf(ConvertJob(n, pc.s.id, pc.ask)) == pc.ask.clip;
      }
    }
  }

  lemma RequestAddsPlanned(cfg: Config, plan: Plan, g: Shared, r: Request, n: Names)
    requires RequestPlanned(cfg, plan, g.hashed, r) && RequestKnown(g.urls, r) && FreshNames(g, n)
    ensures AddsPlanned(cfg, plan, g, RequestStep(cfg, g, r, n).0.tasks)
  {
    match r
    case OnPrepare(p) =>
      PrepareAdds(cfg, g, p, n);
      PrepareEffect(cfg, g, p, n);
    case OnConvert(c) => ConvertAddsPlanned(cfg, plan, g, c, n);
    case OnStatus(q) => StatusEffect(g, q);
    case OnDelete(d) => DeleteEffect(g, d);
  }

  lemma AddingKeepsPlan(cfg: Config, plan: Plan, g: Shared, tasks': map<string, Task>)
    requires TasksPlanned(cfg, plan, g.hashed, g.urls, g.tasks) && AddsPlanned(cfg, plan, g, tasks')
    ensures TasksPlanned(cfg, plan, g.hashed, g.urls, tasks')
  {
    forall j | j in tasks' ensures TaskPlanned(cfg, plan, g.hashed, g.urls, tasks'[j]) {
      if j in g.tasks {
        assert TaskPlanned(cfg, plan, g.hashed, g.urls, g.tasks[j]);
      }
    }
  }

  lemma ProceedKeepsPlan(cfg: Config, plan: Plan, st: State, r: nat, n: Names)
    requires Regular(cfg, st) && CacheInv(cfg, plan, st) && Enabled(st, Proceed(r, n))
    ensures CacheInv(cfg, plan, Next(cfg, st, Proceed(r, n)))
  {
    var (g', r') := RequestStep(cfg, st.g, st.requests[r], n);
    RequestKeepsPlan(cfg, plan, st.g, st.requests[r], n);
    RequestAddsPlanned(cfg, plan, st.g, st.requests[r], n);
    RequestKeepsUrls(cfg, st.g, st.requests[r], n);
    AddingKeepsPlan(cfg, plan, st.g, g'.tasks);
    TasksMonotone(cfg, plan, st.g.hashed, g'.hashed, st.g.urls, st.g.urls, g'.tasks);
    RequestsMonotone(cfg, plan, st.g.hashed, g'.hashed, st.requests);
  }

  lemma LabourKeepsPlan(cfg: Config, plan: Plan, st: State, j: string, tool: Tool, n: Names)
    requires Regular(cfg, st) && CacheInv(cfg, plan, st) && Enabled(st, Labour(j, tool, n))
    ensures CacheInv(cfg, plan, Next(cfg, st, Labour(j, tool, n)))
  {
    var g' := WorkStep(cfg, st.g, j, tool, n);
    assert TaskOk(cfg, st.g.tasks[j]) && PlaceOk(cfg, st.g.converted, st.g.tasks[j].place);
    WorkKeepsPlan(cfg, plan, st.g, j, tool, n);
    WorkKeepsUrls(cfg, st.g, j, tool, n);
    var mid := WorkAdds(cfg, st.g, j, tool, n);
    AddingKeepsPlan(cfg, plan, st.g, mid);
    TasksMonotone(cfg, plan, st.g.hashed, g'.hashed, st.g.urls, st.g.urls, mid);
    RequestsMonotone(cfg, plan, st.g.hashed, g'.hashed, st.requests);
  }

  lemma StepKeepsPlan(cfg: Config, plan: Plan, st: State, step: Step)
    requires Regular(cfg, st) && CacheInv(cfg, plan, st) && Enabled(st, step) && FollowsPlan(plan, step)
    ensures CacheInv(cfg, plan, Next(cfg, st, step))
  {
    match step
    case Proceed(r, n) => ProceedKeepsPlan(cfg, plan, st, r, n);
    case Labour(j, tool, n) => LabourKeepsPlan(cfg, plan, st, j, tool, n);
    case BeginPrepare(r, id, url, duration) =>
      TasksMonotone(cfg, plan, st.g.hashed, st.g.hashed, st.g.urls, st.g.urls[id := url], st.g.tasks);
    case _ =>
  }

  lemma {:induction false} RunKeepsPlan(cfg: Config, plan: Plan, st: State, run: seq<Step>)
    requires Regular(cfg, st) && CacheInv(cfg, plan, st)
    requires IsRun(cfg, st, run) && forall step | step in run :: FollowsPlan(plan, step)
    ensures Regular(cfg, AfterRun(cfg, st, run)) && CacheInv(cfg, plan, AfterRun(cfg, st, run))
    decreases |run|
  {
    if run != [] {
      assert run[0] in run && forall step | step in run[1..] :: step in run;
      StepKeepsRegular(cfg, st, run[0]);
      StepKeepsPlan(cfg, plan, st, run[0]);
      RunKeepsPlan(cfg, plan, Next(cfg, st, run[0]), run[1..]);
    }
  }

  /** Every state reached by a run that follows the plan. */
  lemma ReachedPlan(cfg: Config, plan: Plan, run: seq<Step>, st: State)
    requires HexHashes(cfg) && Reached(cfg, run, st) && forall step | step in run :: FollowsPlan(plan, step)
    ensures Regular(cfg, st) && CacheInv(cfg, plan, st)
  {
    RunKeepsPlan(cfg, plan, State(START, map[]), run);
  }
}
