/**
  A session id keeps its URL for ever: every stored session, every local copy and every job
  agrees with the URL for which the id was drawn, also after the session has been deleted.
 */
module Identity {
  import opened Jobs
  import opened Model
  import opened ApiModel
  import opened ApiInvariant
  import opened ApiRetries
  import opened Effects
  import opened Options

  type Urls = map<string, string>

  predicate Known(urls: Urls, s: Session) {
    s.id in urls && urls[s.id] == s.url
  }

  predicate RequestKnown(urls: Urls, r: Request) {
    match r
    case OnPrepare(p) => p.PrepDone? || Known(urls, p.s)
    case OnConvert(c) => c.ConvGet? || c.ConvDone? || Known(urls, c.s)
    case OnStatus(q) => q.StatusGet? || q.StatusDone? || Known(urls, q.s)
    case OnDelete(d) => true
  }

  predicate PlaceKnown(urls: Urls, p: Place) {
    match p
    case Fetching(f) => f.DlGet? || Known(urls, f.s)
    case Encoding(e) => e.CvGet? || Known(urls, e.s)
    case _ => true
  }

  predicate TaskKnown(urls: Urls, t: Task) {
    t.job.sessionId in urls && PlaceKnown(urls, t.place)
  }

  ghost predicate AllKnown(urls: Urls, sessions: Sessions) {
    forall id | id in sessions :: Known(urls, sessions[id]) && sessions[id].id == id
  }

  ghost predicate TasksKnown(urls: Urls, tasks: map<string, Task>) {
    forall j | j in tasks :: TaskKnown(urls, tasks[j])
  }

  ghost predicate RequestsKnown(urls: Urls, requests: map<nat, Request>) {
    forall r | r in requests :: RequestKnown(urls, requests[r])
  }

  ghost predicate IdentityInv(st: State) {
    && AllKnown(st.g.urls, st.g.sessions)
    && TasksKnown(st.g.urls, st.g.tasks)
    && RequestsKnown(st.g.urls, st.requests)
  }

  /** Ids are only ever added. */
  predicate Extends(urls: Urls, urls': Urls) {
    forall id | id in urls :: id in urls' && urls'[id] == urls[id]
  }

  /** Whatever is new in `tasks'` belongs to a known session. */
  ghost predicate AddsKnown(urls: Urls, tasks: map<string, Task>, tasks': map<string, Task>) {
    forall j | j in tasks' :: (j in tasks && tasks'[j] == tasks[j]) || TaskKnown(urls, tasks'[j])
  }

  lemma StoreKnown(urls: Urls, sessions: Sessions, s: Session)
    requires AllKnown(urls, sessions) && Known(urls, s)
    ensures AllKnown(urls, Updated(sessions, s)) && AllKnown(urls, Inserted(sessions, s))
  {
  }

  lemma OfferKnown(cfg: Config, g: Shared, job: Job)
    requires job.sessionId in g.urls
    ensures AddsKnown(g.urls, g.tasks, Offered(cfg, g, job).tasks)
  {
  }

  lemma PrepareKeepsUrls(cfg: Config, g: Shared, pc: PreparePc, n: Names)
    requires AllKnown(g.urls, g.sessions) && RequestKnown(g.urls, OnPrepare(pc))
    ensures var (g', pc') := PrepareStep(cfg, g, pc, n);
      && g'.urls == g.urls && AllKnown(g.urls, g'.sessions) && RequestKnown(g.urls, OnPrepare(pc'))
      && AddsKnown(g.urls, g.tasks, g'.tasks)
  {
    if pc.PrepEnqueue? {
      OfferKnown(cfg, g, DownloadJob(n, pc.s.id));
    } else if pc.PrepCreate? || pc.PrepMark? || pc.PrepHash? {
      StoreKnown(g.urls, g.sessions, pc.s);
    }
  }

  lemma OutputSearchKeepsUrls(cfg: Config, g: Shared, pc: ConvertPc)
    requires AllKnown(g.urls, g.sessions) && RequestKnown(g.urls, OnConvert(pc))
    ensures var (g', pc') := OutputSearch(cfg, g, pc);
      && g'.urls == g.urls && AllKnown(g.urls, g'.sessions) && RequestKnown(g.urls, OnConvert(pc'))
      && g'.tasks == g.tasks
  {
    if pc.ConvHash? || pc.ConvReuse? || pc.ConvForget? {
      StoreKnown(g.urls, g.sessions, pc.s);
    }
  }

  lemma SourceSearchKeepsUrls(cfg: Config, g: Shared, pc: ConvertPc, n: Names)
    requires AllKnown(g.urls, g.sessions) && RequestKnown(g.urls, OnConvert(pc))
    ensures var (g', pc') := SourceSearch(cfg, g, pc, n);
      && g'.urls == g.urls && AllKnown(g.urls, g'.sessions) && RequestKnown(g.urls, OnConvert(pc'))
      && AddsKnown(g.urls, g.tasks, g'.tasks)
  {
    if pc.ConvDownload? {
      OfferKnown(cfg, g, DownloadJob(n, pc.s.id));
    } else if pc.ConvEnqueue? {
      OfferKnown(cfg, g, ConvertJob(n, pc.s.id, pc.ask));
    } else if pc.ConvFinish? {
      StoreKnown(g.urls, g.sessions, pc.s);
    }
  }

  lemma StatusKeepsUrls(g: Shared, pc: StatusPc)
    requires AllKnown(g.urls, g.sessions) && RequestKnown(g.urls, OnStatus(pc))
    ensures var (g', pc') := StatusStep(g, pc);
      && g'.urls == g.urls && AllKnown(g.urls, g'.sessions) && RequestKnown(g.urls, OnStatus(pc'))
      && g'.tasks == g.tasks
  {
    if pc.StatusFail? {
      StoreKnown(g.urls, g.sessions, pc.s);
    }
  }

  lemma DeleteKeepsUrls(g: Shared, pc: DeletePc)
    requires AllKnown(g.urls, g.sessions)
    ensures var g' := DeleteStep(g, pc).0;
      g'.urls == g.urls && AllKnown(g.urls, g'.sessions) && g'.tasks == g.tasks
  {
  }

  lemma RequestKeepsUrls(cfg: Config, g: Shared, r: Request, n: Names)
    requires AllKnown(g.urls, g.sessions) && RequestKnown(g.urls, r)
    ensures var (g', r') := RequestStep(cfg, g, r, n);
      && g'.urls == g.urls && AllKnown(g.urls, g'.sessions) && RequestKnown(g.urls, r')
      && AddsKnown(g.urls, g.tasks, g'.tasks)
  {
    match r
    case OnPrepare(p) => PrepareKeepsUrls(cfg, g, p, n);
    case OnConvert(c) =>
      if LooksForOutput(c) {
        OutputSearchKeepsUrls(cfg, g, c);
      } else {
        SourceSearchKeepsUrls(cfg, g, c, n);
      }
    case OnStatus(q) => StatusKeepsUrls(g, q);
    case OnDelete(d) => DeleteKeepsUrls(g, d);
  }

  lemma DownloadKeepsUrls(cfg: Config, g: Shared, t: Task, pc: FetchPc, tool: Tool)
    requires AllKnown(g.urls, g.sessions) && PlaceKnown(g.urls, Fetching(pc))
    ensures var g' := DownloadStep(cfg, g, t, pc, tool).0;
      g'.urls == g.urls && AllKnown(g.urls, g'.sessions) && g'.tasks == g.tasks
  {
    DownloadEffect(cfg, g, t, pc, tool);
    if FetchStores(pc).Some? {
      StoreKnown(g.urls, g.sessions, pc.s);
    }
  }

  lemma DownloadKeepsTaskKnown(cfg: Config, g: Shared, t: Task, tool: Tool)
    requires AllKnown(g.urls, g.sessions) && TaskKnown(g.urls, t) && t.place.Fetching?
    ensures TaskKnown(g.urls, DownloadStep(cfg, g, t, t.place.f, tool).1)
  {
  }

  lemma SeekKeepsUrls(cfg: Config, g: Shared, t: Task, pc: EncodePc, n: Names)
    requires AllKnown(g.urls, g.sessions) && PlaceKnown(g.urls, Encoding(pc)) && SeeksSource(pc)
    ensures var g' := SeekStep(cfg, g, t, pc, n).0;
      g'.urls == g.urls && AllKnown(g.urls, g'.sessions) && AddsKnown(g.urls, g.tasks, g'.tasks)
  {
    SeekEffect(cfg, g, t, pc, n);
    if pc.CvDownload? {
      OfferKnown(cfg, g, DownloadJob(n, pc.s.id));
    } else if pc.CvHydrate? {
      StoreKnown(g.urls, g.sessions, pc.s);
    }
  }

  lemma SeekKeepsTaskKnown(cfg: Config, g: Shared, t: Task, n: Names)
    requires AllKnown(g.urls, g.sessions) && TaskKnown(g.urls, t) && t.place.Encoding?
    ensures TaskKnown(g.urls, SeekStep(cfg, g, t, t.place.e, n).1)
  {
  }

  lemma EncodeKeepsUrls(cfg: Config, g: Shared, t: Task, pc: EncodePc, tool: Tool)
    requires AllKnown(g.urls, g.sessions) && PlaceKnown(g.urls, Encoding(pc)) && !SeeksSource(pc)
    ensures var g' := EncodeStep(cfg, g, t, pc, tool).0;
      g'.urls == g.urls && AllKnown(g.urls, g'.sessions) && g'.tasks == g.tasks
  {
    EncodeEffect(cfg, g, t, pc, tool);
    if EncodeStores(pc).Some? {
      StoreKnown(g.urls, g.sessions, pc.s);
    }
  }

  lemma EncodeKeepsTaskKnown(cfg: Config, g: Shared, t: Task, tool: Tool)
    requires TaskKnown(g.urls, t) && t.place.Encoding?
    ensures TaskKnown(g.urls, EncodeStep(cfg, g, t, t.place.e, tool).1)
  {
  }

  lemma WorkKeepsUrls(cfg: Config, g: Shared, j: string, tool: Tool, n: Names)
    requires AllKnown(g.urls, g.sessions) && TasksKnown(g.urls, g.tasks) && j in g.tasks && AtWork(g.tasks[j].place)
    ensures var g' := WorkStep(cfg, g, j, tool, n);
      g'.urls == g.urls && AllKnown(g.urls, g'.sessions) && TasksKnown(g.urls, g'.tasks)
  {
    var t := g.tasks[j];
    if t.place.Fetching? {
      DownloadKeepsUrls(cfg, g, t, t.place.f, tool);
      DownloadKeepsTaskKnown(cfg, g, t, tool);
    } else if SeeksSource(t.place.e) {
      SeekKeepsUrls(cfg, g, t, t.place.e, n);
      SeekKeepsTaskKnown(cfg, g, t, n);
    } else {
      EncodeKeepsUrls(cfg, g, t, t.place.e, tool);
      EncodeKeepsTaskKnown(cfg, g, t, tool);
    }
  }

  lemma DrawKeepsUrls(st: State, urls: Urls)
    requires IdentityInv(st) && Extends(st.g.urls, urls)
    ensures IdentityInv(st.(g := st.g.(urls := urls)))
  {
    forall j | j in st.g.tasks ensures TaskKnown(urls, st.g.tasks[j]) {
      assert TaskKnown(st.g.urls, st.g.tasks[j]);
    }
    forall r | r in st.requests ensures RequestKnown(urls, st.requests[r]) {
      assert RequestKnown(st.g.urls, st.requests[r]);
    }
  }

  lemma StepKeepsUrls(cfg: Config, st: State, step: Step)
    requires IdentityInv(st) && Enabled(st, step)
    ensures IdentityInv(Next(cfg, st, step)) && Extends(st.g.urls, Next(cfg, st, step).g.urls)
  {
    match step
    case BeginPrepare(r, id, url, duration) => DrawKeepsUrls(st, st.g.urls[id := url]);
    case Proceed(r, n) => RequestKeepsUrls(cfg, st.g, st.requests[r], n);
    case Labour(j, tool, n) => WorkKeepsUrls(cfg, st.g, j, tool, n);
    case _ =>
  }

  lemma {:induction false} RunKeepsUrls(cfg: Config, st: State, run: seq<Step>)
    requires IdentityInv(st) && IsRun(cfg, st, run)
    ensures IdentityInv(AfterRun(cfg, st, run)) && Extends(st.g.urls, AfterRun(cfg, st, run).g.urls)
    decreases |run|
  {
    if run != [] {
      StepKeepsUrls(cfg, st, run[0]);
      RunKeepsUrls(cfg, Next(cfg, st, run[0]), run[1..]);
    }
  }

  lemma ReachedIdentity(cfg: Config, run: seq<Step>, st: State)
    requires Reached(cfg, run, st)
    ensures IdentityInv(st)
  {
    RunKeepsUrls(cfg, State(START, map[]), run);
  }

  /** What holds of every reached state, whatever is asked for. */
  ghost predicate Regular(cfg: Config, st: State) {
    HexHashes(cfg) && Inv(cfg, st) && TasksOk(cfg, st.g.tasks) && IdentityInv(st)
  }

  lemma StepKeepsRegular(cfg: Config, st: State, step: Step)
    requires Regular(cfg, st) && Enabled(st, step)
    ensures Regular(cfg, Next(cfg, st, step))
  {
    StepKeepsInv(cfg, st, step);
    StepKeepsTasks(cfg, st, step);
    StepKeepsUrls(cfg, st, step);
  }

  /** Whatever happens between two moments, a session that is stored at both has the same URL. */
  lemma UrlNeverChanges(cfg: Config, run: seq<Step>, st: State, more: seq<Step>, id: string)
    requires Reached(cfg, run, st) && IsRun(cfg, st, more)
    requires id in st.g.sessions && id in AfterRun(cfg, st, more).g.sessions
    ensures AfterRun(cfg, st, more).g.sessions[id].url == st.g.sessions[id].url
    ensures id in st.g.urls && st.g.sessions[id].url == st.g.urls[id]
  {
    ReachedIdentity(cfg, run, st);
    RunKeepsUrls(cfg, st, more);
  }
}
