/** What single steps of the handlers do to the stored sessions and to the tasks. */
module Effects {
  import opened Jobs
  import opened Options
  import opened Model
  import opened ApiModel

  /** UpdateSession, or no call at all. */
  function Stored(sessions: Sessions, s: Option<Session>): Sessions {
    match s
    case None => sessions
    case Some(copy) => Updated(sessions, copy)
  }

  /** The copy that the next step of a program hands to UpdateSession. */
  function PrepareStores(pc: PreparePc): Option<Session> {
    if pc.PrepMark? || pc.PrepHash? then Some(pc.s) else None
  }

  function ConvertStores(pc: ConvertPc): Option<Session> {
    if pc.ConvHash? || pc.ConvReuse? || pc.ConvForget? || pc.ConvFinish? then Some(pc.s) else None
  }

  function StatusStores(pc: StatusPc): Option<Session> {
    if pc.StatusFail? then Some(pc.s) else None
  }

  function FetchStores(pc: FetchPc): Option<Session> {
    if pc.DlMark? || pc.DlFail? || pc.DlSave? then Some(pc.s) else None
  }

  function EncodeStores(pc: EncodePc): Option<Session> {
    if pc.CvHydrate? || pc.CvForget? || pc.CvStart? || pc.CvFail? || pc.CvSave? then Some(pc.s) else None
  }

  function RequestStores(r: Request): Option<Session> {
    match r
    case OnPrepare(p) => PrepareStores(p)
    case OnConvert(c) => ConvertStores(c)
    case OnStatus(q) => StatusStores(q)
    case OnDelete(_) => None
  }

  function PlaceStores(p: Place): Option<Session> {
    match p
    case Fetching(f) => FetchStores(f)
    case Encoding(e) => EncodeStores(e)
    case _ => None
  }

  /** The id that the next step removes. */
  function Removes(pc: DeletePc): Option<string> {
    match pc
    case DelMissing(id) => Some(id)
    case DelStore(s) => Some(s.id)
    case _ => None
  }

  lemma PrepareEffect(cfg: Config, g: Shared, pc: PreparePc, n: Names)
    ensures var g' := PrepareStep(cfg, g, pc, n).0;
      && g'.sessions == (if pc.PrepCreate? then Inserted(g.sessions, pc.s) else Stored(g.sessions, PrepareStores(pc)))
      && g'.files == g.files && g'.urls == g.urls
      && g'.tasks == (if pc.PrepEnqueue? then Offered(cfg, g, DownloadJob(n, pc.s.id)).tasks else g.tasks)
  {
  }

  lemma OutputEffects(cfg: Config, g: Shared, pc: ConvertPc)
    requires LooksForOutput(pc)
    ensures var g' := OutputSearch(cfg, g, pc).0;
      g'.sessions == Stored(g.sessions, ConvertStores(pc)) && g'.files == g.files && g'.urls == g.urls && g'.tasks == g.tasks
  {
  }

  lemma SourceEffects(cfg: Config, g: Shared, pc: ConvertPc, n: Names)
    requires !LooksForOutput(pc)
    ensures var g' := SourceSearch(cfg, g, pc, n).0;
      && g'.sessions == Stored(g.sessions, ConvertStores(pc)) && g'.files == g.files && g'.urls == g.urls
      && g'.tasks == (if pc.ConvDownload? then Offered(cfg, g, DownloadJob(n, pc.s.id)).tasks
                      else if pc.ConvEnqueue? then Offered(cfg, g, ConvertJob(n, pc.s.id, pc.ask)).tasks
                      else g.tasks)
  {
  }

  lemma StatusEffect(g: Shared, pc: StatusPc)
    ensures var g' := StatusStep(g, pc).0;
      g'.sessions == Stored(g.sessions, StatusStores(pc)) && g'.files == g.files && g'.urls == g.urls && g'.tasks == g.tasks
  {
  }

  lemma DeleteEffect(g: Shared, pc: DeletePc)
    ensures var g' := DeleteStep(g, pc).0;
      && g'.sessions == (if Removes(pc).Some? then Removed(g.sessions, Removes(pc).value) else g.sessions)
      && g'.urls == g.urls && g'.tasks == g.tasks && g'.assets == g.assets
  {
  }

  lemma DownloadEffect(cfg: Config, g: Shared, t: Task, pc: FetchPc, tool: Tool)
    ensures var g' := DownloadStep(cfg, g, t, pc, tool).0;
      g'.sessions == Stored(g.sessions, FetchStores(pc)) && g'.urls == g.urls && g'.tasks == g.tasks
  {
    match pc
    case DlGet =>
    case DlMark(s) =>
    case DlTool(s) =>
    case DlFail(s) =>
    case DlFailAsset(s) =>
    case DlSave(s) =>
    case DlAsset(s) =>
  }

  lemma SeekEffect(cfg: Config, g: Shared, t: Task, pc: EncodePc, n: Names)
    requires SeeksSource(pc)
    ensures var g' := SeekStep(cfg, g, t, pc, n).0;
      && g'.sessions == Stored(g.sessions, EncodeStores(pc)) && g'.files == g.files && g'.urls == g.urls
      && g'.tasks == (if pc.CvDownload? then Offered(cfg, g, DownloadJob(n, pc.s.id)).tasks else g.tasks)
  {
  }

  lemma EncodeEffect(cfg: Config, g: Shared, t: Task, pc: EncodePc, tool: Tool)
    requires !SeeksSource(pc)
    ensures var g' := EncodeStep(cfg, g, t, pc, tool).0;
      g'.sessions == Stored(g.sessions, EncodeStores(pc)) && g'.urls == g.urls && g'.tasks == g.tasks
  {
    match pc
    case CvGuard(s) =>
    case CvExpireOwn(s) =>
    case CvForget(s) =>
    case CvStart(s) =>
    case CvTool(s) =>
    case CvFail(s) =>
    case CvSave(s) =>
    case CvPublish(s) =>
  }
}
