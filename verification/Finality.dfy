/**
  Completed and failed are not final states: exactly which steps take a stored session out of them.
 */
module Finality {
  import opened Jobs
  import opened Options
  import opened Model
  import opened ApiModel
  import opened ApiInvariant
  import opened Effects
  import opened Identity

  predicate Final(s: Session) {
    s.state == Completed || s.state == Failed
  }

  predicate StaysFinal(sessions: Sessions, id: string) {
    id in sessions && Final(sessions[id])
  }

  // ------------------------------------- the state that each program stores

  /** A copy that the program has given a state of its own; other copies keep the state they were read with. */
  predicate RequestStage(r: Request) {
    match r
    case OnPrepare(p) => p.PrepDone? || p.PrepCreate? || p.s.state == Created
    case OnConvert(c) =>
      && (c.ConvReuse? ==> c.s.state == Completed)
      && (c.ConvFinish? ==> c.s.state == Converting || c.s.state == Queued)
    case OnStatus(q) => q.StatusFail? ==> q.s.state == Failed
    case OnDelete(_) => true
  }

  predicate PlaceStage(p: Place) {
    match p
    case Fetching(f) =>
      && (f.DlMark? ==> f.s.state == Downloading)
      && (f.DlSave? ==> f.s.state == Downloaded)
      && (f.DlFail? ==> f.s.state == Failed)
    case Encoding(e) =>
      && (e.CvHydrate? ==> e.s.state == Downloaded)
      && (e.CvStart? ==> e.s.state == Converting)
      && (e.CvSave? ==> e.s.state == Completed)
      && (e.CvFail? ==> e.s.state == Failed)
    case _ => true
  }

  ghost predicate StageInv(st: State) {
    && (forall r | r in st.requests :: RequestStage(st.requests[r]))
    && (forall j | j in st.g.tasks :: PlaceStage(st.g.tasks[j].place))
  }

  lemma ConvertStage(cfg: Config, g: Shared, pc: ConvertPc, n: Names)
    ensures RequestStage(OnConvert(ConvertStep(cfg, g, pc, n).1)) || pc.ConvDone?
  {
  }

  lemma RequestKeepsStage(cfg: Config, g: Shared, r: Request, n: Names)
    requires RequestStage(r)
    ensures RequestStage(RequestStep(cfg, g, r, n).1)
  {
    match r
    case OnPrepare(p) =>
    case OnConvert(c) => ConvertStage(cfg, g, c, n);
    case OnStatus(q) =>
    case OnDelete(d) =>
  }

  lemma FetchStage(cfg: Config, g: Shared, t: Task, pc: FetchPc, tool: Tool)
    ensures PlaceStage(DownloadStep(cfg, g, t, pc, tool).1.place)
  {
  }

  lemma SeekStage(cfg: Config, g: Shared, t: Task, pc: EncodePc, n: Names)
    requires SeeksSource(pc)
    ensures PlaceStage(SeekStep(cfg, g, t, pc, n).1.place)
  {
  }

  lemma EncodeStage(cfg: Config, g: Shared, t: Task, pc: EncodePc, tool: Tool)
    requires !SeeksSource(pc)
    ensures PlaceStage(EncodeStep(cfg, g, t, pc, tool).1.place)
  {
  }

  lemma StepKeepsStage(cfg: Config, st: State, step: Step)
    requires StageInv(st) && Enabled(st, step)
    ensures StageInv(Next(cfg, st, step))
  {
    match step
    case Proceed(r, n) =>
      RequestKeepsStage(cfg, st.g, st.requests[r], n);
      RequestAdds(cfg, st.g, st.requests[r], n);
    case Labour(j, tool, n) =>
      var t := st.g.tasks[j];
      if t.place.Fetching? {
        FetchStage(cfg, st.g, t, t.place.f, tool);
      } else if SeeksSource(t.place.e) {
        SeekStage(cfg, st.g, t, t.place.e, n);
      } else {
        EncodeStage(cfg, st.g, t, t.place.e, tool);
      }
      var mid := WorkAdds(cfg, st.g, j, tool, n);
    case _ =>
  }

  lemma {:induction false} RunKeepsStage(cfg: Config, st: State, run: seq<Step>)
    requires StageInv(st) && IsRun(cfg, st, run)
    ensures StageInv(AfterRun(cfg, st, run))
    decreases |run|
  {
    if run != [] {
      StepKeepsStage(cfg, st, run[0]);
      RunKeepsStage(cfg, Next(cfg, st, run[0]), run[1..]);
    }
  }

  // ------------------------------------------------------------ leaving finality

  /** The request is about to remove session `id` or to store a copy of it that is not final. */
  predicate RequestReopens(r: Request, id: string) {
    match r
    case OnPrepare(p) => (p.PrepMark? || p.PrepHash?) && p.s.id == id
    case OnConvert(c) =>
      && (c.ConvFinish? || ((c.ConvHash? || c.ConvForget?) && !Final(c.s)))
      && c.s.id == id
    case OnStatus(_) => false
    case OnDelete(d) => Removes(d) == Some(id)
  }

  /** The worker is about to store a copy of session `id` that is not final. */
  predicate WorkReopens(p: Place, id: string) {
    match p
    case Fetching(f) => (f.DlMark? || f.DlSave?) && f.s.id == id
    case Encoding(e) => (e.CvHydrate? || e.CvStart? || (e.CvForget? && !Final(e.s))) && e.s.id == id
    case _ => false
  }

  predicate Reopens(st: State, step: Step, id: string) {
    match step
    case Proceed(r, _) => r in st.requests && RequestReopens(st.requests[r], id)
    case Labour(j, _, _) => j in st.g.tasks && WorkReopens(st.g.tasks[j].place, id)
    case _ => false
  }

  /** Storing a copy ends finality exactly when the copy is of this session and not final. */
  lemma StoringReopens(sessions: Sessions, o: Option<Session>, id: string)
    requires StaysFinal(sessions, id)
    ensures StaysFinal(Stored(sessions, o), id) <==> !(o.Some? && o.value.id == id && !Final(o.value))
  {
  }

  lemma RequestLeavesFinal(cfg: Config, g: Shared, r: Request, n: Names, id: string)
    requires RequestStage(r) && StaysFinal(g.sessions, id)
    ensures StaysFinal(RequestStep(cfg, g, r, n).0.sessions, id) <==> !RequestReopens(r, id)
  {
    if !r.OnDelete? {
      StoringReopens(g.sessions, RequestStores(r), id);
    }
    match r
    case OnPrepare(p) => PrepareEffect(cfg, g, p, n);
    case OnConvert(c) =>
      if LooksForOutput(c) {
        OutputEffects(cfg, g, c);
      } else {
        SourceEffects(cfg, g, c, n);
      }
    case OnStatus(q) => StatusEffect(g, q);
    case OnDelete(d) => DeleteEffect(g, d);
  }

  lemma WorkLeavesFinal(cfg: Config, g: Shared, j: string, tool: Tool, n: Names, id: string)
    requires j in g.tasks && AtWork(g.tasks[j].place) && PlaceStage(g.tasks[j].place) && StaysFinal(g.sessions, id)
    ensures StaysFinal(WorkStep(cfg, g, j, tool, n).sessions, id) <==> !WorkReopens(g.tasks[j].place, id)
  {
    var t := g.tasks[j];
    StoringReopens(g.sessions, PlaceStores(t.place), id);
    match t.place
    case Fetching(f) => DownloadEffect(cfg, g, t, f, tool);
    case Encoding(e) =>
      if SeeksSource(e) {
        SeekEffect(cfg, g, t, e, n);
      } else {
        EncodeEffect(cfg, g, t, e, tool);
      }
  }

  /**
    In every reached state, a stored session that is completed or failed stops being so in
    the next step exactly if that step deletes it, is the start or the success of a download of it,
    attaches a source to it or starts its conversion, queues a new conversion of it, or writes
    back a copy that was read before it became final.
   */
  lemma LeavesFinalIff(cfg: Config, run: seq<Step>, st: State, step: Step, id: string)
    requires Reached(cfg, run, st) && Enabled(st, step) && StaysFinal(st.g.sessions, id)
    ensures StaysFinal(Next(cfg, st, step).g.sessions, id) <==> !Reopens(st, step, id)
  {
    RunKeepsStage(cfg, State(START, map[]), run);
    match step
    case Proceed(r, n) => RequestLeavesFinal(cfg, st.g, st.requests[r], n, id);
    case Labour(j, tool, n) => WorkLeavesFinal(cfg, st.g, j, tool, n, id);
    case _ =>
  }
}
