/**
  Exactly when requests for one video, with nothing else in between, can queue more than one
  download of it: when a session of the video points at a missing file and some request for
  it is neither rejected nor answered from the cache. Then only the queue bounds their number.
 */
module Sharing {
  import opened Jobs
  import opened VariantKey
  import opened Model
  import opened ApiModel
  import opened ApiInvariant
  import opened Effects
  import opened HandlerRuns
  import opened HandlerClaims
  import opened ConvertOutcome
  import opened Dedup

  // ------------------------------------------- what a sequence of requests keeps

  predicate Ready(g: Shared, v: string) {
    VariantOf(g.variants, v) != NoPath && OnDisk(g.files, VariantOf(g.variants, v))
  }

  /** A copy that points at a missing file is one of a session that did so in `g0`. */
  predicate CalmCopy(g0: Shared, s: Session) {
    Stale(g0, s) ==> s.id in g0.sessions && SameOrigin(g0.sessions[s.id], s) && Stale(g0, g0.sessions[s.id])
  }

  /** Since `g0`, no file has changed, no output has become reusable or stopped being so, and no session has become stale. */
  ghost predicate Calm(g0: Shared, g: Shared) {
    && g.files == g0.files && FiledById(g.sessions)
    && (forall v :: Ready(g, v) <==> Ready(g0, v))
    && (forall id | id in g.sessions :: CalmCopy(g0, g.sessions[id]))
  }

  predicate CalmPc(g0: Shared, g: Shared, pc: ConvertPc) {
    && (!pc.ConvDone? && !pc.ConvGet? ==> CalmCopy(g0, pc.s))
    && (pc.ConvVariantStat? ==> pc.out != NoPath && pc.out == VariantOf(g.variants, pc.s.variantHash))
    && (pc.ConvClear? ==> !Ready(g, pc.s.variantHash))
  }

  lemma StoreCalm(g0: Shared, g: Shared, s: Session)
    requires Calm(g0, g) && CalmCopy(g0, s)
    ensures Calm(g0, WithSession(g, s))
  {
  }

  lemma ClearCalm(g0: Shared, g: Shared, v: string)
    requires Calm(g0, g) && !Ready(g, v)
    ensures Calm(g0, g.(variants := g.variants[v := NoPath]))
  {
    var g' := g.(variants := g.variants[v := NoPath]);
    forall w ensures Ready(g', w) <==> Ready(g0, w) {
      assert Ready(g', w) <==> Ready(g, w);
    }
  }

  /** Calmness does not depend on assets, tasks and history. */
  lemma FrameCalm(g0: Shared, g: Shared, g': Shared)
    requires Calm(g0, g) && g'.files == g.files && g'.sessions == g.sessions && g'.variants == g.variants
    ensures Calm(g0, g')
  {
    forall w ensures Ready(g', w) <==> Ready(g0, w) {
      assert Ready(g', w) <==> Ready(g, w);
    }
  }

  lemma OutputStepCalm(cfg: Config, g0: Shared, g: Shared, pc: ConvertPc)
    requires LooksForOutput(pc) && Calm(g0, g) && CalmPc(g0, g, pc)
    ensures var (g', pc') := OutputSearch(cfg, g, pc); Calm(g0, g') && CalmPc(g0, g', pc')
  {
    var g' := OutputSearch(cfg, g, pc).0;
    if ConvertStores(pc).Some? {
      StoreCalm(g0, g, pc.s);
    } else if pc.ConvClear? {
      ClearCalm(g0, g, pc.s.variantHash);
    } else {
      FrameCalm(g0, g, g');
    }
  }

  lemma SourceStepCalm(cfg: Config, g0: Shared, g: Shared, pc: ConvertPc, n: Names)
    requires !LooksForOutput(pc) && Calm(g0, g) && CalmPc(g0, g, pc)
    ensures var (g', pc') := SourceSearch(cfg, g, pc, n); Calm(g0, g') && CalmPc(g0, g', pc')
  {
    var g' := SourceSearch(cfg, g, pc, n).0;
    if pc.ConvFinish? {
      StoreCalm(g0, g, pc.s);
    } else {
      assert g'.variants == g.variants && g'.files == g.files && g'.sessions == g.sessions;
      FrameCalm(g0, g, g');
    }
  }

  lemma {:induction false} SourceCalm(cfg: Config, g0: Shared, g: Shared, pc: ConvertPc, n: Names)
    requires !LooksForOutput(pc) && Calm(g0, g) && CalmPc(g0, g, pc)
    ensures Calm(g0, FinishSource(cfg, g, pc, n).0)
    decreases ConvertRank(pc)
  {
    if !pc.ConvDone? {
      var (g', pc') := SourceSearch(cfg, g, pc, n);
      SourceStepCalm(cfg, g0, g, pc, n);
      SourceCalm(cfg, g0, g', pc', n);
    }
  }

  lemma {:induction false} ConvertCalm(cfg: Config, g0: Shared, g: Shared, pc: ConvertPc, n: Names)
    requires Calm(g0, g) && CalmPc(g0, g, pc)
    ensures Calm(g0, FinishConvert(cfg, g, pc, n).0)
    decreases ConvertRank(pc)
  {
    if LooksForOutput(pc) {
      var (g', pc') := OutputSearch(cfg, g, pc);
      OutputStepCalm(cfg, g0, g, pc);
      ConvertCalm(cfg, g0, g', pc', n);
    } else {
      SourceCalm(cfg, g0, g, pc, n);
    }
  }

  lemma {:induction false} PrepareCalm(cfg: Config, g0: Shared, g: Shared, pc: PreparePc, n: Names)
    requires Calm(g0, g) && (pc.PrepDone? || pc.s.sourcePath == NoPath)
    ensures Calm(g0, FinishPrepare(cfg, g, pc, n).0)
    decreases PrepareRank(pc)
  {
    if !pc.PrepDone? {
      var (g', pc') := PrepareStep(cfg, g, pc, n);
      assert g'.variants == g.variants;
      PrepareEffect(cfg, g, pc, n);
      if !pc.PrepCreate? && PrepareStores(pc).None? {
        FrameCalm(g0, g, g');
      } else {
        StoreCalm(g0, g, pc.s);
      }
      PrepareCalm(cfg, g0, g', pc', n);
    }
  }

  lemma CallCalm(cfg: Config, g0: Shared, g: Shared, c: Call)
    requires Calm(g0, g)
    ensures Calm(g0, AfterCall(cfg, g, c))
  {
    match c
    case PrepareCall(id, url, duration, n) => PrepareCalm(cfg, g0, g, StartPrepare(cfg, id, url, duration), n);
    case ConvertCall(id, ask, n) => ConvertCalm(cfg, g0, g, ConvGet(id, ask), n);
  }

  // ------------------------------------------------------------ how queues grow

  /** A new job waits, if `queued`. */
  function Plus(tasks: map<string, Task>, queued: bool, job: Job): map<string, Task> {
    if queued then tasks[job.id := Task(job, Waiting, 0)] else tasks
  }

  lemma PlusQueues(tasks: map<string, Task>, queued: bool, job: Job)
    requires job.id !in tasks
    ensures InQueue(Plus(tasks, queued, job), job.kind) == InQueue(tasks, job.kind) + (if queued then {job.id} else {})
    ensures forall k | k != job.kind :: InQueue(Plus(tasks, queued, job), k) == InQueue(tasks, k)
  {
  }

  lemma PlusBothQueues(tasks: map<string, Task>, d: bool, dl: Job, c: bool, cv: Job)
    requires dl.id !in tasks && cv.id !in tasks && dl.id != cv.id && dl.kind == Download && cv.kind == Convert
    ensures var tasks' := Plus(Plus(tasks, d, dl), c, cv);
      && InQueue(tasks', Download) == InQueue(tasks, Download) + (if d then {dl.id} else {})
      && |InQueue(tasks', Convert)| == |InQueue(tasks, Convert)| + if c then 1 else 0
  {
    PlusQueues(tasks, d, dl);
    PlusQueues(Plus(tasks, d, dl), c, cv);
    assert cv.id !in InQueue(tasks, Convert);
  }

  predicate AsksFor(pc: ConvertPc, id: string, ask: Ask) {
    pc.ConvDone? || pc.ConvReuse? || pc.ConvFinish?
    || (pc.ask == ask && (if pc.ConvGet? then pc.id == id else pc.s.id == id))
  }

  /** This point or a later one may still queue the conversion. */
  predicate MayEnqueue(pc: ConvertPc) {
    BeforeQueue(pc) || pc.ConvEnqueue?
  }

  lemma SourceStepTasksAre(cfg: Config, g: Shared, pc: ConvertPc, n: Names, id: string, ask: Ask)
    requires !LooksForOutput(pc) && !pc.ConvDone? && AsksFor(pc, id, ask)
    ensures var (g', pc') := SourceSearch(cfg, g, pc, n);
      && AsksFor(pc', id, ask) && !LooksForOutput(pc')
      && (if pc.ConvDownload? then
            g'.tasks == Plus(g.tasks, HasRoom(cfg, g, Download), DownloadJob(n, id))
            && (if HasRoom(cfg, g, Download) then pc'.ConvEnqueue? else pc' == ConvDone(QueueFull))
          else if pc.ConvEnqueue? then
            g'.tasks == Plus(g.tasks, HasRoom(cfg, g, Convert), ConvertJob(n, id, ask))
            && (if HasRoom(cfg, g, Convert) then pc'.ConvFinish? else pc' == ConvDone(QueueFull))
          else g'.tasks == g.tasks && (if pc.ConvFinish? then pc'.ConvDone? else MayEnqueue(pc')))
  {
    SourceEffects(cfg, g, pc, n);
  }

  /** The tasks after the rest of the request. */
  lemma {:induction false} SourceTasksAre(cfg: Config, g: Shared, pc: ConvertPc, n: Names, id: string, ask: Ask, hash: string, room: bool)
    requires !LooksForOutput(pc) && AsksFor(pc, id, ask) && ConvertAbout(cfg, g, pc, hash)
    requires BeforeQueue(pc) ==> room == HasRoom(cfg, g, Download)
    ensures var (end, reply) := FinishSource(cfg, g, pc, n);
      var downloads := (ConvertReserves(cfg, g, pc) || pc.ConvDownload?) && room;
      end.tasks == Plus(Plus(g.tasks, downloads, DownloadJob(n, id)), reply == Accepted && MayEnqueue(pc), ConvertJob(n, id, ask))
    decreases ConvertRank(pc)
  {
    if !pc.ConvDone? {
      var (g', pc') := SourceSearch(cfg, g, pc, n);
      SourceStepTasksAre(cfg, g, pc, n, id, ask);
      SourceStepAbout(cfg, g, pc, n, hash);
      SourceStepReserves(cfg, g, pc, n, hash);
      SourceTasksAre(cfg, g', pc', n, id, ask, hash, room);
    }
  }

  lemma OutputStepAsks(cfg: Config, g: Shared, pc: ConvertPc, id: string, ask: Ask)
    requires LooksForOutput(pc) && AsksFor(pc, id, ask) && FiledById(g.sessions)
    ensures var (g', pc') := OutputSearch(cfg, g, pc);
      AsksFor(pc', id, ask) && FiledById(g'.sessions)
      && (LooksForOutput(pc') || pc'.ConvSource? || (pc'.ConvDone? && pc'.reply != Accepted))
  {
    OutputEffects(cfg, g, pc);
  }

  /** A convert request queues its download exactly when it needs one, and its conversion exactly when it is accepted. */
  lemma {:induction false} ConvertTasksAre(cfg: Config, g: Shared, pc: ConvertPc, n: Names, id: string, ask: Ask, hash: string)
    requires LooksForOutput(pc) && AsksFor(pc, id, ask) && FiledById(g.sessions) && ConvertAbout(cfg, g, pc, hash)
    ensures var (end, reply) := FinishConvert(cfg, g, pc, n);
      var downloads := ConvertReserves(cfg, g, pc) && HasRoom(cfg, g, Download);
      end.tasks == Plus(Plus(g.tasks, downloads, DownloadJob(n, id)), reply == Accepted, ConvertJob(n, id, ask))
    decreases ConvertRank(pc)
  {
    var (g', pc') := OutputSearch(cfg, g, pc);
    OutputStepAbout(cfg, g, pc, hash);
    OutputStepReserves(cfg, g, pc);
    OutputStepAsks(cfg, g, pc, id, ask);
    if LooksForOutput(pc') {
      ConvertTasksAre(cfg, g', pc', n, id, ask, hash);
    } else {
      SourceTasksAre(cfg, g', pc', n, id, ask, hash, HasRoom(cfg, g, Download));
    }
  }

  lemma PrepareStepTasksAre(cfg: Config, g: Shared, pc: PreparePc, n: Names)
    requires !pc.PrepDone?
    ensures var (g', pc') := PrepareStep(cfg, g, pc, n);
      && (if pc.PrepEnqueue? then pc'.PrepDone? && g'.tasks == Plus(g.tasks, HasRoom(cfg, g, Download), DownloadJob(n, pc.s.id))
          else g'.tasks == g.tasks && (pc'.PrepDone? || pc'.s.id == pc.s.id))
  {
    PrepareEffect(cfg, g, pc, n);
  }

  lemma {:induction false} PrepareTasksAre(cfg: Config, g: Shared, pc: PreparePc, n: Names, hash: string)
    requires PrepareAbout(cfg, pc, hash)
    ensures var end := FinishPrepare(cfg, g, pc, n).0;
      var downloads := (PrepareReserves(cfg, g, pc) || pc.PrepEnqueue?) && HasRoom(cfg, g, Download);
      end.tasks == Plus(g.tasks, downloads, DownloadJob(n, if pc.PrepDone? then "" else pc.s.id))
    decreases PrepareRank(pc)
  {
    if !pc.PrepDone? {
      var (g', pc') := PrepareStep(cfg, g, pc, n);
      PrepareStepTasksAre(cfg, g, pc, n);
      PrepareStepReserves(cfg, g, pc, n, hash);
      PrepareTasksAre(cfg, g', pc', n, hash);
    }
  }

  /** Will the call ask for a download? */
  predicate Reserves(cfg: Config, g: Shared, c: Call) {
    match c
    case PrepareCall(id, url, duration, n) => PrepareReserves(cfg, g, StartPrepare(cfg, id, url, duration))
    case ConvertCall(id, ask, n) => ConvertReserves(cfg, g, ConvGet(id, ask))
  }

  /** A call queues its download exactly when it needs one and there is room; a refused one leaves the asset marked. */
  lemma CallDownloads(cfg: Config, g: Shared, c: Call, hash: string)
    requires FreshNames(g, c.n) && About(cfg, g, c, hash) && FiledById(g.sessions)
    ensures var end := AfterCall(cfg, g, c);
      var queued := Reserves(cfg, g, c) && HasRoom(cfg, g, Download);
      && NewDownloads(end, c) == (if queued then 1 else 0)
      && InQueue(end.tasks, Download) == InQueue(g.tasks, Download) + (if queued then {c.n.download} else {})
      && AssetOf(end.assets, hash) == (if Reserves(cfg, g, c) then Asset(NoPath, AssetPreparing) else AssetOf(g.assets, hash))
  {
    var queued := Reserves(cfg, g, c) && HasRoom(cfg, g, Download);
    match c
    case PrepareCall(id, url, duration, n) =>
      PrepareDownloadsIff(cfg, g, StartPrepare(cfg, id, url, duration), n, hash, HasRoom(cfg, g, Download));
      PrepareTasksAre(cfg, g, StartPrepare(cfg, id, url, duration), n, hash);
      PlusQueues(g.tasks, queued, DownloadJob(n, id));
    case ConvertCall(id, ask, n) =>
      ConvertDownloadsIff(cfg, g, id, ask, n, hash);
      ConvertTasksAre(cfg, g, ConvGet(id, ask), n, id, ask, hash);
      var accepted := FinishConvert(cfg, g, ConvGet(id, ask), n).1 == Accepted;
      PlusBothQueues(g.tasks, queued, DownloadJob(n, id), accepted, ConvertJob(n, id, ask));
  }

  /** A convert request takes a place in the convert queue exactly when it is accepted. */
  lemma AcceptedTakesPlace(cfg: Config, g: Shared, id: string, ask: Ask, n: Names)
    requires FreshNames(g, n) && FiledById(g.sessions)
    ensures var (end, reply) := FinishConvert(cfg, g, ConvGet(id, ask), n);
      |InQueue(end.tasks, Convert)| == |InQueue(g.tasks, Convert)| + if reply == Accepted then 1 else 0
  {
    var hash := if id in g.sessions then AssetHash(cfg, g.sessions[id].url) else "";
    ConvertTasksAre(cfg, g, ConvGet(id, ask), n, id, ask, hash);
    var queued := ConvertReserves(cfg, g, ConvGet(id, ask)) && HasRoom(cfg, g, Download);
    var accepted := FinishConvert(cfg, g, ConvGet(id, ask), n).1 == Accepted;
    PlusBothQueues(g.tasks, queued, DownloadJob(n, id), accepted, ConvertJob(n, id, ask));
  }

  // ------------------------------------------- what a second download takes

  /** Session `id` of the video points at a missing file, and `ask` is allowed and not answered from the cache. */
  predicate Triggers(cfg: Config, g: Shared, hash: string, id: string, ask: Ask) {
    && id in g.sessions && AssetHash(cfg, g.sessions[id].url) == hash && Stale(g, g.sessions[id])
    && ConvertAllowed(cfg, g.sessions[id], ask.clip)
    && !Ready(g, VariantHash(cfg, hash, ask.clip))
  }

  ghost predicate Triggered(cfg: Config, g: Shared, hash: string) {
    exists id, ask :: Triggers(cfg, g, hash, id, ask)
  }

  /** Without a trigger, every download is paid for by the one credit of a missing asset. */
  lemma UntriggeredCall(cfg: Config, g0: Shared, g: Shared, c: Call, hash: string)
    requires Calm(g0, g) && FreshNames(g, c.n) && About(cfg, g, c, hash) && !Triggered(cfg, g0, hash)
    ensures NewDownloads(AfterCall(cfg, g, c), c) + Credit(AfterCall(cfg, g, c), hash) <= Credit(g, hash)
  {
    CallIsPaidFor(cfg, g, c, hash);
    if StaleHit(g, c) == 1 {
      var s := g.sessions[c.id];
      assert CalmCopy(g0, s);
      assert !Triggers(cfg, g0, hash, c.id, c.ask);
      ConvertDownloadsIff(cfg, g, c.id, c.ask, c.n, hash);
      assert Ready(g, VariantHash(cfg, hash, c.ask.clip)) <==> Ready(g0, VariantHash(cfg, hash, c.ask.clip));
      assert !ConvertReserves(cfg, g, ConvGet(c.id, c.ask));
      CallCalm(cfg, g, g, c);
    }
  }

  lemma {:induction false} UntriggeredSequence(cfg: Config, g0: Shared, g: Shared, calls: seq<Call>, hash: string)
    requires Calm(g0, g) && IsSequence(cfg, g, calls, hash) && !Triggered(cfg, g0, hash)
    ensures TotalQueued(cfg, g, calls) <= Credit(g, hash)
    decreases |calls|
  {
    if calls != [] {
      UntriggeredCall(cfg, g0, g, calls[0], hash);
      CallCalm(cfg, g0, g, calls[0]);
      UntriggeredSequence(cfg, g0, AfterCall(cfg, g, calls[0]), calls[1..], hash);
    }
  }

  /** The queue bounds the number of downloads in any case. */
  lemma {:induction false} QueueBounds(cfg: Config, g: Shared, calls: seq<Call>, hash: string)
    requires IsSequence(cfg, g, calls, hash) && FiledById(g.sessions) && Calm(g, g)
    ensures TotalQueued(cfg, g, calls) > 0 ==> |InQueue(g.tasks, Download)| + TotalQueued(cfg, g, calls) <= cfg.capacity
    decreases |calls|
  {
    if calls != [] {
      var c := calls[0];
      var g' := AfterCall(cfg, g, c);
      CallDownloads(cfg, g, c, hash);
      CallCalm(cfg, g, g, c);
      assert c.n.download !in InQueue(g.tasks, Download);
      SelfCalm(g');
      QueueBounds(cfg, g', calls[1..], hash);
    }
  }

  lemma SelfCalm(g: Shared)
    requires FiledById(g.sessions)
    ensures Calm(g, g)
  {
  }
}
