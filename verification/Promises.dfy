/**
  An asset that is marked as being prepared: exactly when some download of it is still to come.
 */
module Promises {
  import opened Jobs
  import opened Options
  import opened Model
  import opened ApiModel
  import opened ApiInvariant
  import opened ApiRetries
  import opened Effects
  import opened Identity

  predicate IsPreparing(assets: map<string, Asset>, h: string) {
    AssetOf(assets, h).state == AssetPreparing
  }

  /** The job is of a session of the asset. */
  predicate JobOf(cfg: Config, urls: Urls, job: Job, h: string) {
    job.sessionId in urls && AssetHash(cfg, urls[job.sessionId]) == h
  }

  /** A live download job of the asset, or a converting worker between its mark and its Enqueue. */
  predicate TaskHolds(cfg: Config, urls: Urls, t: Task, h: string) {
    match t.place
    case Waiting => t.job.kind == Download && JobOf(cfg, urls, t.job, h)
    case Sleeping => t.job.kind == Download && JobOf(cfg, urls, t.job, h)
    case Fetching(_) => JobOf(cfg, urls, t.job, h)
    case Encoding(e) => e.CvDownload? && e.s.assetHash == h
    case Ended(_) => false
  }

  /** A request between its mark and its Enqueue. */
  predicate RequestHolds(r: Request, h: string) {
    match r
    case OnPrepare(p) => p.PrepEnqueue? && p.s.assetHash == h
    case OnConvert(c) => c.ConvDownload? && c.s.assetHash == h
    case _ => false
  }

  ghost predicate Promised(cfg: Config, st: State, h: string) {
    || (exists j :: j in st.g.tasks && TaskHolds(cfg, st.g.urls, st.g.tasks[j], h))
    || (exists r :: r in st.requests && RequestHolds(st.requests[r], h))
  }

  // ------------------------------------------------------------ marks and losses

  function RequestMarks(r: Request): Option<string> {
    match r
    case OnPrepare(p) => if p.PrepReserve? then Some(p.s.assetHash) else None
    case OnConvert(c) => if c.ConvReserve? then Some(c.s.assetHash) else None
    case _ => None
  }

  function PlaceMarks(p: Place): Option<string> {
    if p.Encoding? && p.e.CvReserve? then Some(p.e.s.assetHash) else None
  }

  /** The asset that the step marks as being prepared. */
  function MarkedBy(st: State, step: Step): Option<string> {
    match step
    case Proceed(r, _) => if r in st.requests then RequestMarks(st.requests[r]) else None
    case Labour(j, _, _) => if j in st.g.tasks then PlaceMarks(st.g.tasks[j].place) else None
    case _ => None
  }

  /** A download that the full queue refuses. */
  function RequestLoses(cfg: Config, g: Shared, r: Request): Option<string> {
    if HasRoom(cfg, g, Download) then None else
      match r
      case OnPrepare(p) => if p.PrepEnqueue? then Some(p.s.assetHash) else None
      case OnConvert(c) => if c.ConvDownload? then Some(c.s.assetHash) else None
      case _ => None
  }

  function AssetOfJob(cfg: Config, urls: Urls, job: Job): Option<string> {
    if job.sessionId in urls then Some(AssetHash(cfg, urls[job.sessionId])) else None
  }

  /** The same in a worker, or a download job whose session has been deleted. */
  function WorkLoses(cfg: Config, g: Shared, t: Task): Option<string> {
    match t.place
    case Fetching(f) =>
      if f.DlGet? && t.job.sessionId !in g.sessions then AssetOfJob(cfg, g.urls, t.job) else None
    case Encoding(e) => if e.CvDownload? && !HasRoom(cfg, g, Download) then Some(e.s.assetHash) else None
    case _ => None
  }

  /** The asset of which the step loses a download: refused, refused on its return, or without a session. */
  function LostBy(cfg: Config, st: State, step: Step): Option<string> {
    match step
    case Proceed(r, _) => if r in st.requests then RequestLoses(cfg, st.g, st.requests[r]) else None
    case Labour(j, _, _) => if j in st.g.tasks then WorkLoses(cfg, st.g, st.g.tasks[j]) else None
    case Wake(j) =>
      if j in st.g.tasks && st.g.tasks[j].job.kind == Download && !HasRoom(cfg, st.g, Download)
      then AssetOfJob(cfg, st.g.urls, st.g.tasks[j].job) else None
    case _ => None
  }

  /** The assets whose last promised download has been lost since they were last marked. */
  ghost function NextLost(cfg: Config, st: State, lost: set<string>, step: Step): set<string>
    requires Enabled(st, step)
  {
    var kept := if MarkedBy(st, step).Some? then lost - {MarkedBy(st, step).value} else lost;
    match LostBy(cfg, st, step)
    case None => kept
    case Some(h) => if Promised(cfg, Next(cfg, st, step), h) then kept else kept + {h}
  }

  ghost function LostAfter(cfg: Config, st: State, lost: set<string>, run: seq<Step>): set<string>
    requires IsRun(cfg, st, run)
    decreases |run|
  {
    if run == [] then lost else LostAfter(cfg, Next(cfg, st, run[0]), NextLost(cfg, st, lost, run[0]), run[1..])
  }

  // ------------------------------------------------------------------- one step

  /** A worker fetches for download jobs and encodes for convert jobs. */
  predicate KindOk(t: Task) {
    (t.place.Fetching? ==> t.job.kind == Download) && (t.place.Encoding? ==> t.job.kind == Convert)
  }

  ghost predicate KindsOk(tasks: map<string, Task>) {
    forall j | j in tasks :: KindOk(tasks[j])
  }

  ghost predicate NewHolds(cfg: Config, urls: Urls, tasks: map<string, Task>, tasks': map<string, Task>, h: string) {
    exists j :: j in tasks' && j !in tasks && TaskHolds(cfg, urls, tasks'[j], h)
  }

  /** How one program's hold on asset `h` changes in a step, and how the asset's mark does. */
  ghost predicate HoldStep(before: bool, after: bool, marks: bool, loses: bool, preparing: bool, preparing': bool) {
    && (after ==> before || marks)
    && (marks ==> after)
    && (before && !after ==> loses || !preparing')
    && (preparing' ==> preparing || marks)
  }

  lemma OfferHolds(cfg: Config, g: Shared, n: Names, id: string, h: string)
    requires n.download !in g.tasks && id in g.urls
    ensures NewHolds(cfg, g.urls, g.tasks, Offered(cfg, g, DownloadJob(n, id)).tasks, h) <==>
      HasRoom(cfg, g, Download) && AssetHash(cfg, g.urls[id]) == h
  {
    var tasks' := Offered(cfg, g, DownloadJob(n, id)).tasks;
    if HasRoom(cfg, g, Download) {
      assert tasks'[n.download] == Task(DownloadJob(n, id), Waiting, 0);
      assert TaskHolds(cfg, g.urls, tasks'[n.download], h) <==> AssetHash(cfg, g.urls[id]) == h;
    }
  }

  lemma OfferConvertHolds(cfg: Config, g: Shared, n: Names, id: string, ask: Ask, h: string)
    ensures !NewHolds(cfg, g.urls, g.tasks, Offered(cfg, g, ConvertJob(n, id, ask)).tasks, h)
  {
  }

  lemma PrepareHoldStep(cfg: Config, g: Shared, pc: PreparePc, n: Names, h: string)
    requires PrepareOk(cfg, g.converted, pc) && RequestKnown(g.urls, OnPrepare(pc)) && FreshNames(g, n)
    ensures var (g', pc') := PrepareStep(cfg, g, pc, n);
      HoldStep(RequestHolds(OnPrepare(pc), h), RequestHolds(OnPrepare(pc'), h) || NewHolds(cfg, g.urls, g.tasks, g'.tasks, h),
               RequestMarks(OnPrepare(pc)) == Some(h), RequestLoses(cfg, g, OnPrepare(pc)) == Some(h),
               IsPreparing(g.assets, h), IsPreparing(g'.assets, h))
  {
    PrepareEffect(cfg, g, pc, n);
    if pc.PrepEnqueue? {
      OfferHolds(cfg, g, n, pc.s.id, h);
    }
  }

  lemma OutputHoldStep(cfg: Config, g: Shared, pc: ConvertPc, h: string)
    requires LooksForOutput(pc)
    ensures var (g', pc') := OutputSearch(cfg, g, pc);
      && !RequestHolds(OnConvert(pc'), h) && !RequestHolds(OnConvert(pc), h)
      && g'.assets == g.assets && g'.tasks == g.tasks
  {
    OutputEffects(cfg, g, pc);
  }

  lemma SourceHoldStep(cfg: Config, g: Shared, pc: ConvertPc, n: Names, h: string)
    requires !LooksForOutput(pc) && ConvertOk(cfg, g.converted, pc) && RequestKnown(g.urls, OnConvert(pc)) && FreshNames(g, n)
    ensures var (g', pc') := SourceSearch(cfg, g, pc, n);
      HoldStep(RequestHolds(OnConvert(pc), h), RequestHolds(OnConvert(pc'), h) || NewHolds(cfg, g.urls, g.tasks, g'.tasks, h),
               RequestMarks(OnConvert(pc)) == Some(h), RequestLoses(cfg, g, OnConvert(pc)) == Some(h),
               IsPreparing(g.assets, h), IsPreparing(g'.assets, h))
  {
    SourceEffects(cfg, g, pc, n);
    if pc.ConvDownload? {
      OfferHolds(cfg, g, n, pc.s.id, h);
    } else if pc.ConvEnqueue? {
      OfferConvertHolds(cfg, g, n, pc.s.id, pc.ask, h);
    }
  }

  lemma RequestHoldStep(cfg: Config, g: Shared, r: Request, n: Names, h: string)
    requires RequestOk(cfg, g.converted, r) && RequestKnown(g.urls, r) && FreshNames(g, n)
    ensures var (g', r') := RequestStep(cfg, g, r, n);
      HoldStep(RequestHolds(r, h), RequestHolds(r', h) || NewHolds(cfg, g.urls, g.tasks, g'.tasks, h),
               RequestMarks(r) == Some(h), RequestLoses(cfg, g, r) == Some(h),
               IsPreparing(g.assets, h), IsPreparing(g'.assets, h))
  {
    match r
    case OnPrepare(p) => PrepareHoldStep(cfg, g, p, n, h);
    case OnConvert(c) =>
      if LooksForOutput(c) {
        OutputHoldStep(cfg, g, c, h);
      } else {
        SourceHoldStep(cfg, g, c, n, h);
      }
    case OnStatus(q) =>
      StatusEffect(g, q);
      assert StatusStep(g, q).0.assets == g.assets;
    case OnDelete(d) => DeleteEffect(g, d);
  }

  lemma FetchHoldStep(cfg: Config, g: Shared, t: Task, pc: FetchPc, tool: Tool, h: string)
    requires t.place == Fetching(pc) && KindOk(t) && FetchOk(cfg, g.converted, pc)
    requires TaskKnown(g.urls, t) && HoldsSession(t.place, t.job.sessionId)
    ensures var (g', t') := DownloadStep(cfg, g, t, pc, tool);
      && HoldStep(TaskHolds(cfg, g.urls, t, h), TaskHolds(cfg, g.urls, t', h),
                  false, WorkLoses(cfg, g, t) == Some(h), IsPreparing(g.assets, h), IsPreparing(g'.assets, h))
      && KindOk(t')
  {
  }

  lemma SeekHoldStep(cfg: Config, g: Shared, t: Task, pc: EncodePc, n: Names, h: string)
    requires t.place == Encoding(pc) && SeeksSource(pc) && KindOk(t) && EncodeOk(cfg, g.converted, pc)
    requires TaskKnown(g.urls, t) && FreshNames(g, n)
    ensures var (g', t') := SeekStep(cfg, g, t, pc, n);
      && HoldStep(TaskHolds(cfg, g.urls, t, h), TaskHolds(cfg, g.urls, t', h) || NewHolds(cfg, g.urls, g.tasks, g'.tasks, h),
                  PlaceMarks(t.place) == Some(h), WorkLoses(cfg, g, t) == Some(h),
                  IsPreparing(g.assets, h), IsPreparing(g'.assets, h))
      && KindOk(t')
  {
    SeekEffect(cfg, g, t, pc, n);
    if pc.CvDownload? {
      OfferHolds(cfg, g, n, pc.s.id, h);
    }
  }

  lemma EncodeHoldStep(cfg: Config, g: Shared, t: Task, pc: EncodePc, tool: Tool, h: string)
    requires t.place == Encoding(pc) && !SeeksSource(pc) && KindOk(t)
    ensures var (g', t') := EncodeStep(cfg, g, t, pc, tool);
      && HoldStep(TaskHolds(cfg, g.urls, t, h), TaskHolds(cfg, g.urls, t', h),
                  false, WorkLoses(cfg, g, t) == Some(h), IsPreparing(g.assets, h), IsPreparing(g'.assets, h))
      && KindOk(t')
  {
  }

  // ------------------------------------------------------------ the whole system

  ghost predicate StepHolds(cfg: Config, st: State, step: Step, h: string)
    requires Enabled(st, step)
  {
    var st' := Next(cfg, st, step);
    HoldStep(Promised(cfg, st, h), Promised(cfg, st', h), MarkedBy(st, step) == Some(h), LostBy(cfg, st, step) == Some(h),
             IsPreparing(st.g.assets, h), IsPreparing(st'.g.assets, h))
  }

  ghost predicate TaskPromise(cfg: Config, urls: Urls, tasks: map<string, Task>, h: string) {
    exists j :: j in tasks && TaskHolds(cfg, urls, tasks[j], h)
  }

  ghost predicate RequestPromise(requests: map<nat, Request>, h: string) {
    exists r :: r in requests && RequestHolds(requests[r], h)
  }

  /** Adding tasks adds the promises of the new ones. */
  lemma AddedPromise(cfg: Config, urls: Urls, tasks: map<string, Task>, tasks': map<string, Task>, h: string)
    requires AddsWaiting(tasks, tasks')
    ensures TaskPromise(cfg, urls, tasks', h) <==> TaskPromise(cfg, urls, tasks, h) || NewHolds(cfg, urls, tasks, tasks', h)
  {
    if j :| j in tasks && TaskHolds(cfg, urls, tasks[j], h) {
      assert TaskHolds(cfg, urls, tasks'[j], h);
    }
    if j :| j in tasks' && TaskHolds(cfg, urls, tasks'[j], h) {
      if j !in tasks {
        assert NewHolds(cfg, urls, tasks, tasks', h);
      } else {
        assert TaskHolds(cfg, urls, tasks[j], h);
      }
    }
    if NewHolds(cfg, urls, tasks, tasks', h) {
      var j :| j in tasks' && j !in tasks && TaskHolds(cfg, urls, tasks'[j], h);
      assert TaskPromise(cfg, urls, tasks', h);
    }
  }

  /** Changing one task changes its own promise. */
  lemma ChangedPromise(cfg: Config, urls: Urls, tasks: map<string, Task>, j: string, t: Task, h: string)
    requires j in tasks
    ensures TaskPromise(cfg, urls, tasks[j := t], h) ==> TaskPromise(cfg, urls, tasks, h) || TaskHolds(cfg, urls, t, h)
    ensures TaskHolds(cfg, urls, t, h) ==> TaskPromise(cfg, urls, tasks[j := t], h)
    ensures TaskPromise(cfg, urls, tasks, h) ==> TaskPromise(cfg, urls, tasks[j := t], h) || TaskHolds(cfg, urls, tasks[j], h)
  {
    var tasks' := tasks[j := t];
    if k :| k in tasks' && TaskHolds(cfg, urls, tasks'[k], h) {
      assert k != j ==> TaskHolds(cfg, urls, tasks[k], h);
    }
    assert tasks'[j] == t;
    if k :| k in tasks && TaskHolds(cfg, urls, tasks[k], h) {
      assert k != j ==> TaskHolds(cfg, urls, tasks'[k], h);
    }
  }

  lemma ChangedRequest(requests: map<nat, Request>, r: nat, q: Request, h: string)
    ensures RequestPromise(requests[r := q], h) ==> RequestPromise(requests, h) || RequestHolds(q, h)
    ensures RequestHolds(q, h) ==> RequestPromise(requests[r := q], h)
    ensures RequestPromise(requests, h) ==>
      RequestPromise(requests[r := q], h) || (r in requests && RequestHolds(requests[r], h))
  {
    var requests' := requests[r := q];
    if k :| k in requests' && RequestHolds(requests'[k], h) {
      assert k != r ==> RequestHolds(requests[k], h);
    }
    assert requests'[r] == q;
    if k :| k in requests && RequestHolds(requests[k], h) {
      assert k != r ==> RequestHolds(requests'[k], h);
    }
  }

  lemma PromisedAre(cfg: Config, st: State, h: string)
    ensures Promised(cfg, st, h) <==> TaskPromise(cfg, st.g.urls, st.g.tasks, h) || RequestPromise(st.requests, h)
  {
  }

  ghost predicate Steady(cfg: Config, st: State) {
    Regular(cfg, st) && KindsOk(st.g.tasks)
  }

  lemma ProceedHolds(cfg: Config, st: State, r: nat, n: Names, h: string)
    requires Steady(cfg, st) && Enabled(st, Proceed(r, n))
    ensures StepHolds(cfg, st, Proceed(r, n), h)
  {
    var st' := Next(cfg, st, Proceed(r, n));
    assert RequestOk(cfg, st.g.converted, st.requests[r]) && RequestKnown(st.g.urls, st.requests[r]);
    RequestHoldStep(cfg, st.g, st.requests[r], n, h);
    RequestAdds(cfg, st.g, st.requests[r], n);
    RequestKeepsUrls(cfg, st.g, st.requests[r], n);
    AddedPromise(cfg, st.g.urls, st.g.tasks, st'.g.tasks, h);
    ChangedRequest(st.requests, r, st'.requests[r], h);
    PromisedAre(cfg, st, h);
    PromisedAre(cfg, st', h);
    assert RequestHolds(st.requests[r], h) ==> RequestPromise(st.requests, h);
  }

  lemma LabourHolds(cfg: Config, st: State, j: string, tool: Tool, n: Names, h: string)
    requires Steady(cfg, st) && Enabled(st, Labour(j, tool, n))
    ensures StepHolds(cfg, st, Labour(j, tool, n), h)
  {
    var g, st' := st.g, Next(cfg, st, Labour(j, tool, n));
    var t := g.tasks[j];
    assert PlaceOk(cfg, g.converted, t.place) && TaskOk(cfg, t) && TaskKnown(g.urls, t) && KindOk(t);
    var mid := WorkAdds(cfg, g, j, tool, n);
    WorkKeepsUrls(cfg, g, j, tool, n);
    WorkHoldStep(cfg, g, t, j, tool, n, mid, h);
    TasksHold(cfg, g.urls, g.tasks, mid, j, st'.g.tasks[j], h);
    PromisedAre(cfg, st, h);
    PromisedAre(cfg, st', h);
  }

  /** One task changed and some added: the promises of all tasks. */
  lemma TasksHold(cfg: Config, urls: Urls, tasks: map<string, Task>, mid: map<string, Task>, j: string, t: Task, h: string)
    requires j in tasks && AddsWaiting(tasks, mid)
    ensures var before, after := TaskHolds(cfg, urls, tasks[j], h), TaskHolds(cfg, urls, t, h) || NewHolds(cfg, urls, tasks, mid, h);
      && (TaskPromise(cfg, urls, mid[j := t], h) ==> TaskPromise(cfg, urls, tasks, h) || after)
      && (after ==> TaskPromise(cfg, urls, mid[j := t], h))
      && (TaskPromise(cfg, urls, tasks, h) ==> TaskPromise(cfg, urls, mid[j := t], h) || before)
      && (before ==> TaskPromise(cfg, urls, tasks, h))
  {
    AddedPromise(cfg, urls, tasks, mid, h);
    ChangedPromise(cfg, urls, mid, j, t, h);
    if NewHolds(cfg, urls, tasks, mid, h) {
      var k :| k in mid && k !in tasks && TaskHolds(cfg, urls, mid[k], h);
      assert mid[j := t][k] == mid[k];
    }
  }

  lemma LabourKeepsKinds(cfg: Config, st: State, j: string, tool: Tool, n: Names)
    requires Steady(cfg, st) && Enabled(st, Labour(j, tool, n))
    ensures KindsOk(Next(cfg, st, Labour(j, tool, n)).g.tasks)
  {
    var t := st.g.tasks[j];
    assert PlaceOk(cfg, st.g.converted, t.place) && TaskOk(cfg, t) && TaskKnown(st.g.urls, t) && KindOk(t);
    var mid := WorkAdds(cfg, st.g, j, tool, n);
    WorkHoldStep(cfg, st.g, t, j, tool, n, mid, "");
  }

  lemma WorkHoldStep(cfg: Config, g: Shared, t: Task, j: string, tool: Tool, n: Names, mid: map<string, Task>, h: string)
    requires j in g.tasks && g.tasks[j] == t && AtWork(t.place) && FreshNames(g, n)
    requires PlaceOk(cfg, g.converted, t.place) && TaskOk(cfg, t) && TaskKnown(g.urls, t) && KindOk(t)
    requires AddsWaiting(g.tasks, mid) && WorkStep(cfg, g, j, tool, n).tasks == mid[j := TaskAfter(cfg, g, t, tool, n)]
    ensures var g' := WorkStep(cfg, g, j, tool, n);
      HoldStep(TaskHolds(cfg, g.urls, t, h), TaskHolds(cfg, g.urls, g'.tasks[j], h) || NewHolds(cfg, g.urls, g.tasks, mid, h),
               PlaceMarks(t.place) == Some(h), WorkLoses(cfg, g, t) == Some(h),
               IsPreparing(g.assets, h), IsPreparing(g'.assets, h))
    ensures KindOk(WorkStep(cfg, g, j, tool, n).tasks[j])
  {
    var g' := WorkStep(cfg, g, j, tool, n);
    match t.place
    case Fetching(f) =>
      FetchHoldStep(cfg, g, t, f, tool, h);
      DownloadEffect(cfg, g, t, f, tool);
      SameNews(cfg, g.urls, g.tasks, g.tasks, mid, j, g'.tasks[j], h);
    case Encoding(e) =>
      if SeeksSource(e) {
        SeekHoldStep(cfg, g, t, e, n, h);
        SameNews(cfg, g.urls, g.tasks, SeekStep(cfg, g, t, e, n).0.tasks, mid, j, g'.tasks[j], h);
      } else {
        EncodeHoldStep(cfg, g, t, e, tool, h);
        EncodeEffect(cfg, g, t, e, tool);
        SameNews(cfg, g.urls, g.tasks, g.tasks, mid, j, g'.tasks[j], h);
      }
  }

  /** Maps that differ only at an old task have the same new ones. */
  lemma SameNews(cfg: Config, urls: Urls, tasks: map<string, Task>, a: map<string, Task>, b: map<string, Task>, j: string, t: Task, h: string)
    requires j in tasks && a[j := t] == b[j := t]
    ensures NewHolds(cfg, urls, tasks, a, h) <==> NewHolds(cfg, urls, tasks, b, h)
  {
    assert forall k | k != j :: (k in a <==> k in a[j := t]) && (k in b <==> k in b[j := t]);
    assert forall k | k != j && k in a :: a[k] == a[j := t][k];
    assert forall k | k != j && k in b :: b[k] == b[j := t][k];
  }

  lemma DequeueHolds(cfg: Config, st: State, j: string, h: string)
    requires Steady(cfg, st) && Enabled(st, Dequeue(j))
    ensures StepHolds(cfg, st, Dequeue(j), h)
  {
    ChangedPromise(cfg, st.g.urls, st.g.tasks, j, Begun(st.g.tasks[j]), h);
    PromisedAre(cfg, st, h);
    PromisedAre(cfg, Next(cfg, st, Dequeue(j)), h);
    assert TaskHolds(cfg, st.g.urls, st.g.tasks[j], h) ==> TaskPromise(cfg, st.g.urls, st.g.tasks, h);
  }

  lemma WakeHolds(cfg: Config, st: State, j: string, h: string)
    requires Steady(cfg, st) && Enabled(st, Wake(j))
    ensures StepHolds(cfg, st, Wake(j), h)
  {
    ChangedPromise(cfg, st.g.urls, st.g.tasks, j, Woken(cfg, st.g, st.g.tasks[j]), h);
    PromisedAre(cfg, st, h);
    PromisedAre(cfg, Next(cfg, st, Wake(j)), h);
    assert TaskHolds(cfg, st.g.urls, st.g.tasks[j], h) ==> TaskPromise(cfg, st.g.urls, st.g.tasks, h);
  }

  lemma PrepareBeginHolds(cfg: Config, st: State, r: nat, id: string, url: string, duration: int, h: string)
    requires Steady(cfg, st) && Enabled(st, BeginPrepare(r, id, url, duration))
    ensures StepHolds(cfg, st, BeginPrepare(r, id, url, duration), h)
  {
    var st' := Next(cfg, st, BeginPrepare(r, id, url, duration));
    ChangedRequest(st.requests, r, st'.requests[r], h);
    PromisedAre(cfg, st, h);
    PromisedAre(cfg, st', h);
    forall j | j in st.g.tasks
      ensures TaskHolds(cfg, st'.g.urls, st.g.tasks[j], h) <==> TaskHolds(cfg, st.g.urls, st.g.tasks[j], h)
    {
      assert TaskKnown(st.g.urls, st.g.tasks[j]);
    }
  }

  lemma BeginHolds(cfg: Config, st: State, step: Step, h: string)
    requires Steady(cfg, st) && Enabled(st, step) && (step.BeginConvert? || step.BeginStatus? || step.BeginDelete?)
    ensures StepHolds(cfg, st, step, h)
  {
    var st' := Next(cfg, st, step);
    ChangedRequest(st.requests, step.r, st'.requests[step.r], h);
    PromisedAre(cfg, st, h);
    PromisedAre(cfg, st', h);
  }

  lemma AnyStepHolds(cfg: Config, st: State, step: Step, h: string)
    requires Steady(cfg, st) && Enabled(st, step)
    ensures StepHolds(cfg, st, step, h)
  {
    match step
    case BeginPrepare(r, id, url, duration) => PrepareBeginHolds(cfg, st, r, id, url, duration, h);
    case Proceed(r, n) => ProceedHolds(cfg, st, r, n, h);
    case Labour(j, tool, n) => LabourHolds(cfg, st, j, tool, n, h);
    case Dequeue(j) => DequeueHolds(cfg, st, j, h);
    case Wake(j) => WakeHolds(cfg, st, j, h);
    case Expire(p) =>
    case _ => BeginHolds(cfg, st, step, h);
  }

  lemma StepKeepsKinds(cfg: Config, st: State, step: Step)
    requires Steady(cfg, st) && Enabled(st, step)
    ensures KindsOk(Next(cfg, st, step).g.tasks)
  {
    match step
    case Proceed(r, n) => RequestAdds(cfg, st.g, st.requests[r], n);
    case Labour(j, tool, n) => LabourKeepsKinds(cfg, st, j, tool, n);
    case _ =>
  }

  // -------------------------------------------------------------------- all runs

  ghost predicate PromisesKept(cfg: Config, st: State, lost: set<string>) {
    forall h :: (h in lost ==> !Promised(cfg, st, h)) && (IsPreparing(st.g.assets, h) && h !in lost ==> Promised(cfg, st, h))
  }

  lemma StepKeepsPromises(cfg: Config, st: State, lost: set<string>, step: Step)
    requires Steady(cfg, st) && PromisesKept(cfg, st, lost) && Enabled(st, step)
    ensures Steady(cfg, Next(cfg, st, step)) && PromisesKept(cfg, Next(cfg, st, step), NextLost(cfg, st, lost, step))
  {
    StepKeepsRegular(cfg, st, step);
    StepKeepsKinds(cfg, st, step);
    var st', lost' := Next(cfg, st, step), NextLost(cfg, st, lost, step);
    forall h
      ensures (h in lost' ==> !Promised(cfg, st', h)) && (IsPreparing(st'.g.assets, h) && h !in lost' ==> Promised(cfg, st', h))
    {
      AnyStepHolds(cfg, st, step, h);
    }
  }

  lemma {:induction false} RunKeepsPromises(cfg: Config, st: State, lost: set<string>, run: seq<Step>)
    requires Steady(cfg, st) && PromisesKept(cfg, st, lost) && IsRun(cfg, st, run)
    ensures PromisesKept(cfg, AfterRun(cfg, st, run), LostAfter(cfg, st, lost, run))
    decreases |run|
  {
    if run != [] {
      StepKeepsPromises(cfg, st, lost, run[0]);
      RunKeepsPromises(cfg, Next(cfg, st, run[0]), NextLost(cfg, st, lost, run[0]), run[1..]);
    }
  }

  /**
    In every reached state, an asset marked as being prepared still has a download to come (a live
    job of one of its sessions, or a handler about to queue one) if and only if its last
    promised download has not been lost since it was last marked.
   */
  lemma PreparingIffPromised(cfg: Config, run: seq<Step>, st: State, h: string)
    requires HexHashes(cfg) && Reached(cfg, run, st) && IsPreparing(st.g.assets, h)
    ensures Promised(cfg, st, h) <==> h !in LostAfter(cfg, State(START, map[]), {}, run)
  {
    RunKeepsPromises(cfg, State(START, map[]), {}, run);
  }

  /** The run loses no download of the asset at all. */
  ghost predicate LosesNone(cfg: Config, st: State, run: seq<Step>, h: string)
    requires IsRun(cfg, st, run)
    decreases |run|
  {
    run == [] || (LostBy(cfg, st, run[0]) != Some(h) && LosesNone(cfg, Next(cfg, st, run[0]), run[1..], h))
  }

  lemma {:induction false} NoLossNotLost(cfg: Config, st: State, lost: set<string>, run: seq<Step>, h: string)
    requires IsRun(cfg, st, run) && h !in lost && LosesNone(cfg, st, run, h)
    ensures h !in LostAfter(cfg, st, lost, run)
    decreases |run|
  {
    if run != [] {
      NoLossNotLost(cfg, Next(cfg, st, run[0]), NextLost(cfg, st, lost, run[0]), run[1..], h);
    }
  }

  /** So it takes a refused Enqueue, a refused return or a deleted session to break the promise. */
  lemma PreparingMeansPromised(cfg: Config, run: seq<Step>, st: State, h: string)
    requires HexHashes(cfg) && Reached(cfg, run, st) && IsPreparing(st.g.assets, h)
    requires LosesNone(cfg, State(START, map[]), run, h)
    ensures Promised(cfg, st, h)
  {
    PreparingIffPromised(cfg, run, st, h);
    NoLossNotLost(cfg, State(START, map[]), {}, run, h);
  }
}
