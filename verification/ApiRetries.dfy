/**
  The life of one job in any run: how often its tool is invoked, what stays the same
  through retries, and what its last failure does.
 */
module ApiRetries {
  import opened Jobs
  import opened VariantKey
  import opened Model
  import opened ApiModel
  import opened ApiInvariant

  /** The number of attempts that a job is given. */
  function Allowance(cfg: Config): nat {
    if cfg.maxRetries > 1 then cfg.maxRetries else 1
  }

  predicate Trying(cfg: Config, t: Task) {
    t.calls == t.job.attempts < Allowance(cfg)
  }

  predicate Succeeded(cfg: Config, t: Task) {
    t.calls == t.job.attempts + 1 <= Allowance(cfg)
  }

  predicate Exhausted(cfg: Config, t: Task) {
    t.calls == t.job.attempts == Allowance(cfg)
  }

  /** The session copy in the hands of the worker. */
  predicate HoldsSession(p: Place, id: string) {
    match p
    case Fetching(f) => f.DlGet? || f.s.id == id
    case Encoding(e) => e.CvGet? || e.s.id == id
    case _ => true
  }

  predicate CountOk(cfg: Config, t: Task) {
    match t.place
    case Fetching(f) =>
      if f.DlFail? || f.DlFailAsset? then Exhausted(cfg, t)
      else if f.DlSave? || f.DlAsset? then Succeeded(cfg, t)
      else Trying(cfg, t)
    case Encoding(e) =>
      if e.CvFail? then Exhausted(cfg, t)
      else if e.CvSave? || e.CvPublish? then Succeeded(cfg, t)
      else Trying(cfg, t)
    case Ended(GaveUp) => Exhausted(cfg, t)
    case Ended(Served) => Succeeded(cfg, t)
    case _ => Trying(cfg, t)
  }

  predicate TaskOk(cfg: Config, t: Task) {
    CountOk(cfg, t) && HoldsSession(t.place, t.job.sessionId)
  }

  ghost predicate TasksOk(cfg: Config, tasks: map<string, Task>) {
    forall j | j in tasks :: TaskOk(cfg, tasks[j])
  }

  /** Same job, except perhaps for the number of attempts. */
  predicate SameJob(a: Job, b: Job) {
    a.(attempts := 0) == b.(attempts := 0)
  }

  lemma DownloadKeepsTask(cfg: Config, g: Shared, t: Task, tool: Tool)
    requires SessionsOk(cfg, g.converted, g.sessions) && TaskOk(cfg, t) && t.place.Fetching?
    ensures var t' := DownloadStep(cfg, g, t, t.place.f, tool).1; TaskOk(cfg, t') && SameJob(t.job, t'.job)
  {
  }

  lemma SeekKeepsTask(cfg: Config, g: Shared, t: Task, n: Names)
    requires SessionsOk(cfg, g.converted, g.sessions) && TaskOk(cfg, t) && t.place.Encoding?
    ensures var t' := SeekStep(cfg, g, t, t.place.e, n).1; TaskOk(cfg, t') && SameJob(t.job, t'.job)
  {
  }

  lemma EncodeKeepsTask(cfg: Config, g: Shared, t: Task, tool: Tool)
    requires TaskOk(cfg, t) && t.place.Encoding?
    ensures var t' := EncodeStep(cfg, g, t, t.place.e, tool).1; TaskOk(cfg, t') && SameJob(t.job, t'.job)
  {
  }

  lemma TaskAfterKeeps(cfg: Config, g: Shared, t: Task, tool: Tool, n: Names)
    requires SessionsOk(cfg, g.converted, g.sessions) && TaskOk(cfg, t) && AtWork(t.place)
    ensures TaskOk(cfg, TaskAfter(cfg, g, t, tool, n)) && SameJob(t.job, TaskAfter(cfg, g, t, tool, n).job)
  {
    if t.place.Fetching? {
      DownloadKeepsTask(cfg, g, t, tool);
    } else {
      SeekKeepsTask(cfg, g, t, n);
      EncodeKeepsTask(cfg, g, t, tool);
    }
  }

  /** Every job of the first state is in the second, unchanged but for attempts. */
  ghost predicate JobsKept(tasks: map<string, Task>, tasks': map<string, Task>) {
    forall j | j in tasks :: j in tasks' && SameJob(tasks[j].job, tasks'[j].job)
  }

  lemma AddingKeepsTasks(cfg: Config, tasks: map<string, Task>, tasks': map<string, Task>)
    requires TasksOk(cfg, tasks) && AddsWaiting(tasks, tasks')
    ensures TasksOk(cfg, tasks') && JobsKept(tasks, tasks')
  {
    forall j | j in tasks' ensures TaskOk(cfg, tasks'[j]) {
      if j in tasks {
        assert TaskOk(cfg, tasks[j]);
      }
    }
  }

  lemma ChangingKeepsTasks(cfg: Config, tasks: map<string, Task>, j: string, t: Task)
    requires TasksOk(cfg, tasks) && j in tasks && TaskOk(cfg, t) && SameJob(tasks[j].job, t.job)
    ensures TasksOk(cfg, tasks[j := t]) && JobsKept(tasks, tasks[j := t])
  {
  }

  lemma StepKeepsTasks(cfg: Config, st: State, step: Step)
    requires Inv(cfg, st) && TasksOk(cfg, st.g.tasks) && Enabled(st, step)
    ensures TasksOk(cfg, Next(cfg, st, step).g.tasks)
    ensures JobsKept(st.g.tasks, Next(cfg, st, step).g.tasks)
  {
    match step
    case Proceed(r, n) =>
      RequestAdds(cfg, st.g, st.requests[r], n);
      AddingKeepsTasks(cfg, st.g.tasks, Next(cfg, st, step).g.tasks);
    case Labour(j, tool, n) =>
      TaskAfterKeeps(cfg, st.g, st.g.tasks[j], tool, n);
      var mid := WorkAdds(cfg, st.g, j, tool, n);
      AddingKeepsTasks(cfg, st.g.tasks, mid);
      ChangingKeepsTasks(cfg, mid, j, TaskAfter(cfg, st.g, st.g.tasks[j], tool, n));
    case Dequeue(j) => ChangingKeepsTasks(cfg, st.g.tasks, j, Begun(st.g.tasks[j]));
    case Wake(j) => ChangingKeepsTasks(cfg, st.g.tasks, j, Woken(cfg, st.g, st.g.tasks[j]));
    case _ =>
  }

  lemma {:induction false} RunKeepsTasks(cfg: Config, st: State, run: seq<Step>)
    requires HexHashes(cfg) && Inv(cfg, st) && TasksOk(cfg, st.g.tasks) && IsRun(cfg, st, run)
    ensures TasksOk(cfg, AfterRun(cfg, st, run).g.tasks)
    ensures JobsKept(st.g.tasks, AfterRun(cfg, st, run).g.tasks)
    decreases |run|
  {
    if run != [] {
      StepKeepsTasks(cfg, st, run[0]);
      StepKeepsInv(cfg, st, run[0]);
      RunKeepsTasks(cfg, Next(cfg, st, run[0]), run[1..]);
    }
  }

  lemma ReachedTasks(cfg: Config, run: seq<Step>, st: State)
    requires HexHashes(cfg) && Reached(cfg, run, st)
    ensures TasksOk(cfg, st.g.tasks)
  {
    RunKeepsTasks(cfg, State(START, map[]), run);
  }

  /**
    Over any run, the tool of one job is invoked at most max(1, MaxJobRetries) times; a job
    gives up exactly when that many invocations have failed.
   */
  lemma RetriesAreBounded(cfg: Config, run: seq<Step>, st: State, j: string)
    requires HexHashes(cfg) && Reached(cfg, run, st) && j in st.g.tasks
    ensures st.g.tasks[j].calls <= Allowance(cfg)
    ensures st.g.tasks[j].place == Ended(GaveUp) ==> st.g.tasks[j].calls == st.g.tasks[j].job.attempts == Allowance(cfg)
    ensures st.g.tasks[j].place == Ended(Served) ==> st.g.tasks[j].calls == st.g.tasks[j].job.attempts + 1
  {
    ReachedTasks(cfg, run, st);
  }

  /** A retried job keeps its id, parameters, priority and timestamp, whatever happens meanwhile. */
  lemma RetriesKeepTheJob(cfg: Config, run: seq<Step>, st: State, more: seq<Step>, j: string)
    requires HexHashes(cfg) && Reached(cfg, run, st) && IsRun(cfg, st, more) && j in st.g.tasks
    ensures j in AfterRun(cfg, st, more).g.tasks
    ensures var job, job' := st.g.tasks[j].job, AfterRun(cfg, st, more).g.tasks[j].job;
      SameJob(job, job') && job'.enqueuedAt == job.enqueuedAt && job'.priority == job.priority
  {
    ReachedInv(cfg, run, st);
    ReachedTasks(cfg, run, st);
    RunKeepsTasks(cfg, st, more);
  }

  /** The worker is about to run its tool. */
  predicate AtTool(p: Place) {
    (p.Fetching? && p.f.DlTool?) || (p.Encoding? && p.e.CvTool?)
  }

  /** The worker is about to record that its job has failed for good. */
  predicate RecordsFailure(p: Place) {
    (p.Fetching? && p.f.DlFail?) || (p.Encoding? && p.e.CvFail?)
  }

  /**
    A failed run sends the job back to sleep with one more attempt, or, when it was the last
    one allowed, on to the step that stores the session as failed.
   */
  lemma FailureRetriesOrRecords(cfg: Config, g: Shared, t: Task, n: Names)
    requires TaskOk(cfg, t) && AtTool(t.place)
    ensures var t' := TaskAfter(cfg, g, t, ToolFails, n);
      && t'.job == t.job.(attempts := t.job.attempts + 1)
      && (t'.place == Sleeping <==> t'.calls < Allowance(cfg))
      && (RecordsFailure(t'.place) <==> t'.calls == Allowance(cfg))
  {
    if t.place.Fetching? {
      assert DownloadStep(cfg, g, t, t.place.f, ToolFails).1 ==
        AfterFailure(cfg, t, Fetching(DlFail(t.place.f.s.(state := Failed))));
    } else {
      assert EncodeStep(cfg, g, t, t.place.e, ToolFails).1 ==
        AfterFailure(cfg, t, Encoding(CvFail(t.place.e.s.(state := Failed))));
    }
  }

  lemma RecordingStoresCopy(cfg: Config, g: Shared, j: string, tool: Tool, n: Names)
    requires j in g.tasks && RecordsFailure(g.tasks[j].place)
    ensures var p := g.tasks[j].place;
      WorkStep(cfg, g, j, tool, n).sessions == Updated(g.sessions, if p.Fetching? then p.f.s else p.e.s)
  {
  }

  lemma RecordedIsFailed(cfg: Config, g: Shared, j: string)
    requires Inv(cfg, State(g, map[])) && TasksOk(cfg, g.tasks) && j in g.tasks && RecordsFailure(g.tasks[j].place)
    ensures var p := g.tasks[j].place;
      var s := if p.Fetching? then p.f.s else p.e.s;
      s.state == Failed && s.id == g.tasks[j].job.sessionId
  {
    var t := g.tasks[j];
    assert TaskOk(cfg, t) && PlaceOk(cfg, g.converted, t.place);
  }

  /** That step marks the job's session failed, if the session still exists. */
  lemma LastFailureMarksSession(cfg: Config, run: seq<Step>, st: State, j: string, tool: Tool, n: Names)
    requires HexHashes(cfg) && Reached(cfg, run, st) && Enabled(st, Labour(j, tool, n))
    requires RecordsFailure(st.g.tasks[j].place)
    ensures var id, sessions' := st.g.tasks[j].job.sessionId, Next(cfg, st, Labour(j, tool, n)).g.sessions;
      if id in st.g.sessions then id in sessions' && sessions'[id].state == Failed else id !in sessions'
  {
    ReachedInv(cfg, run, st);
    ReachedTasks(cfg, run, st);
    RecordedIsFailed(cfg, st.g, j);
    RecordingStoresCopy(cfg, st.g, j, tool, n);
  }
}
