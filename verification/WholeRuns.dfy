/**
  Whole handlers are runs: a request or a worker pass that nothing interrupts is one of the
  interleavings, so what is proved of every run applies to it.
 */
module WholeRuns {
  import opened Jobs
  import opened VariantKey
  import opened Model
  import opened ApiModel
  import opened ApiInvariant
  import opened Effects
  import opened HandlerRuns
  import opened HandlerClaims
  import opened FreshIds

  lemma {:induction false} RunsJoin(cfg: Config, st: State, a: seq<Step>, b: seq<Step>)
    requires IsRun(cfg, st, a) && IsRun(cfg, AfterRun(cfg, st, a), b)
    ensures IsRun(cfg, st, a + b) && AfterRun(cfg, st, a + b) == AfterRun(cfg, AfterRun(cfg, st, a), b)
    decreases |a|
  {
    if a == [] {
      assert a + b == b;
    } else {
      assert (a + b)[0] == a[0] && (a + b)[1..] == a[1..] + b;
      RunsJoin(cfg, Next(cfg, st, a[0]), a[1..], b);
    }
  }

  lemma StepFirst(cfg: Config, st: State, step: Step, rest: seq<Step>)
    requires Enabled(st, step) && IsRun(cfg, Next(cfg, st, step), rest)
    ensures IsRun(cfg, st, [step] + rest)
    ensures AfterRun(cfg, st, [step] + rest) == AfterRun(cfg, Next(cfg, st, step), rest)
  {
    assert ([step] + rest)[1..] == rest;
  }

  lemma StepLast(cfg: Config, st: State, step: Step)
    requires Enabled(st, step)
    ensures IsRun(cfg, st, [step]) && AfterRun(cfg, st, [step]) == Next(cfg, st, step)
  {
    assert [step] + [] == [step];
    assert AfterRun(cfg, Next(cfg, st, step), []) == Next(cfg, st, step);
    StepFirst(cfg, st, step, []);
  }

  // ------------------------------------------------------------------- requests

  lemma {:induction false} PrepareIsRun(cfg: Config, st: State, r: nat, pc: PreparePc, n: Names) returns (run: seq<Step>)
    requires r in st.requests && st.requests[r] == OnPrepare(pc) && (!pc.PrepDone? ==> FreshNames(st.g, n))
    ensures IsRun(cfg, st, run)
    ensures var (end, reply) := FinishPrepare(cfg, st.g, pc, n);
      AfterRun(cfg, st, run) == State(end, st.requests[r := OnPrepare(PrepDone(reply))])
    decreases PrepareRank(pc)
  {
    run := [];
    if pc.PrepDone? {
      assert st.requests[r := OnPrepare(pc)] == st.requests;
    } else {
      var st' := Next(cfg, st, Proceed(r, n));
      PrepareEffect(cfg, st.g, pc, n);
      var rest := PrepareIsRun(cfg, st', r, PrepareStep(cfg, st.g, pc, n).1, n);
      StepFirst(cfg, st, Proceed(r, n), rest);
      run := [Proceed(r, n)] + rest;
    }
  }

  /** The names a step of the source search may use; it looks at no other part of them. */
  lemma NamesFor(cfg: Config, g: Shared, pc: ConvertPc, n: Names) returns (k: Names)
    requires (BeforeQueue(pc) ==> FreshNames(g, n)) && (pc.ConvEnqueue? ==> n.convert !in g.tasks)
    ensures FreshNames(g, k)
    ensures ConvertStep(cfg, g, pc, k) == ConvertStep(cfg, g, pc, n)
  {
    k := n;
    if pc.ConvEnqueue? {
      var d := NewName(g.tasks.Keys + {n.convert});
      k := Names(d, n.convert, n.now);
    } else if !BeforeQueue(pc) {
      k := NewNames(g);
    }
  }

  lemma StepNeedsNames(cfg: Config, g: Shared, pc: ConvertPc, n: Names)
    requires !pc.ConvDone?
    requires (BeforeQueue(pc) ==> FreshNames(g, n)) && (pc.ConvEnqueue? ==> n.convert !in g.tasks)
    ensures var (g', pc') := ConvertStep(cfg, g, pc, n);
      && (BeforeQueue(pc') ==> FreshNames(g', n)) && (pc'.ConvEnqueue? ==> n.convert !in g'.tasks)
  {
    if LooksForOutput(pc) {
      OutputEffects(cfg, g, pc);
    } else {
      SourceEffects(cfg, g, pc, n);
    }
  }

  lemma {:induction false} ConvertIsRun(cfg: Config, st: State, r: nat, pc: ConvertPc, n: Names) returns (run: seq<Step>)
    requires r in st.requests && st.requests[r] == OnConvert(pc)
    requires (BeforeQueue(pc) ==> FreshNames(st.g, n)) && (pc.ConvEnqueue? ==> n.convert !in st.g.tasks)
    ensures IsRun(cfg, st, run)
    ensures var (end, reply) := FinishConvert(cfg, st.g, pc, n);
      AfterRun(cfg, st, run) == State(end, st.requests[r := OnConvert(ConvDone(reply))])
    decreases ConvertRank(pc)
  {
    run := [];
    if pc.ConvDone? {
      assert st.requests[r := OnConvert(pc)] == st.requests;
    } else {
      var k := NamesFor(cfg, st.g, pc, n);
      var (g', pc') := ConvertStep(cfg, st.g, pc, n);
      var st' := Next(cfg, st, Proceed(r, k));
      assert st' == State(g', st.requests[r := OnConvert(pc')]);
      StepNeedsNames(cfg, st.g, pc, n);
      FinishOneStep(cfg, st.g, pc, n);
      var rest := ConvertIsRun(cfg, st', r, pc', n);
      StepFirst(cfg, st, Proceed(r, k), rest);
      run := [Proceed(r, k)] + rest;
    }
  }

  lemma RankFalls(cfg: Config, g: Shared, pc: ConvertPc, n: Names)
    requires !pc.ConvDone?
    ensures ConvertRank(ConvertStep(cfg, g, pc, n).1) < ConvertRank(pc)
  {
    if LooksForOutput(pc) {
      OutputRankFalls(cfg, g, pc);
    } else {
      SourceRankFalls(cfg, g, pc, n);
    }
  }

  lemma OutputRankFalls(cfg: Config, g: Shared, pc: ConvertPc)
    requires LooksForOutput(pc)
    ensures ConvertRank(OutputSearch(cfg, g, pc).1) < ConvertRank(pc)
  {
  }

  lemma SourceRankFalls(cfg: Config, g: Shared, pc: ConvertPc, n: Names)
    requires !LooksForOutput(pc) && !pc.ConvDone?
    ensures ConvertRank(SourceSearch(cfg, g, pc, n).1) < ConvertRank(pc)
    ensures !LooksForOutput(SourceSearch(cfg, g, pc, n).1)
  {
  }

  lemma FinishOneStep(cfg: Config, g: Shared, pc: ConvertPc, n: Names)
    requires !pc.ConvDone?
    ensures var (g', pc') := ConvertStep(cfg, g, pc, n);
      ConvertRank(pc') < ConvertRank(pc) && FinishConvert(cfg, g, pc, n) == FinishConvert(cfg, g', pc', n)
  {
    RankFalls(cfg, g, pc, n);
    if !LooksForOutput(pc) {
      SourceRankFalls(cfg, g, pc, n);
      var (g', pc') := SourceSearch(cfg, g, pc, n);
      assert FinishConvert(cfg, g', pc', n) == FinishSource(cfg, g', pc', n);
    }
  }

  lemma {:induction false} DeleteIsRun(cfg: Config, st: State, r: nat, pc: DeletePc) returns (run: seq<Step>)
    requires r in st.requests && st.requests[r] == OnDelete(pc)
    ensures IsRun(cfg, st, run)
    ensures var (end, reply) := FinishDelete(st.g, pc);
      AfterRun(cfg, st, run) == State(end, st.requests[r := OnDelete(DelDone(reply))])
    decreases DeleteRank(pc)
  {
    run := [];
    if pc.DelDone? {
      assert st.requests[r := OnDelete(pc)] == st.requests;
    } else {
      var n := NewNames(st.g);
      var st' := Next(cfg, st, Proceed(r, n));
      var rest := DeleteIsRun(cfg, st', r, DeleteStep(st.g, pc).1);
      StepFirst(cfg, st, Proceed(r, n), rest);
      run := [Proceed(r, n)] + rest;
    }
  }

  // -------------------------------------------------------------------- workers

  /** A worker's step does not look at its own task in the map. */
  lemma DownloadIgnoresTask(cfg: Config, g: Shared, t: Task, pc: FetchPc, tool: Tool, j: string, x: Task)
    ensures var (g', t') := DownloadStep(cfg, g, t, pc, tool);
      DownloadStep(cfg, At(g, j, x), t, pc, tool) == (At(g', j, x), t')
  {
  }

  lemma EncodeIgnoresTask(cfg: Config, g: Shared, t: Task, pc: EncodePc, tool: Tool, j: string, x: Task)
    requires !SeeksSource(pc)
    ensures var (g', t') := EncodeStep(cfg, g, t, pc, tool);
      EncodeStep(cfg, At(g, j, x), t, pc, tool) == (At(g', j, x), t')
  {
    match pc
    case CvGuard(s) =>
    case CvExpireOwn(s) =>
    case CvForget(s) =>
    case CvStart(s) =>
    case CvTool(s) =>
    case CvFail(s) =>
    case CvSave(s) =>
    case CvPublish(s) =>
  }

  lemma OfferIgnoresTask(cfg: Config, g: Shared, job: Job, j: string, x: Task)
    requires j in g.tasks && !g.tasks[j].place.Waiting? && !x.place.Waiting? && job.id != j
    ensures Offered(cfg, At(g, j, x), job) == At(Offered(cfg, g, job), j, x)
  {
    assert InQueue(At(g, j, x).tasks, job.kind) == InQueue(g.tasks, job.kind);
    assert g.tasks[job.id := Task(job, Waiting, 0)][j := x] == g.tasks[j := x][job.id := Task(job, Waiting, 0)];
  }

  lemma SeekIgnoresTask(cfg: Config, g: Shared, t: Task, pc: EncodePc, n: Names, j: string, x: Task)
    requires SeeksSource(pc) && j in g.tasks && !g.tasks[j].place.Waiting? && !x.place.Waiting? && n.download !in g.tasks
    ensures var (g', t') := SeekStep(cfg, g, t, pc, n);
      SeekStep(cfg, At(g, j, x), t, pc, n) == (At(g', j, x), t')
  {
    if pc.CvDownload? {
      OfferIgnoresTask(cfg, g, DownloadJob(n, pc.s.id), j, x);
    }
  }

  lemma {:induction false} FetchIgnoresTask(cfg: Config, g: Shared, t: Task, tool: Tool, j: string, x: Task)
    ensures var (g', t') := FinishFetch(cfg, g, t, tool);
      FinishFetch(cfg, At(g, j, x), t, tool) == (At(g', j, x), t')
    decreases if t.place.Fetching? then FetchRank(t.place.f) else 0
  {
    if t.place.Fetching? {
      var (g', t') := DownloadStep(cfg, g, t, t.place.f, tool);
      DownloadIgnoresTask(cfg, g, t, t.place.f, tool, j, x);
      FetchIgnoresTask(cfg, g', t', tool, j, x);
    }
  }

  lemma AtTwice(g: Shared, j: string, x: Task, y: Task)
    ensures At(At(g, j, x), j, y) == At(g, j, y)
  {
    assert g.tasks[j := x][j := y] == g.tasks[j := y];
  }

  lemma AtSame(g: Shared, j: string)
    requires j in g.tasks
    ensures At(g, j, g.tasks[j]) == g
  {
    assert g.tasks[j := g.tasks[j]] == g.tasks;
  }

  lemma {:induction false} FetchIsRun(cfg: Config, st: State, j: string, tool: Tool) returns (run: seq<Step>)
    requires j in st.g.tasks
    ensures IsRun(cfg, st, run)
    ensures var (end, t') := FinishFetch(cfg, st.g, st.g.tasks[j], tool);
      AfterRun(cfg, st, run) == State(At(end, j, t'), st.requests)
    decreases if st.g.tasks[j].place.Fetching? then FetchRank(st.g.tasks[j].place.f) else 0
  {
    var t := st.g.tasks[j];
    run := [];
    if !t.place.Fetching? {
      AtSame(st.g, j);
    } else {
      var n := NewNames(st.g);
      var (g', t') := DownloadStep(cfg, st.g, t, t.place.f, tool);
      var st' := Next(cfg, st, Labour(j, tool, n));
      assert st' == State(At(g', j, t'), st.requests);
      FetchIgnoresTask(cfg, g', t', tool, j, t');
      var (end, last) := FinishFetch(cfg, g', t', tool);
      AtTwice(end, j, t', last);
      var rest := FetchIsRun(cfg, st', j, tool);
      StepFirst(cfg, st, Labour(j, tool, n), rest);
      run := [Labour(j, tool, n)] + rest;
    }
  }

  lemma {:induction false} EncodeEndIgnoresTask(cfg: Config, g: Shared, t: Task, tool: Tool, j: string, x: Task)
    requires t.place.Encoding? ==> !SeeksSource(t.place.e)
    ensures var (g', t') := FinishEncode(cfg, g, t, tool);
      FinishEncode(cfg, At(g, j, x), t, tool) == (At(g', j, x), t')
    decreases if t.place.Encoding? then EncodeRank(t.place.e) else 0
  {
    if t.place.Encoding? {
      var (g', t') := EncodeStep(cfg, g, t, t.place.e, tool);
      EncodeIgnoresTask(cfg, g, t, t.place.e, tool, j, x);
      EncodeEndIgnoresTask(cfg, g', t', tool, j, x);
    }
  }

  predicate Seeking(t: Task) {
    t.place.Encoding? && SeeksSource(t.place.e)
  }

  /** Seeking a source goes on with the same names until its download is queued. */
  lemma SeekNeedsNames(cfg: Config, g: Shared, t: Task, n: Names)
    requires Seeking(t) && FreshNames(g, n)
    ensures var (g', t') := SeekStep(cfg, g, t, t.place.e, n);
      (Seeking(t') ==> FreshNames(g', n)) && (forall j | j in g.tasks :: j in g'.tasks && g'.tasks[j] == g.tasks[j])
      && !t'.place.Waiting?
  {
    SeekEffect(cfg, g, t, t.place.e, n);
  }

  lemma {:induction false} PassIgnoresTask(cfg: Config, g: Shared, t: Task, tool: Tool, n: Names, j: string, x: Task)
    requires j in g.tasks && !g.tasks[j].place.Waiting? && !x.place.Waiting? && (Seeking(t) ==> FreshNames(g, n))
    ensures var (g', t') := FinishPass(cfg, g, t, tool, n);
      FinishPass(cfg, At(g, j, x), t, tool, n) == (At(g', j, x), t')
    decreases if t.place.Encoding? then EncodeRank(t.place.e) else 0
  {
    if Seeking(t) {
      var (g', t') := SeekStep(cfg, g, t, t.place.e, n);
      SeekIgnoresTask(cfg, g, t, t.place.e, n, j, x);
      SeekNeedsNames(cfg, g, t, n);
      PassIgnoresTask(cfg, g', t', tool, n, j, x);
    } else {
      EncodeEndIgnoresTask(cfg, g, t, tool, j, x);
    }
  }

  /** One more step of a pass. */
  lemma PassOneStep(cfg: Config, g: Shared, t: Task, tool: Tool, n: Names)
    requires t.place.Encoding?
    ensures var (g', t') := ConversionStep(cfg, g, t, t.place.e, tool, n);
      FinishPass(cfg, g, t, tool, n) == FinishPass(cfg, g', t', tool, n)
  {
    if !SeeksSource(t.place.e) {
      var (g', t') := EncodeStep(cfg, g, t, t.place.e, tool);
      assert FinishEncode(cfg, g, t, tool) == FinishEncode(cfg, g', t', tool);
    }
  }

  lemma PassGoesOn(cfg: Config, g: Shared, t: Task, tool: Tool, n: Names)
    requires t.place.Encoding?
    ensures var t' := ConversionStep(cfg, g, t, t.place.e, tool, n).1;
      !t'.place.Waiting? && (!Seeking(t) ==> !Seeking(t'))
      && (t'.place.Encoding? ==> EncodeRank(t'.place.e) < EncodeRank(t.place.e))
  {
  }

  lemma {:induction false} PassIsRun(cfg: Config, st: State, j: string, tool: Tool, n: Names) returns (run: seq<Step>)
    requires j in st.g.tasks && !st.g.tasks[j].place.Waiting? && (Seeking(st.g.tasks[j]) ==> FreshNames(st.g, n))
    ensures IsRun(cfg, st, run)
    ensures var (end, t') := FinishPass(cfg, st.g, st.g.tasks[j], tool, n);
      AfterRun(cfg, st, run) == State(At(end, j, t'), st.requests)
    decreases if st.g.tasks[j].place.Encoding? then EncodeRank(st.g.tasks[j].place.e) else 0
  {
    var t := st.g.tasks[j];
    run := [];
    if !t.place.Encoding? {
      AtSame(st.g, j);
    } else {
      var k := n;
      if !Seeking(t) {
        k := NewNames(st.g);
      }
      var (g', t') := ConversionStep(cfg, st.g, t, t.place.e, tool, n);
      PassGoesOn(cfg, st.g, t, tool, n);
      PassOneStep(cfg, st.g, t, tool, n);
      var st' := Next(cfg, st, Labour(j, tool, k));
      assert st' == State(At(g', j, t'), st.requests);
      PassKeepsTask(cfg, st.g, t, tool, n, j);
      PassIgnoresTask(cfg, g', t', tool, n, j, t');
      var (end, last) := FinishPass(cfg, g', t', tool, n);
      AtTwice(end, j, t', last);
      var rest := PassIsRun(cfg, st', j, tool, n);
      StepFirst(cfg, st, Labour(j, tool, k), rest);
      run := [Labour(j, tool, k)] + rest;
    }
  }

  /** Until it ends, a pass leaves the entry of its own job alone, and the names unused. */
  lemma PassKeepsTask(cfg: Config, g: Shared, t: Task, tool: Tool, n: Names, j: string)
    requires t.place.Encoding? && j in g.tasks && (Seeking(t) ==> FreshNames(g, n))
    ensures var (g', t') := ConversionStep(cfg, g, t, t.place.e, tool, n);
      j in g'.tasks && g'.tasks[j] == g.tasks[j] && (Seeking(t') ==> FreshNames(At(g', j, t'), n) && FreshNames(g', n))
  {
    PassGoesOn(cfg, g, t, tool, n);
    if Seeking(t) {
      SeekNeedsNames(cfg, g, t, n);
    } else {
      EncodeEffect(cfg, g, t, t.place.e, tool);
    }
  }
}
