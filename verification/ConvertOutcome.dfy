/** What one whole convert request leaves stored of its session. */
module ConvertOutcome {
  import opened Jobs
  import opened VariantKey
  import opened Model
  import opened ApiModel
  import opened ApiInvariant
  import opened Effects
  import opened HandlerRuns
  import opened HandlerClaims

  /** What no handler ever changes of a session after it is created. */
  predicate SameOrigin(s: Session, s': Session) {
    s.id == s'.id && s.url == s'.url && s.duration == s'.duration
  }

  /** The stored session is the one that the request works on. */
  predicate WorksOn(g: Shared, pc: ConvertPc, id: string) {
    id in g.sessions && (pc.ConvDone? || (if pc.ConvGet? then pc.id == id && g.sessions[id].id == id
                                          else pc.s.id == id && SameOrigin(g.sessions[id], pc.s)))
  }

  /** The source search stores the session only when the request is accepted. */
  lemma {:induction false} SourceStoresOnce(cfg: Config, g: Shared, pc: ConvertPc, n: Names, id: string)
    requires !LooksForOutput(pc) && WorksOn(g, pc, id)
    ensures var (end, reply) := FinishSource(cfg, g, pc, n);
      && id in end.sessions && SameOrigin(g.sessions[id], end.sessions[id])
      && (reply != Accepted ==> end.sessions == g.sessions)
      && (reply == Accepted && !pc.ConvDone? && !pc.ConvFinish? ==>
            end.sessions[id].state == Converting || end.sessions[id].state == Queued)
    decreases ConvertRank(pc)
  {
    if !pc.ConvDone? {
      var (g', pc') := SourceSearch(cfg, g, pc, n);
      SourceEffects(cfg, g, pc, n);
      SourceStoresOnce(cfg, g', pc', n, id);
    }
  }

  lemma OutputStepKeepsOrigin(cfg: Config, g: Shared, pc: ConvertPc, id: string)
    requires LooksForOutput(pc) && WorksOn(g, pc, id)
    requires !pc.ConvGet? ==> pc.s.sourcePath == g.sessions[id].sourcePath
    ensures var (g', pc') := OutputSearch(cfg, g, pc);
      && WorksOn(g', pc', id) && SameOrigin(g.sessions[id], g'.sessions[id])
      && g'.sessions[id].sourcePath == g.sessions[id].sourcePath
      && (!pc'.ConvDone? ==> pc'.s.sourcePath == g.sessions[id].sourcePath)
  {
    OutputEffects(cfg, g, pc);
  }

  /** A refused request leaves the stored source path alone. */
  lemma {:induction false} RequestKeepsOrigin(cfg: Config, g: Shared, pc: ConvertPc, n: Names, id: string)
    requires WorksOn(g, pc, id)
    requires LooksForOutput(pc) && !pc.ConvGet? ==> pc.s.sourcePath == g.sessions[id].sourcePath
    ensures var (end, reply) := FinishConvert(cfg, g, pc, n);
      && id in end.sessions && SameOrigin(g.sessions[id], end.sessions[id])
      && (reply == QueueFull ==> end.sessions[id].sourcePath == g.sessions[id].sourcePath)
    decreases ConvertRank(pc)
  {
    if LooksForOutput(pc) {
      var (g', pc') := OutputSearch(cfg, g, pc);
      OutputStepKeepsOrigin(cfg, g, pc, id);
      RequestKeepsOrigin(cfg, g', pc', n, id);
    } else {
      SourceStoresOnce(cfg, g, pc, n, id);
    }
  }

  // ------------------------------------------- completed without an output

  predicate Bare(s: Session) {
    s.state == Completed && s.outputPath == NoPath
  }

  /** The variant map still names an output whose file is gone. */
  predicate OutputGone(g: Shared, v: string) {
    VariantOf(g.variants, v) != NoPath && !OnDisk(g.files, VariantOf(g.variants, v))
  }

  /** The stored session is bare, or will be after the output search, unless the request is accepted. */
  predicate EndsBare(g: Shared, pc: ConvertPc) {
    match pc
    case ConvHash(s, _) => s.state == Completed && OutputGone(g, s.variantHash)
    case ConvVariant(s, _) => s.state == Completed && OutputGone(g, s.variantHash)
    case ConvVariantStat(s, _, out) => s.state == Completed && !OnDisk(g.files, out)
    case ConvClear(s, _) => s.state == Completed
    case ConvForget(s, _) => Bare(s)
    case _ => false
  }

  lemma {:induction false} SearchLeavesBare(cfg: Config, g: Shared, pc: ConvertPc, n: Names, id: string)
    requires LooksForOutput(pc) && !pc.ConvGet? && WorksOn(g, pc, id)
    requires !pc.ConvForget? ==> !Bare(g.sessions[id]) && !Bare(pc.s)
    requires pc.ConvVariantStat? ==> pc.out != NoPath
    requires pc.ConvReuse? ==> pc.s.outputPath != NoPath
    ensures var (end, reply) := FinishConvert(cfg, g, pc, n);
      id in end.sessions && (Bare(end.sessions[id]) <==> EndsBare(g, pc) && reply == QueueFull)
    decreases ConvertRank(pc)
  {
    var (g', pc') := OutputSearch(cfg, g, pc);
    OutputEffects(cfg, g, pc);
    if LooksForOutput(pc') {
      SearchLeavesBare(cfg, g', pc', n, id);
    } else {
      SourceStoresOnce(cfg, g', pc', n, id);
      if !pc'.ConvDone? {
        SourceAnswers(cfg, g', pc', n);
      }
    }
  }

  lemma {:induction false} SourceAnswers(cfg: Config, g: Shared, pc: ConvertPc, n: Names)
    requires !LooksForOutput(pc) && !pc.ConvDone?
    ensures FinishSource(cfg, g, pc, n).1 == Accepted || FinishSource(cfg, g, pc, n).1 == QueueFull
    decreases ConvertRank(pc)
  {
    var (g', pc') := SourceSearch(cfg, g, pc, n);
    if !pc'.ConvDone? {
      SourceAnswers(cfg, g', pc', n);
    }
  }

  /** The variant that the request asks for. */
  function AskedVariant(cfg: Config, s: Session, c: Clip): string {
    VariantHash(cfg, AssetHash(cfg, s.url), c)
  }

  /**
    A convert request leaves a session completed without an output exactly when the session was
    completed, the output asked for has been lost, and a queue lacks a place that is needed.
   */
  lemma CompletedWithoutOutputIff(cfg: Config, g: Shared, id: string, ask: Ask, n: Names)
    requires id in g.sessions && g.sessions[id].id == id && !Bare(g.sessions[id]) && n.download !in g.tasks
    ensures var s := g.sessions[id];
      var (end, reply) := FinishConvert(cfg, g, ConvGet(id, ask), n);
      && id in end.sessions
      && (Bare(end.sessions[id]) <==>
            && ConvertAllowed(cfg, s, ask.clip) && s.state == Completed && OutputGone(g, AskedVariant(cfg, s, ask.clip))
            && !HasPlaces(cfg, g, ConvGet(id, ask)))
      && (Bare(end.sessions[id]) ==> reply == QueueFull)
  {
    var s := g.sessions[id];
    RepliesExplained(cfg, g, ConvGet(id, ask), n, AssetHash(cfg, s.url));
    if ConvertAllowed(cfg, s, ask.clip) {
      var (g', pc') := OutputSearch(cfg, g, ConvGet(id, ask));
      assert FinishConvert(cfg, g, ConvGet(id, ask), n) == FinishConvert(cfg, g', pc', n);
      SearchLeavesBare(cfg, g', pc', n, id);
    } else {
      assert FinishConvert(cfg, g, ConvGet(id, ask), n) == FinishConvert(cfg, g, ConvDone(Rejected), n);
    }
  }
}
