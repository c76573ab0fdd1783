/**
  How many downloads a sequence of requests for one video can queue, when no worker,
  delete or cleanup step comes between them.
 */
module Dedup {
  import opened Jobs
  import opened VariantKey
  import opened Model
  import opened ApiModel
  import opened ApiInvariant
  import opened HandlerRuns
  import opened HandlerClaims

  datatype Call =
    | PrepareCall(id: string, url: string, duration: int, n: Names)
    | ConvertCall(id: string, ask: Ask, n: Names)

  function AfterCall(cfg: Config, g: Shared, c: Call): Shared {
    match c
    case PrepareCall(id, url, duration, n) => FinishPrepare(cfg, g, StartPrepare(cfg, id, url, duration), n).0
    case ConvertCall(id, ask, n) => FinishConvert(cfg, g, ConvGet(id, ask), n).0
  }

  /** The call is about the video whose canonical id hashes to `hash`. */
  predicate About(cfg: Config, g: Shared, c: Call, hash: string) {
    match c
    case PrepareCall(_, url, _, _) => AssetHash(cfg, url) == hash
    case ConvertCall(id, _, _) => id in g.sessions ==> AssetHash(cfg, g.sessions[id].url) == hash
  }

  function NewDownloads(g: Shared, c: Call): nat {
    if c.n.download in g.tasks then 1 else 0
  }

  /** The call is a convert request for a session whose own source path leads nowhere. */
  function StaleHit(g: Shared, c: Call): nat {
    if c.ConvertCall? && c.id in g.sessions && Stale(g, g.sessions[c.id]) then 1 else 0
  }

  function Credit(g: Shared, hash: string): nat {
    if AssetMissing(g, hash) then 1 else 0
  }

  /** A call spends the one credit of a missing asset, or is a stale hit, or queues nothing. */
  lemma CallIsPaidFor(cfg: Config, g: Shared, c: Call, hash: string)
    requires FreshNames(g, c.n) && About(cfg, g, c, hash)
    ensures NewDownloads(AfterCall(cfg, g, c), c) + Credit(AfterCall(cfg, g, c), hash) <= Credit(g, hash) + StaleHit(g, c)
  {
    match c
    case PrepareCall(id, url, duration, n) =>
      PrepareDownloadsIff(cfg, g, StartPrepare(cfg, id, url, duration), n, hash, HasRoom(cfg, g, Download));
    case ConvertCall(id, ask, n) =>
      ConvertDownloadsIff(cfg, g, id, ask, n, hash);
  }

  ghost predicate IsSequence(cfg: Config, g: Shared, calls: seq<Call>, hash: string)
    decreases |calls|
  {
    calls == [] ||
    (FreshNames(g, calls[0].n) && About(cfg, g, calls[0], hash)
     && IsSequence(cfg, AfterCall(cfg, g, calls[0]), calls[1..], hash))
  }

  function TotalQueued(cfg: Config, g: Shared, calls: seq<Call>): nat
    decreases |calls|
  {
    if calls == [] then 0 else
      var g' := AfterCall(cfg, g, calls[0]);
      NewDownloads(g', calls[0]) + TotalQueued(cfg, g', calls[1..])
  }

  function StaleHits(cfg: Config, g: Shared, calls: seq<Call>): nat
    decreases |calls|
  {
    if calls == [] then 0
    else StaleHit(g, calls[0]) + StaleHits(cfg, AfterCall(cfg, g, calls[0]), calls[1..])
  }

  /**
    From any state, a sequence of requests for one video queues at most one download, plus one
    for each convert request that meets a source path leading nowhere.
   */
  lemma {:induction false} DownloadsAreShared(cfg: Config, g: Shared, calls: seq<Call>, hash: string)
    requires IsSequence(cfg, g, calls, hash)
    ensures TotalQueued(cfg, g, calls) <= Credit(g, hash) + StaleHits(cfg, g, calls)
    decreases |calls|
  {
    if calls != [] {
      CallIsPaidFor(cfg, g, calls[0], hash);
      DownloadsAreShared(cfg, AfterCall(cfg, g, calls[0]), calls[1..], hash);
    }
  }

  // ---------------------------------------- without stale sessions: at most one

  ghost predicate NoneStale(cfg: Config, g: Shared, hash: string) {
    forall id | id in g.sessions && AssetHash(cfg, g.sessions[id].url) == hash :: !Stale(g, g.sessions[id])
  }

  predicate CopyOk(cfg: Config, g: Shared, s: Session, hash: string) {
    AssetHash(cfg, s.url) == hash ==> !Stale(g, s)
  }

  lemma {:induction false} SourceKeepsFresh(cfg: Config, g: Shared, pc: ConvertPc, n: Names, hash: string)
    requires !LooksForOutput(pc) && NoneStale(cfg, g, hash)
    requires pc.ConvDone? || CopyOk(cfg, g, pc.s, hash)
    requires pc.ConvLookStat? ==> pc.s.sourcePath == NoPath
    requires pc.ConvLook? ==> pc.s.sourcePath == NoPath
    ensures NoneStale(cfg, FinishSource(cfg, g, pc, n).0, hash)
    decreases ConvertRank(pc)
  {
    if !pc.ConvDone? {
      var (g', pc') := SourceSearch(cfg, g, pc, n);
      SourceKeepsFresh(cfg, g', pc', n, hash);
    }
  }

  lemma {:induction false} ConvertKeepsFresh(cfg: Config, g: Shared, pc: ConvertPc, n: Names, hash: string)
    requires NoneStale(cfg, g, hash)
    requires pc.ConvDone? || pc.ConvGet? || CopyOk(cfg, g, pc.s, hash)
    requires pc.ConvLook? || pc.ConvLookStat? ==> pc.s.sourcePath == NoPath
    ensures NoneStale(cfg, FinishConvert(cfg, g, pc, n).0, hash)
    decreases ConvertRank(pc)
  {
    if LooksForOutput(pc) {
      var (g', pc') := OutputSearch(cfg, g, pc);
      ConvertKeepsFresh(cfg, g', pc', n, hash);
    } else {
      SourceKeepsFresh(cfg, g, pc, n, hash);
    }
  }

  lemma {:induction false} PrepareKeepsFresh(cfg: Config, g: Shared, pc: PreparePc, n: Names, hash: string)
    requires NoneStale(cfg, g, hash) && (pc.PrepDone? || pc.s.sourcePath == NoPath)
    ensures NoneStale(cfg, FinishPrepare(cfg, g, pc, n).0, hash)
    decreases PrepareRank(pc)
  {
    if !pc.PrepDone? {
      var (g', pc') := PrepareStep(cfg, g, pc, n);
      PrepareKeepsFresh(cfg, g', pc', n, hash);
    }
  }

  lemma {:induction false} FreshSessionsNeverHit(cfg: Config, g: Shared, calls: seq<Call>, hash: string)
    requires IsSequence(cfg, g, calls, hash) && NoneStale(cfg, g, hash)
    ensures StaleHits(cfg, g, calls) == 0
    decreases |calls|
  {
    if calls != [] {
      match calls[0] {
        case PrepareCall(id, url, duration, n) => PrepareKeepsFresh(cfg, g, StartPrepare(cfg, id, url, duration), n, hash);
        case ConvertCall(id, ask, n) => ConvertKeepsFresh(cfg, g, ConvGet(id, ask), n, hash);
      }
      FreshSessionsNeverHit(cfg, AfterCall(cfg, g, calls[0]), calls[1..], hash);
    }
  }

  /** When no session of the video points at a missing file, the whole sequence queues at most one download. */
  lemma AtMostOneDownload(cfg: Config, g: Shared, calls: seq<Call>, hash: string)
    requires IsSequence(cfg, g, calls, hash) && NoneStale(cfg, g, hash)
    ensures TotalQueued(cfg, g, calls) <= 1
  {
    DownloadsAreShared(cfg, g, calls, hash);
    FreshSessionsNeverHit(cfg, g, calls, hash);
  }

  // ------------------------------- with stale sessions: one download for each

  /** What a convert request of session `id` leaves alone. */
  ghost predicate Elsewhere(g: Shared, id: string, n: Names, g': Shared) {
    && (forall x | x != id && x in g.sessions :: x in g'.sessions && g'.sessions[x] == g.sessions[x])
    && (forall v | VariantOf(g.variants, v) == NoPath :: VariantOf(g'.variants, v) == NoPath)
    && InQueue(g'.tasks, Download) <= InQueue(g.tasks, Download) + {n.download}
    && (forall j | j in g.tasks :: j in g'.tasks)
  }

  lemma OfferElsewhere(cfg: Config, g: Shared, id: string, n: Names, job: Job)
    requires job.kind == Download ==> job.id == n.download
    ensures Elsewhere(g, id, n, Offered(cfg, g, job))
  {
    var g' := Offered(cfg, g, job);
    assert g'.sessions == g.sessions && g'.variants == g.variants;
    forall j | j in InQueue(g'.tasks, Download) ensures j in InQueue(g.tasks, Download) + {n.download} {
      assert j != job.id ==> j in g.tasks && g'.tasks[j] == g.tasks[j];
    }
  }

  lemma SourceStepElsewhere(cfg: Config, g: Shared, pc: ConvertPc, n: Names)
    requires !LooksForOutput(pc) && !pc.ConvDone?
    ensures Elsewhere(g, pc.s.id, n, SourceSearch(cfg, g, pc, n).0)
  {
    if pc.ConvDownload? {
      OfferElsewhere(cfg, g, pc.s.id, n, DownloadJob(n, pc.s.id));
    } else if pc.ConvEnqueue? {
      OfferElsewhere(cfg, g, pc.s.id, n, ConvertJob(n, pc.s.id, pc.ask));
    } else {
      assert SourceSearch(cfg, g, pc, n).0.tasks == g.tasks;
    }
  }

  lemma {:induction false} SourceElsewhere(cfg: Config, g: Shared, pc: ConvertPc, n: Names, id: string)
    requires !LooksForOutput(pc) && (pc.ConvDone? || pc.s.id == id)
    ensures Elsewhere(g, id, n, FinishSource(cfg, g, pc, n).0)
    decreases ConvertRank(pc)
  {
    if !pc.ConvDone? {
      var (g', pc') := SourceSearch(cfg, g, pc, n);
      SourceStepElsewhere(cfg, g, pc, n);
      SourceElsewhere(cfg, g', pc', n, id);
    }
  }

  predicate PcOf(pc: ConvertPc, id: string) {
    pc.ConvDone? || (if pc.ConvGet? then pc.id == id else pc.s.id == id)
  }

  ghost predicate FiledById(sessions: Sessions) {
    forall x | x in sessions :: sessions[x].id == x
  }

  lemma OutputStepElsewhere(cfg: Config, g: Shared, pc: ConvertPc, n: Names, id: string)
    requires LooksForOutput(pc) && PcOf(pc, id) && FiledById(g.sessions)
    ensures var (g', pc') := OutputSearch(cfg, g, pc);
      g'.tasks == g.tasks && Elsewhere(g, id, n, g') && PcOf(pc', id) && FiledById(g'.sessions)
  {
  }

  lemma ElsewhereComposes(a: Shared, b: Shared, c: Shared, id: string, n: Names)
    requires Elsewhere(a, id, n, b) && Elsewhere(b, id, n, c)
    ensures Elsewhere(a, id, n, c)
  {
  }

  lemma {:induction false} ConvertElsewhere(cfg: Config, g: Shared, pc: ConvertPc, n: Names, id: string)
    requires PcOf(pc, id) && FiledById(g.sessions)
    ensures Elsewhere(g, id, n, FinishConvert(cfg, g, pc, n).0)
    decreases ConvertRank(pc)
  {
    if LooksForOutput(pc) {
      var (g', pc') := OutputSearch(cfg, g, pc);
      OutputStepElsewhere(cfg, g, pc, n, id);
      ConvertElsewhere(cfg, g', pc', n, id);
      ElsewhereComposes(g, g', FinishConvert(cfg, g', pc', n).0, id, n);
    } else {
      SourceElsewhere(cfg, g, pc, n, id);
    }
  }

  /** A convert request that passes the checks, finds nothing to reuse, and meets a stale source path. */
  predicate HitsStale(cfg: Config, g: Shared, id: string, ask: Ask) {
    && id in g.sessions && ConvertAllowed(cfg, g.sessions[id], ask.clip) && Stale(g, g.sessions[id])
    && VariantOf(g.variants, VariantHash(cfg, AssetHash(cfg, g.sessions[id].url), ask.clip)) == NoPath
  }

  /**
    So sharing is not unconditional: when two sessions of one video both point at the missing
    file, two convert requests queue two downloads of it.
   */
  lemma TwoStaleSessionsDownloadTwice(cfg: Config, g: Shared, a: string, b: string, ask: Ask, ask': Ask, n: Names, m: Names)
    requires MapsOk(cfg, g) && a != b && HitsStale(cfg, g, a, ask) && HitsStale(cfg, g, b, ask')
    requires AssetHash(cfg, g.sessions[a].url) == AssetHash(cfg, g.sessions[b].url)
    requires |InQueue(g.tasks, Download)| + 1 < cfg.capacity && FreshNames(g, n) && FreshNames(g, m)
    requires FreshNames(AfterCall(cfg, g, ConvertCall(a, ask, n)), m)
    ensures TotalQueued(cfg, g, [ConvertCall(a, ask, n), ConvertCall(b, ask', m)]) == 2
  {
    var c, d := ConvertCall(a, ask, n), ConvertCall(b, ask', m);
    var g1 := AfterCall(cfg, g, c);
    var g2 := AfterCall(cfg, g1, d);
    ConvertDownloadsIff(cfg, g, a, ask, n, AssetHash(cfg, g.sessions[a].url));
    ConvertElsewhere(cfg, g, ConvGet(a, ask), n, a);
    SmallerOrEqual(InQueue(g1.tasks, Download), InQueue(g.tasks, Download) + {n.download});
    ConvertDownloadsIff(cfg, g1, b, ask', m, AssetHash(cfg, g.sessions[b].url));
    assert [c, d][1..] == [d] && [d][1..] == [];
    assert TotalQueued(cfg, g2, []) == 0;
    assert TotalQueued(cfg, g1, [d]) == 1;
  }

  lemma SmallerOrEqual(a: set<string>, b: set<string>)
    requires a <= b
    ensures |a| <= |b|
  {
    assert b == a + (b - a);
  }
}
