/**
  Whole handlers: the small programs of ApiModel run to completion with no other step in
  between, and what one such request or worker pass does.
 */
module HandlerRuns {
  import opened Jobs
  import opened VariantKey
  import opened Model
  import opened ApiModel
  import opened ApiInvariant

  // --------------------------------------------------- running to completion

  function PrepareRank(pc: PreparePc): nat {
    match pc
    case PrepCreate(_, _) => 8
    case PrepMark(_) => 7
    case PrepHash(_) => 6
    case PrepLook(_) => 5
    case PrepStat(_, _) => 4
    case PrepExpire(_) => 3
    case PrepReserve(_) => 2
    case PrepEnqueue(_) => 1
    case PrepDone(_) => 0
  }

  function FinishPrepare(cfg: Config, g: Shared, pc: PreparePc, n: Names): (Shared, Reply)
    decreases PrepareRank(pc)
  {
    if pc.PrepDone? then (g, pc.reply) else
      var (g', pc') := PrepareStep(cfg, g, pc, n);
      FinishPrepare(cfg, g', pc', n)
  }

  /** The first part of a prepare request: the session, with its length and its asset hash, is stored. */
  function Registered(cfg: Config, g: Shared, id: string, url: string, duration: int): (Shared, Session) {
    var s0 := Session(id, url, "", "", Preparing, NoPath, NoPath, 0);
    var s1 := s0.(state := Created, duration := duration);
    var s2 := s1.(assetHash := AssetHash(cfg, url));
    var g1 := WithSession(g.(sessions := Inserted(g.sessions, s0)), s1);
    (WithSession(WithHashed(g1, {cfg.canon(url)}), s2), s2)
  }

  lemma RegisterRuns(cfg: Config, g: Shared, id: string, url: string, duration: int, n: Names)
    ensures var s0 := Session(id, url, "", "", Preparing, NoPath, NoPath, 0);
      var (g', s) := Registered(cfg, g, id, url, duration);
      FinishPrepare(cfg, g, PrepCreate(s0, duration), n) ==
        if id in g.sessions then (g, Rejected) else FinishPrepare(cfg, g', PrepLook(s), n)
  {
    var s0 := Session(id, url, "", "", Preparing, NoPath, NoPath, 0);
    var s1 := s0.(state := Created, duration := duration);
    var s2 := s1.(assetHash := AssetHash(cfg, url));
    var g0 := g.(sessions := Inserted(g.sessions, s0));
    var g1 := WithHashed(WithSession(g0, s1), {cfg.canon(url)});
    if id !in g.sessions {
      assert PrepareStep(cfg, g, PrepCreate(s0, duration), n) == (g0, PrepMark(s1));
      assert PrepareStep(cfg, g0, PrepMark(s1), n) == (g1, PrepHash(s2));
      assert FinishPrepare(cfg, g1, PrepHash(s2), n) == FinishPrepare(cfg, WithSession(g1, s2), PrepLook(s2), n);
      assert FinishPrepare(cfg, g0, PrepMark(s1), n) == FinishPrepare(cfg, g1, PrepHash(s2), n);
    }
  }

  function ConvertRank(pc: ConvertPc): nat {
    match pc
    case ConvGet(_, _) => 17
    case ConvHash(_, _) => 16
    case ConvVariant(_, _) => 15
    case ConvVariantStat(_, _, _) => 14
    case ConvReuse(_) => 13
    case ConvClear(_, _) => 12
    case ConvForget(_, _) => 11
    case ConvSource(_, _) => 10
    case ConvExpireOwn(_, _) => 9
    case ConvLook(_, _) => 8
    case ConvLookStat(_, _, _) => 7
    case ConvExpireShared(_, _) => 6
    case ConvCheck(_, _) => 5
    case ConvReserve(_, _) => 4
    case ConvDownload(_, _) => 3
    case ConvEnqueue(_, _, _) => 2
    case ConvFinish(_) => 1
    case ConvDone(_) => 0
  }

  function FinishSource(cfg: Config, g: Shared, pc: ConvertPc, n: Names): (Shared, Reply)
    requires !LooksForOutput(pc)
    decreases ConvertRank(pc)
  {
    if pc.ConvDone? then (g, pc.reply) else
      var (g', pc') := SourceSearch(cfg, g, pc, n);
      FinishSource(cfg, g', pc', n)
  }

  function FinishConvert(cfg: Config, g: Shared, pc: ConvertPc, n: Names): (Shared, Reply)
    decreases ConvertRank(pc)
  {
    if !LooksForOutput(pc) then FinishSource(cfg, g, pc, n) else
      var (g', pc') := OutputSearch(cfg, g, pc);
      FinishConvert(cfg, g', pc', n)
  }

  /** The shared-asset part of the source search: the maps, the local copy, and whether the source is ready. */
  function AfterLook(g: Shared, s: Session): (Shared, Session, bool) {
    var a := AssetOf(g.assets, s.assetHash);
    if a.path == NoPath || a.state != AssetDownloaded then (g, s, false)
    else if OnDisk(g.files, a.path) then (g, s.(sourcePath := a.path), true)
    else (WithAsset(g, s.assetHash, NoPath, AssetExpired), s, false)
  }

  lemma LookRuns(cfg: Config, g: Shared, s: Session, ask: Ask, n: Names)
    ensures var (g', s', ready) := AfterLook(g, s);
      FinishSource(cfg, g, ConvLook(s, ask), n) ==
        FinishSource(cfg, g', if ready then ConvEnqueue(s', ask, true) else ConvCheck(s', ask), n)
  {
    var a := AssetOf(g.assets, s.assetHash);
    if a.path != NoPath && a.state == AssetDownloaded && !OnDisk(g.files, a.path) {
      assert FinishSource(cfg, g, ConvLookStat(s, ask, a.path), n) == FinishSource(cfg, g, ConvExpireShared(s, ask), n);
    }
  }

  /** The end of a convert request, at its queue. */
  lemma EnqueueRuns(cfg: Config, g: Shared, s: Session, ask: Ask, ready: bool, n: Names)
    ensures FinishSource(cfg, g, ConvEnqueue(s, ask, ready), n) ==
      if HasRoom(cfg, g, Convert) then
        (WithSession(Offered(cfg, g, ConvertJob(n, s.id, ask)), s.(state := if ready then Converting else Queued)), Accepted)
      else (g, QueueFull)
  {
    var g1, s1 := Offered(cfg, g, ConvertJob(n, s.id, ask)), s.(state := if ready then Converting else Queued);
    if HasRoom(cfg, g, Convert) {
      assert FinishSource(cfg, g, ConvEnqueue(s, ask, ready), n) == FinishSource(cfg, g1, ConvFinish(s1), n);
      assert FinishSource(cfg, g1, ConvFinish(s1), n) == FinishSource(cfg, WithSession(g1, s1), ConvDone(Accepted), n);
    }
  }

  /** Without a source at hand: a download is asked for unless one is promised. */
  lemma CheckRuns(cfg: Config, g: Shared, s: Session, ask: Ask, n: Names)
    ensures var state := AssetOf(g.assets, s.assetHash).state;
      var g1 := WithAsset(g, s.assetHash, NoPath, AssetPreparing);
      FinishSource(cfg, g, ConvCheck(s, ask), n) ==
        if state == Unset || state == AssetFailed || state == AssetExpired then
          FinishSource(cfg, Offered(cfg, g1, DownloadJob(n, s.id)),
                       if HasRoom(cfg, g1, Download) then ConvEnqueue(s, ask, false) else ConvDone(QueueFull), n)
        else FinishSource(cfg, g, ConvEnqueue(s, ask, false), n)
  {
    var g1 := WithAsset(g, s.assetHash, NoPath, AssetPreparing);
    assert FinishSource(cfg, g, ConvReserve(s, ask), n) == FinishSource(cfg, g1, ConvDownload(s, ask), n);
  }

  /** The output is named but gone: both places forget it. */
  lemma LostOutputRuns(cfg: Config, g: Shared, s: Session, ask: Ask, n: Names)
    requires var out := VariantOf(g.variants, s.variantHash); out != NoPath && !OnDisk(g.files, out)
    ensures var g' := g.(variants := g.variants[s.variantHash := NoPath]);
      var s' := s.(outputPath := NoPath);
      FinishConvert(cfg, g, ConvVariant(s, ask), n) == FinishSource(cfg, WithSession(g', s'), ConvSource(s', ask), n)
  {
    var out := VariantOf(g.variants, s.variantHash);
    var g' := g.(variants := g.variants[s.variantHash := NoPath]);
    var s' := s.(outputPath := NoPath);
    assert OutputSearch(cfg, g, ConvVariant(s, ask)) == (g, ConvVariantStat(s, ask, out));
    assert OutputSearch(cfg, g, ConvVariantStat(s, ask, out)) == (g, ConvClear(s, ask));
    assert OutputSearch(cfg, g, ConvClear(s, ask)) == (g', ConvForget(s', ask));
    assert OutputSearch(cfg, g', ConvForget(s', ask)) == (WithSession(g', s'), ConvSource(s', ask));
    assert FinishConvert(cfg, g', ConvForget(s', ask), n) == FinishSource(cfg, WithSession(g', s'), ConvSource(s', ask), n);
    assert FinishConvert(cfg, g, ConvVariantStat(s, ask, out), n) == FinishConvert(cfg, g', ConvForget(s', ask), n);
  }

  /** The output is there: the session is completed with it. */
  lemma ReuseRuns(cfg: Config, g: Shared, s: Session, ask: Ask, n: Names)
    requires var out := VariantOf(g.variants, s.variantHash); out != NoPath && OnDisk(g.files, out)
    ensures var s' := s.(outputPath := VariantOf(g.variants, s.variantHash), state := Completed);
      FinishConvert(cfg, g, ConvVariant(s, ask), n) == (WithSession(g, s'), Reused)
  {
    var out := VariantOf(g.variants, s.variantHash);
    var s' := s.(outputPath := out, state := Completed);
    assert FinishConvert(cfg, g, ConvReuse(s'), n) == FinishConvert(cfg, WithSession(g, s'), ConvDone(Reused), n);
    assert FinishConvert(cfg, g, ConvVariantStat(s, ask, out), n) == FinishConvert(cfg, g, ConvReuse(s'), n);
  }

  /** The search for an output: the maps, the local copy, and whether the request is completed by it. */
  function AfterSearch(g: Shared, s: Session): (Shared, Session, bool) {
    var out := VariantOf(g.variants, s.variantHash);
    var done, bare := s.(outputPath := out, state := Completed), s.(outputPath := NoPath);
    if out == NoPath then (g, s, false)
    else if OnDisk(g.files, out) then (WithSession(g, done), done, true)
    else (WithSession(g.(variants := g.variants[s.variantHash := NoPath]), bare), bare, false)
  }

  lemma SearchRuns(cfg: Config, g: Shared, s: Session, ask: Ask, n: Names)
    ensures var (g', s', reused) := AfterSearch(g, s);
      FinishConvert(cfg, g, ConvVariant(s, ask), n) ==
        if reused then (g', Reused) else FinishSource(cfg, g', ConvSource(s', ask), n)
  {
    var out := VariantOf(g.variants, s.variantHash);
    if out != NoPath {
      if OnDisk(g.files, out) {
        ReuseRuns(cfg, g, s, ask, n);
      } else {
        LostOutputRuns(cfg, g, s, ask, n);
      }
    }
  }

  function StatusRank(pc: StatusPc): nat {
    match pc
    case StatusGet(_) => 3
    case StatusStat(_) => 2
    case StatusFail(_) => 1
    case StatusDone(_) => 0
  }

  function FinishStatus(g: Shared, pc: StatusPc): (Shared, Reply)
    decreases StatusRank(pc)
  {
    if pc.StatusDone? then (g, pc.reply) else
      var (g', pc') := StatusStep(g, pc);
      FinishStatus(g', pc')
  }

  function DeleteRank(pc: DeletePc): nat {
    match pc
    case DelGet(_) => 4
    case DelMissing(_) => 1
    case DelStore(_) => 3
    case DelOutput(_) => 2
    case DelSource(_) => 1
    case DelDone(_) => 0
  }

  function FinishDelete(g: Shared, pc: DeletePc): (Shared, Reply)
    decreases DeleteRank(pc)
  {
    if pc.DelDone? then (g, pc.reply) else
      var (g', pc') := DeleteStep(g, pc);
      FinishDelete(g', pc')
  }

  /** handleDelete of an existing session, in one go. */
  lemma DeleteRuns(g: Shared, s: Session)
    ensures
      var g1 := g.(sessions := Removed(g.sessions, s.id));
      var g2 := if s.outputPath != NoPath then Without(g1, s.outputPath) else g1;
      var g3 := if s.sourcePath != NoPath then Without(g2, s.sourcePath) else g2;
      FinishDelete(g, DelStore(s)) == (g3, Answered)
  {
    var g1 := g.(sessions := Removed(g.sessions, s.id));
    var g2 := if s.outputPath != NoPath then Without(g1, s.outputPath) else g1;
    var g3 := if s.sourcePath != NoPath then Without(g2, s.sourcePath) else g2;
    assert FinishDelete(g1, DelOutput(s)) == FinishDelete(g2, DelSource(s)) == (g3, Answered);
  }

  /** handleDelete removes an unknown id all the same. */
  lemma DeleteRequestRuns(g: Shared, id: string)
    ensures FinishDelete(g, DelGet(id)) ==
      if id in g.sessions then FinishDelete(g, DelStore(g.sessions[id]))
      else (g.(sessions := Removed(g.sessions, id)), Answered)
  {
    if id !in g.sessions {
      assert FinishDelete(g, DelMissing(id)) == FinishDelete(g.(sessions := Removed(g.sessions, id)), DelDone(Answered));
    }
  }

  function FetchRank(pc: FetchPc): nat {
    match pc
    case DlGet => 5
    case DlMark(_) => 4
    case DlTool(_) => 3
    case DlFail(_) => 2
    case DlFailAsset(_) => 1
    case DlSave(_) => 2
    case DlAsset(_) => 1
  }

  function EncodeRank(pc: EncodePc): nat {
    match pc
    case CvGet => 12
    case CvLook(_) => 11
    case CvStat(_, _) => 10
    case CvHydrate(_) => 9
    case CvExpireShared(_) => 9
    case CvReserve(_) => 8
    case CvDownload(_) => 7
    case CvGuard(_) => 6
    case CvExpireOwn(_) => 5
    case CvForget(_) => 4
    case CvStart(_) => 5
    case CvTool(_) => 4
    case CvFail(_) => 3
    case CvSave(_) => 3
    case CvPublish(_) => 2
  }

  /** One pass of handleDownload over a job, until the worker lets go of it. */
  function FinishFetch(cfg: Config, g: Shared, t: Task, tool: Tool): (Shared, Task)
    decreases if t.place.Fetching? then FetchRank(t.place.f) else 0
  {
    if !t.place.Fetching? then (g, t) else
      var (g', t') := DownloadStep(cfg, g, t, t.place.f, tool);
      FinishFetch(cfg, g', t', tool)
  }

  function FinishEncode(cfg: Config, g: Shared, t: Task, tool: Tool): (Shared, Task)
    requires t.place.Encoding? ==> !SeeksSource(t.place.e)
    decreases if t.place.Encoding? then EncodeRank(t.place.e) else 0
  {
    if !t.place.Encoding? then (g, t) else
      var (g', t') := EncodeStep(cfg, g, t, t.place.e, tool);
      FinishEncode(cfg, g', t', tool)
  }

  /** One pass of handleConvert over a job, until the worker lets go of it. */
  function FinishPass(cfg: Config, g: Shared, t: Task, tool: Tool, n: Names): (Shared, Task)
    decreases if t.place.Encoding? then EncodeRank(t.place.e) else 0
  {
    if t.place.Encoding? && SeeksSource(t.place.e) then
      var (g', t') := SeekStep(cfg, g, t, t.place.e, n);
      FinishPass(cfg, g', t', tool, n)
    else FinishEncode(cfg, g, t, tool)
  }

  /** A pass ends with the same job id, and not in the queue. */
  predicate LetsGo(t: Task, t': Task) {
    t'.job.id == t.job.id && !t'.place.Waiting?
  }

  lemma {:induction false} FetchLetsGo(cfg: Config, g: Shared, t: Task, tool: Tool)
    requires !t.place.Waiting?
    ensures LetsGo(t, FinishFetch(cfg, g, t, tool).1)
    decreases if t.place.Fetching? then FetchRank(t.place.f) else 0
  {
    if t.place.Fetching? {
      var (g', t') := DownloadStep(cfg, g, t, t.place.f, tool);
      FetchLetsGo(cfg, g', t', tool);
    }
  }

  lemma {:induction false} EncodeLetsGo(cfg: Config, g: Shared, t: Task, tool: Tool)
    requires !t.place.Waiting? && (t.place.Encoding? ==> !SeeksSource(t.place.e))
    ensures LetsGo(t, FinishEncode(cfg, g, t, tool).1)
    decreases if t.place.Encoding? then EncodeRank(t.place.e) else 0
  {
    if t.place.Encoding? {
      var (g', t') := EncodeStep(cfg, g, t, t.place.e, tool);
      EncodeLetsGo(cfg, g', t', tool);
    }
  }

  lemma {:induction false} PassLetsGo(cfg: Config, g: Shared, t: Task, tool: Tool, n: Names)
    requires !t.place.Waiting?
    ensures LetsGo(t, FinishPass(cfg, g, t, tool, n).1)
    decreases if t.place.Encoding? then EncodeRank(t.place.e) else 0
  {
    if t.place.Encoding? && SeeksSource(t.place.e) {
      var (g', t') := SeekStep(cfg, g, t, t.place.e, n);
      PassLetsGo(cfg, g', t', tool, n);
    } else {
      EncodeLetsGo(cfg, g, t, tool);
    }
  }

  /** A successful download, recorded for the session and the asset. */
  lemma InstallRuns(cfg: Config, g: Shared, t: Task, s: Session, nonEmpty: bool)
    requires t.place == Fetching(DlTool(s))
    ensures var out := Source(s.assetHash);
      var g1 := g.(files := g.files[out := if nonEmpty then Audio(cfg.canon(s.url)) else Blank]);
      var g2 := WithSession(g1, s.(sourcePath := out, state := Downloaded));
      FinishFetch(cfg, g, t, Installs(nonEmpty)) ==
        (WithAsset(g2, s.assetHash, out, AssetDownloaded), t.(place := Ended(Served), calls := t.calls + 1))
  {
    var out := Source(s.assetHash);
    var s1 := s.(sourcePath := out, state := Downloaded);
    var g1 := g.(files := g.files[out := if nonEmpty then Audio(cfg.canon(s.url)) else Blank]);
    var g2 := WithSession(g1, s1);
    var g3 := WithAsset(g2, s.assetHash, out, AssetDownloaded);
    var t1 := t.(place := Fetching(DlSave(s1)), calls := t.calls + 1);
    var t2, t3 := t1.(place := Fetching(DlAsset(s1))), t1.(place := Ended(Served));
    assert DownloadStep(cfg, g, t, DlTool(s), Installs(nonEmpty)) == (g1, t1);
    assert DownloadStep(cfg, g1, t1, DlSave(s1), Installs(nonEmpty)) == (g2, t2);
    assert DownloadStep(cfg, g2, t2, DlAsset(s1), Installs(nonEmpty)) == (g3, t3);
    assert FinishFetch(cfg, g2, t2, Installs(nonEmpty)) == FinishFetch(cfg, g3, t3, Installs(nonEmpty)) == (g3, t3);
    assert FinishFetch(cfg, g1, t1, Installs(nonEmpty)) == FinishFetch(cfg, g2, t2, Installs(nonEmpty));
  }

  /** A failed one: asleep again, or the failure recorded for both. */
  lemma FailedFetchRuns(cfg: Config, g: Shared, t: Task, s: Session)
    requires t.place == Fetching(DlTool(s))
    ensures var s1 := s.(state := Failed);
      var t1 := AfterFailure(cfg, t, Fetching(DlFail(s1)));
      FinishFetch(cfg, g, t, ToolFails) ==
        if t1.place == Sleeping then (g, t1)
        else (WithAsset(WithSession(g, s1), s.assetHash, NoPath, AssetFailed), t1.(place := Ended(GaveUp)))
  {
    var s1 := s.(state := Failed);
    var t1 := AfterFailure(cfg, t, Fetching(DlFail(s1)));
    assert FinishFetch(cfg, g, t, ToolFails) == FinishFetch(cfg, g, t1, ToolFails);
    if t1.place != Sleeping {
      var g2 := WithSession(g, s1);
      var g3 := WithAsset(g2, s.assetHash, NoPath, AssetFailed);
      var t2, t3 := t1.(place := Fetching(DlFailAsset(s1))), t1.(place := Ended(GaveUp));
      assert FinishFetch(cfg, g, t1, ToolFails) == FinishFetch(cfg, g2, t2, ToolFails);
      assert FinishFetch(cfg, g2, t2, ToolFails) == FinishFetch(cfg, g3, t3, ToolFails) == (g3, t3);
    }
  }

  /** A worker without a source looks at the shared asset: the maps, and its copy. */
  function Adopted(g: Shared, s: Session): (Shared, Session) {
    var a := AssetOf(g.assets, s.assetHash);
    var s1 := s.(sourcePath := a.path, state := Downloaded);
    if a.path == NoPath || a.state != AssetDownloaded then (g, s)
    else if OnDisk(g.files, a.path) then (WithSession(g, s1), s1)
    else (WithAsset(g, s.assetHash, NoPath, AssetExpired), s)
  }

  lemma AdoptRuns(cfg: Config, g: Shared, t: Task, s: Session, tool: Tool, n: Names)
    ensures var (g', s') := Adopted(g, s);
      FinishPass(cfg, g, t.(place := Encoding(CvLook(s))), tool, n) == FinishPass(cfg, g', t.(place := Gate(s')), tool, n)
  {
    var a := AssetOf(g.assets, s.assetHash);
    if a.path != NoPath && a.state == AssetDownloaded {
      var s1 := s.(sourcePath := a.path, state := Downloaded);
      var t1 := t.(place := Encoding(CvStat(s, a.path)));
      var t2 := t.(place := Encoding(if OnDisk(g.files, a.path) then CvHydrate(s1) else CvExpireShared(s)));
      assert SeekStep(cfg, g, t1, CvStat(s, a.path), n) == (g, t2);
      assert FinishPass(cfg, g, t.(place := Encoding(CvLook(s))), tool, n) == FinishPass(cfg, g, t1, tool, n);
      assert FinishPass(cfg, g, t1, tool, n) == FinishPass(cfg, g, t2, tool, n);
    }
  }

  /** The final guard finds no source: it is marked expired and forgotten. */
  lemma ForgetSource(cfg: Config, g: Shared, t: Task, tool: Tool, s: Session)
    requires t.place == Encoding(CvGuard(s)) && !OnDisk(g.files, s.sourcePath)
    ensures FinishEncode(cfg, g, t, tool) ==
      (WithSession(WithAsset(g, s.assetHash, NoPath, AssetExpired), s.(sourcePath := NoPath)), t.(place := Sleeping))
  {
    var s' := s.(sourcePath := NoPath);
    var t1, t2 := t.(place := Encoding(CvExpireOwn(s))), t.(place := Encoding(CvForget(s')));
    var g1 := WithAsset(g, s.assetHash, NoPath, AssetExpired);
    assert EncodeStep(cfg, g, t, CvGuard(s), tool) == (g, t1);
    assert EncodeStep(cfg, g, t1, CvExpireOwn(s), tool) == (g1, t2);
    assert EncodeStep(cfg, g1, t2, CvForget(s'), tool) == (WithSession(g1, s'), t.(place := Sleeping));
    assert FinishEncode(cfg, g1, t2, tool) == (WithSession(g1, s'), t.(place := Sleeping));
    assert FinishEncode(cfg, g, t1, tool) == FinishEncode(cfg, g1, t2, tool);
  }

  /** The final guard lets the pass through to the converter. */
  lemma StartRuns(cfg: Config, g: Shared, t: Task, tool: Tool, s: Session)
    requires t.place == Encoding(CvGuard(s)) && OnDisk(g.files, s.sourcePath)
    ensures var s1 := s.(state := Converting);
      var g1 := WithSession(g, s1);
      FinishEncode(cfg, g, t, tool) ==
        if s.variantHash != "" then FinishEncode(cfg, g1, t.(place := Encoding(CvTool(s1))), tool)
        else
          var key := Key(s.assetHash, ClipOf(t.job));
          var s2 := s1.(variantHash := cfg.hash(key));
          FinishEncode(cfg, WithHashed(g1, {key}), t.(place := Encoding(CvTool(s2))), tool)
  {
    var s1 := s.(state := Converting);
    var t1 := t.(place := Encoding(CvStart(s1)));
    assert EncodeStep(cfg, g, t, CvGuard(s), tool) == (g, t1);
    assert FinishEncode(cfg, g, t, tool) == FinishEncode(cfg, g, t1, tool);
    var (g2, t2) := EncodeStep(cfg, g, t1, CvStart(s1), tool);
    assert FinishEncode(cfg, g, t1, tool) == FinishEncode(cfg, g2, t2, tool);
  }

  /** A pass after its source has been looked for. */
  lemma GateRuns(cfg: Config, g: Shared, t: Task, s: Session, tool: Tool, n: Names)
    ensures FinishPass(cfg, g, t.(place := Gate(s)), tool, n) ==
      if s.sourcePath == NoPath then
        (Offered(cfg, WithAsset(g, s.assetHash, NoPath, AssetPreparing), DownloadJob(n, s.id)), t.(place := Sleeping))
      else if s.state == Downloading || s.state == Preparing || s.state == Created then (g, t.(place := Sleeping))
      else FinishEncode(cfg, g, t.(place := Encoding(CvGuard(s))), tool)
  {
    if s.sourcePath == NoPath {
      var g1 := WithAsset(g, s.assetHash, NoPath, AssetPreparing);
      var t1, t2 := t.(place := Encoding(CvDownload(s))), t.(place := Sleeping);
      var g2 := Offered(cfg, g1, DownloadJob(n, s.id));
      assert SeekStep(cfg, g, t.(place := Gate(s)), CvReserve(s), n) == (g1, t1);
      assert SeekStep(cfg, g1, t1, CvDownload(s), n) == (g2, t2);
      assert FinishPass(cfg, g2, t2, tool, n) == (g2, t2);
      assert FinishPass(cfg, g1, t1, tool, n) == (g2, t2);
    }
  }

  /** A successful conversion, recorded and published. */
  lemma ConversionRuns(cfg: Config, g: Shared, t: Task, s: Session, nonEmpty: bool)
    requires t.place == Encoding(CvTool(s)) && OnDisk(g.files, s.sourcePath)
    ensures var out := Output(s.variantHash);
      var content := if nonEmpty then Mp3(g.files[s.sourcePath], ClipOf(t.job)) else Blank;
      var g1 := g.(files := g.files[out := content], converted := g.converted + {s.variantHash});
      var g2 := WithSession(g1, s.(outputPath := out, state := Completed));
      FinishEncode(cfg, g, t, Installs(nonEmpty)) ==
        (g2.(variants := g2.variants[s.variantHash := out]), t.(place := Ended(Served), calls := t.calls + 1))
  {
    var out, s1 := Output(s.variantHash), s.(outputPath := Output(s.variantHash), state := Completed);
    var content := if nonEmpty then Mp3(g.files[s.sourcePath], ClipOf(t.job)) else Blank;
    var g1 := g.(files := g.files[out := content], converted := g.converted + {s.variantHash});
    var g2 := WithSession(g1, s1);
    var g3 := g2.(variants := g2.variants[s.variantHash := out]);
    var t1 := t.(place := Encoding(CvSave(s1)), calls := t.calls + 1);
    var t2, t3 := t1.(place := Encoding(CvPublish(s1))), t1.(place := Ended(Served));
    assert EncodeStep(cfg, g, t, CvTool(s), Installs(nonEmpty)) == (g1, t1);
    assert EncodeStep(cfg, g1, t1, CvSave(s1), Installs(nonEmpty)) == (g2, t2);
    assert EncodeStep(cfg, g2, t2, CvPublish(s1), Installs(nonEmpty)) == (g3, t3);
    assert FinishEncode(cfg, g2, t2, Installs(nonEmpty)) == FinishEncode(cfg, g3, t3, Installs(nonEmpty)) == (g3, t3);
    assert FinishEncode(cfg, g1, t1, Installs(nonEmpty)) == FinishEncode(cfg, g2, t2, Installs(nonEmpty));
  }
}
