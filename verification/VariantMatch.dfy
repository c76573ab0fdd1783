/**
  When the outputs match their names: exactly as long as no conversion runs under the name of
  another clip, and hence always when each session sticks to one clip.
 */
module VariantMatch {
  import opened Jobs
  import opened VariantKey
  import opened Model
  import opened ApiModel
  import opened ApiInvariant
  import opened ApiRetries
  import opened Identity
  import opened Effects
  import opened VariantCache

  /** HashString has not collided on the texts hashed so far. */
  ghost predicate CollisionFree(cfg: Config, hashed: set<string>) {
    forall x, y | x in hashed && y in hashed && cfg.hash(x) == cfg.hash(y) :: x == y
  }

  /** Every non-empty output is a conversion whose key hashes to its name. */
  ghost predicate OutputsMatch(cfg: Config, files: map<Path, Content>) {
    forall v | Output(v) in files && files[Output(v)] != Blank :: MatchesKey(cfg, v, files[Output(v)])
  }

  /** The worker of job `j` is about to convert with copy `s`, and its source is there. */
  predicate AboutToConvert(g: Shared, j: string, s: Session) {
    j in g.tasks && g.tasks[j].place == Encoding(CvTool(s)) && OnDisk(g.files, s.sourcePath)
  }

  /** A conversion succeeds under a name that is not that of the job's own clip. */
  predicate Spoils(cfg: Config, g: Shared, step: Step) {
    step.Labour? && step.tool == Installs(true) && step.job in g.tasks
    && g.tasks[step.job].place.Encoding? && g.tasks[step.job].place.e.CvTool?
    && var t := g.tasks[step.job];
       var s := t.place.e.s;
       OnDisk(g.files, s.sourcePath) && VariantHash(cfg, s.assetHash, ClipOf(t.job)) != s.variantHash
  }

  // --------------------------------------------------------- one step at a time

  /** The files of `files'` are old ones, sources, or empty. */
  predicate OnlySourcesNew(files: map<Path, Content>, files': map<Path, Content>) {
    forall p | p in files' :: (p in files && files'[p] == files[p]) || p.Source? || files'[p] == Blank
  }

  lemma RequestWritesNoOutput(cfg: Config, g: Shared, r: Request, n: Names)
    ensures OnlySourcesNew(g.files, RequestStep(cfg, g, r, n).0.files)
  {
    match r
    case OnPrepare(p) => PrepareEffect(cfg, g, p, n);
    case OnConvert(c) =>
      if LooksForOutput(c) {
        OutputEffects(cfg, g, c);
      } else {
        SourceEffects(cfg, g, c, n);
      }
    case OnStatus(q) => StatusEffect(g, q);
    case OnDelete(d) => DeleteWritesNothing(g, d);
  }

  lemma DeleteWritesNothing(g: Shared, pc: DeletePc)
    ensures OnlySourcesNew(g.files, DeleteStep(g, pc).0.files)
  {
  }

  lemma DownloadWritesNoOutput(cfg: Config, g: Shared, t: Task, pc: FetchPc, tool: Tool)
    ensures OnlySourcesNew(g.files, DownloadStep(cfg, g, t, pc, tool).0.files)
  {
  }

  /** Only a successful conversion writes an output. */
  lemma EncodeWrites(cfg: Config, g: Shared, t: Task, pc: EncodePc, tool: Tool)
    ensures var files' := EncodeStep(cfg, g, t, pc, tool).0.files;
      if pc.CvTool? && tool == Installs(true) && OnDisk(g.files, pc.s.sourcePath)
      then files' == g.files[Output(pc.s.variantHash) := Mp3(g.files[pc.s.sourcePath], ClipOf(t.job))]
      else OnlySourcesNew(g.files, files')
  {
  }

  lemma MatchSurvives(cfg: Config, files: map<Path, Content>, files': map<Path, Content>)
    requires OutputsMatch(cfg, files) && OnlySourcesNew(files, files')
    ensures OutputsMatch(cfg, files')
  {
  }

  /** The file that a conversion leaves at the session's output path. */
  function Converted(g: Shared, t: Task, s: Session): Content
    requires OnDisk(g.files, s.sourcePath)
  {
    Mp3(g.files[s.sourcePath], ClipOf(t.job))
  }

  /** In every state of a run, the source at hand is the audio of the session's asset. */
  lemma ConversionMatchesIff(cfg: Config, plan: Plan, st: State, j: string, s: Session)
    requires Regular(cfg, st) && CacheInv(cfg, plan, st) && AboutToConvert(st.g, j, s)
    ensures MatchesKey(cfg, s.variantHash, Converted(st.g, st.g.tasks[j], s)) <==>
      VariantHash(cfg, s.assetHash, ClipOf(st.g.tasks[j].job)) == s.variantHash
  {
    assert PlaceOk(cfg, st.g.converted, st.g.tasks[j].place);
    assert FileOk(cfg, st.g.hashed, s.sourcePath, st.g.files[s.sourcePath]);
  }

  lemma LabourMatches(cfg: Config, plan: Plan, st: State, step: Step)
    requires Regular(cfg, st) && CacheInv(cfg, plan, st) && Enabled(st, step) && step.Labour? && OutputsMatch(cfg, st.g.files)
    ensures OutputsMatch(cfg, Next(cfg, st, step).g.files) <==> !Spoils(cfg, st.g, step)
  {
    var g, j := st.g, step.job;
    var t := g.tasks[j];
    var files' := Next(cfg, st, step).g.files;
    match t.place
    case Fetching(f) =>
      DownloadWritesNoOutput(cfg, g, t, f, step.tool);
      MatchSurvives(cfg, g.files, files');
    case Encoding(e) =>
      if SeeksSource(e) {
        SeekEffect(cfg, g, t, e, step.n);
      } else {
        EncodeWrites(cfg, g, t, e, step.tool);
      }
      if e.CvTool? && step.tool == Installs(true) && OnDisk(g.files, e.s.sourcePath) {
        ConversionMatchesIff(cfg, plan, st, j, e.s);
        assert files' == g.files[Output(e.s.variantHash) := Converted(g, t, e.s)];
      } else {
        MatchSurvives(cfg, g.files, files');
      }
  }

  lemma StepMatches(cfg: Config, plan: Plan, st: State, step: Step)
    requires Regular(cfg, st) && CacheInv(cfg, plan, st) && Enabled(st, step) && OutputsMatch(cfg, st.g.files)
    ensures OutputsMatch(cfg, Next(cfg, st, step).g.files) <==> !Spoils(cfg, st.g, step)
  {
    if step.Labour? {
      LabourMatches(cfg, plan, st, step);
    } else {
      if step.Proceed? {
        RequestWritesNoOutput(cfg, st.g, st.requests[step.r], step.n);
      }
      MatchSurvives(cfg, st.g.files, Next(cfg, st, step).g.files);
    }
  }

  // ----------------------------------------------------------------- whole runs

  /** In every state of the run all outputs match. */
  ghost predicate AlwaysMatch(cfg: Config, st: State, run: seq<Step>)
    requires IsRun(cfg, st, run)
    decreases |run|
  {
    OutputsMatch(cfg, st.g.files) && (run == [] || AlwaysMatch(cfg, Next(cfg, st, run[0]), run[1..]))
  }

  /** No step of the run spoils an output. */
  ghost predicate NeverSpoils(cfg: Config, st: State, run: seq<Step>)
    requires IsRun(cfg, st, run)
    decreases |run|
  {
    run == [] || (!Spoils(cfg, st.g, run[0]) && NeverSpoils(cfg, Next(cfg, st, run[0]), run[1..]))
  }

  lemma {:induction false} MatchAlongRun(cfg: Config, st: State, run: seq<Step>)
    requires Regular(cfg, st) && CacheInv(cfg, Anything(), st) && IsRun(cfg, st, run) && OutputsMatch(cfg, st.g.files)
    ensures AlwaysMatch(cfg, st, run) <==> NeverSpoils(cfg, st, run)
    decreases |run|
  {
    if run != [] {
      var st' := Next(cfg, st, run[0]);
      StepMatches(cfg, Anything(), st, run[0]);
      StepKeepsRegular(cfg, st, run[0]);
      StepKeepsPlan(cfg, Anything(), st, run[0]);
      if OutputsMatch(cfg, st'.g.files) {
        MatchAlongRun(cfg, st', run[1..]);
      } else {
        assert !AlwaysMatch(cfg, st', run[1..]);
      }
    }
  }

  /** In any run whatever, all outputs match at all times exactly when no conversion spoils one. */
  lemma MatchIffNeverSpoiled(cfg: Config, run: seq<Step>)
    requires HexHashes(cfg) && IsRun(cfg, State(START, map[]), run)
    ensures AlwaysMatch(cfg, State(START, map[]), run) <==> NeverSpoils(cfg, State(START, map[]), run)
  {
    MatchAlongRun(cfg, State(START, map[]), run);
  }

  /** Two accepted clips of one asset with one variant hash are the same clip. */
  lemma HashedClipsEqual(cfg: Config, hashed: set<string>, asset: string, v: string, c: Clip, c': Clip)
    requires CollisionFree(cfg, hashed) && HashedAs(cfg, hashed, asset, v, c) && HashedAs(cfg, hashed, asset, v, c')
    ensures c == c'
  {
    SplitKeys(asset, c, asset, c');
  }

  /** In every reached state, the session's variant and the job's own are both of clips hashed in this run. */
  lemma BothHashed(cfg: Config, run: seq<Step>, st: State, j: string, s: Session)
    requires HexHashes(cfg) && Reached(cfg, run, st) && AboutToConvert(st.g, j, s)
    ensures var asset, c := AssetHash(cfg, s.url), ClipOf(st.g.tasks[j].job);
      && s.assetHash == asset && HashedAs(cfg, st.g.hashed, asset, VariantHash(cfg, asset, c), c)
      && exists current :: HashedAs(cfg, st.g.hashed, asset, s.variantHash, current)
  {
    ReachedPlan(cfg, Anything(), run, st);
    var t := st.g.tasks[j];
    assert PlaceOk(cfg, st.g.converted, t.place) && TaskPlanned(cfg, Anything(), st.g.hashed, st.g.urls, t);
    assert TaskKnown(st.g.urls, t) && TaskOk(cfg, t);
  }

  /** And so the session's variant is that of exactly one clip. */
  lemma CurrentClip(cfg: Config, run: seq<Step>, st: State, j: string, s: Session) returns (current: Clip)
    requires HexHashes(cfg) && Reached(cfg, run, st) && CollisionFree(cfg, st.g.hashed) && AboutToConvert(st.g, j, s)
    ensures forall c :: HashedAs(cfg, st.g.hashed, AssetHash(cfg, s.url), s.variantHash, c) <==> c == current
    ensures VariantHash(cfg, s.assetHash, ClipOf(st.g.tasks[j].job)) == s.variantHash <==> ClipOf(st.g.tasks[j].job) == current
  {
    BothHashed(cfg, run, st, j, s);
    var asset, own := AssetHash(cfg, s.url), ClipOf(st.g.tasks[j].job);
    current :| HashedAs(cfg, st.g.hashed, asset, s.variantHash, current);
    forall c | HashedAs(cfg, st.g.hashed, asset, s.variantHash, c) ensures c == current {
      HashedClipsEqual(cfg, st.g.hashed, asset, s.variantHash, c, current);
    }
    assert VariantHash(cfg, asset, own) == s.variantHash ==> HashedAs(cfg, st.g.hashed, asset, s.variantHash, own);
  }

  /**
    For every reached state in which a conversion is about to run: the session's variant is that of
    exactly one clip hashed in this run, and the file written matches its name if and only if
    that clip is the job's own.
   */
  lemma ConversionMatchesIffVariantIsCurrent(cfg: Config, run: seq<Step>, st: State, j: string, s: Session)
      returns (current: Clip)
    requires HexHashes(cfg) && Reached(cfg, run, st) && CollisionFree(cfg, st.g.hashed) && AboutToConvert(st.g, j, s)
    ensures forall c :: HashedAs(cfg, st.g.hashed, AssetHash(cfg, s.url), s.variantHash, c) <==> c == current
    ensures forall n | Enabled(st, Labour(j, Installs(true), n)) ::
      var files' := Next(cfg, st, Labour(j, Installs(true), n)).g.files;
      && Output(s.variantHash) in files'
      && (MatchesKey(cfg, s.variantHash, files'[Output(s.variantHash)]) <==> ClipOf(st.g.tasks[j].job) == current)
  {
    current := CurrentClip(cfg, run, st, j, s);
    ReachedPlan(cfg, Anything(), run, st);
    ConversionMatchesIff(cfg, Anything(), st, j, s);
    forall n | Enabled(st, Labour(j, Installs(true), n))
      ensures Next(cfg, st, Labour(j, Installs(true), n)).g.files ==
        st.g.files[Output(s.variantHash) := Converted(st.g, st.g.tasks[j], s)]
    {
      EncodeWrites(cfg, st.g, st.g.tasks[j], CvTool(s), Installs(true));
    }
  }

  // ------------------------------------------------------- one clip per session

  ghost predicate OneClip(plan: Plan) {
    forall id, c, c' | plan(id, c) && plan(id, c') :: c == c'
  }

  lemma PlannedNeverSpoils(cfg: Config, plan: Plan, st: State, step: Step)
    requires Regular(cfg, st) && CacheInv(cfg, plan, st) && OneClip(plan)
    ensures !Spoils(cfg, st.g, step)
  {
    if step.Labour? && step.job in st.g.tasks && st.g.tasks[step.job].place.Encoding? && st.g.tasks[step.job].place.e.CvTool? {
      var t := st.g.tasks[step.job];
      var s := t.place.e.s;
      assert TaskPlanned(cfg, plan, st.g.hashed, st.g.urls, t) && TaskOk(cfg, t);
      assert PlaceOk(cfg, st.g.converted, t.place);
      var c :| plan(s.id, c) && HashedAs(cfg, st.g.hashed, AssetHash(cfg, s.url), s.variantHash, c);
      assert VariantHash(cfg, s.assetHash, ClipOf(t.job)) == s.variantHash;
    }
  }

  lemma {:induction false} PlannedRunMatches(cfg: Config, plan: Plan, st: State, run: seq<Step>)
    requires Regular(cfg, st) && CacheInv(cfg, plan, st) && OneClip(plan) && OutputsMatch(cfg, st.g.files)
    requires IsRun(cfg, st, run) && forall step | step in run :: FollowsPlan(plan, step)
    ensures OutputsMatch(cfg, AfterRun(cfg, st, run).g.files)
    decreases |run|
  {
    if run != [] {
      assert run[0] in run && forall step | step in run[1..] :: step in run;
      PlannedNeverSpoils(cfg, plan, st, run[0]);
      StepMatches(cfg, plan, st, run[0]);
      StepKeepsRegular(cfg, st, run[0]);
      StepKeepsPlan(cfg, plan, st, run[0]);
      PlannedRunMatches(cfg, plan, Next(cfg, st, run[0]), run[1..]);
    }
  }

  /** A run from the start in which every session sticks to one clip. */
  ghost predicate PlannedRun(cfg: Config, plan: Plan, run: seq<Step>, st: State) {
    Reached(cfg, run, st) && OneClip(plan) && forall step | step in run :: FollowsPlan(plan, step)
  }

  lemma FileIsDetermined(cfg: Config, hashed: set<string>, url: string, c: Clip, content: Content)
    requires HexHashes(cfg) && CollisionFree(cfg, hashed) && Unseparated(c)
    requires cfg.canon(url) in hashed && Key(AssetHash(cfg, url), c) in hashed
    requires var v := VariantHash(cfg, AssetHash(cfg, url), c);
      FileOk(cfg, hashed, Output(v), content) && content != Blank && MatchesKey(cfg, v, content)
    ensures content == Mp3(Audio(cfg.canon(url)), c)
  {
    var asset, asset' := AssetHash(cfg, url), cfg.hash(content.source.video);
    assert IsDigest(asset) && IsDigest(asset');
    assert Key(asset', content.clip) == Key(asset, c);
    SplitKeys(asset', content.clip, asset, c);
  }

  /**
    The variant cache agrees with recomputation: whatever non-empty file lies at the output path
    of a requested variant is the conversion of that video with exactly those parameters.
   */
  lemma CacheAgrees(cfg: Config, plan: Plan, run: seq<Step>, st: State, url: string, c: Clip)
    requires HexHashes(cfg) && PlannedRun(cfg, plan, run, st) && CollisionFree(cfg, st.g.hashed)
    requires cfg.canon(url) in st.g.hashed && Key(AssetHash(cfg, url), c) in st.g.hashed && Unseparated(c)
    requires OnDisk(st.g.files, Output(VariantHash(cfg, AssetHash(cfg, url), c)))
    ensures st.g.files[Output(VariantHash(cfg, AssetHash(cfg, url), c))] == Mp3(Audio(cfg.canon(url)), c)
  {
    ReachedPlan(cfg, plan, run, st);
    PlannedRunMatches(cfg, plan, State(START, map[]), run);
    var p := Output(VariantHash(cfg, AssetHash(cfg, url), c));
    assert FileOk(cfg, st.g.hashed, p, st.g.files[p]);
    FileIsDetermined(cfg, st.g.hashed, url, c, st.g.files[p]);
  }

  /** A request that is about to complete with an existing output completes with the right one. */
  lemma ReuseIsRight(cfg: Config, plan: Plan, run: seq<Step>, st: State, r: nat)
    requires HexHashes(cfg) && PlannedRun(cfg, plan, run, st) && CollisionFree(cfg, st.g.hashed)
    requires r in st.requests && st.requests[r].OnConvert? && st.requests[r].c.ConvVariantStat?
    requires OnDisk(st.g.files, st.requests[r].c.out)
    ensures var pc := st.requests[r].c;
      st.g.files[pc.out] == Mp3(Audio(cfg.canon(pc.s.url)), pc.ask.clip)
  {
    var pc := st.requests[r].c;
    ReachedPlan(cfg, plan, run, st);
    assert RequestOk(cfg, st.g.converted, st.requests[r]) && RequestPlanned(cfg, plan, st.g.hashed, st.requests[r]);
    assert IsDigest(AssetHash(cfg, pc.s.url));
    CacheAgrees(cfg, plan, run, st, pc.s.url, pc.ask.clip);
  }
}
