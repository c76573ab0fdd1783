/**
  Why the cache needs one clip per session: a second convert request replaces the session's
  variant while the job of the first is still waiting.
 */
module VariantClash {
  import opened Jobs
  import opened VariantKey
  import opened Model
  import opened ApiModel
  import opened ApiInvariant
  import opened HandlerRuns
  import opened VariantCache
  import opened VariantMatch

  /** The stored session `s` has its source at hand. */
  predicate AtHand(cfg: Config, g: Shared, s: Session) {
    && s.id in g.sessions && g.sessions[s.id] == s
    && s.sourcePath == Source(AssetHash(cfg, s.url))
    && s.sourcePath in g.files && g.files[s.sourcePath] == Audio(cfg.canon(s.url))
  }

  /** A session whose source is at hand, and a convert job of it. */
  predicate ReadySession(cfg: Config, g: Shared, s: Session, t: Task) {
    AtHand(cfg, g, s) && t.job.sessionId == s.id
  }

  /** The session after an accepted convert request. */
  function Requested(cfg: Config, s: Session, c: Clip): Session {
    Asked(cfg, s, c).(state := Converting)
  }

  /** A convert request on such a session, when no output of the clip is known. */
  lemma ReadyRequest(cfg: Config, g: Shared, s: Session, ask: Ask, n: Names)
    requires AtHand(cfg, g, s) && ConvertAllowed(cfg, s, ask.clip) && HasRoom(cfg, g, Convert)
    requires VariantOf(g.variants, VariantHash(cfg, AssetHash(cfg, s.url), ask.clip)) == NoPath
    ensures var (g', reply) := FinishConvert(cfg, g, ConvGet(s.id, ask), n);
      && reply == Accepted && g'.files == g.files && g'.variants == g.variants && g'.urls == g.urls && g'.assets == g.assets
      && g'.tasks == g.tasks[n.convert := Task(ConvertJob(n, s.id, ask), Waiting, 0)]
      && g'.sessions == g.sessions[s.id := Requested(cfg, s, ask.clip)]
  {
    var asset := AssetHash(cfg, s.url);
    var s1 := s.(assetHash := asset, variantHash := VariantHash(cfg, asset, ask.clip));
    var g1 := WithHashed(g, {cfg.canon(s.url), Key(asset, ask.clip)});
    var g2 := WithSession(g1, s1);
    var g3 := Offered(cfg, g2, ConvertJob(n, s.id, ask));
    var s2 := s1.(state := Converting);
    assert OutputSearch(cfg, g, ConvGet(s.id, ask)) == (g1, ConvHash(s1, ask));
    assert OutputSearch(cfg, g1, ConvHash(s1, ask)) == (g2, ConvVariant(s1, ask));
    assert OutputSearch(cfg, g2, ConvVariant(s1, ask)) == (g2, ConvSource(s1, ask));
    assert SourceSearch(cfg, g2, ConvSource(s1, ask), n) == (g2, ConvEnqueue(s1, ask, true));
    assert SourceSearch(cfg, g2, ConvEnqueue(s1, ask, true), n) == (g3, ConvFinish(s2));
    assert FinishSource(cfg, g3, ConvFinish(s2), n) == (WithSession(g3, s2), Accepted);
    assert FinishSource(cfg, g2, ConvEnqueue(s1, ask, true), n) == (WithSession(g3, s2), Accepted);
    assert FinishConvert(cfg, g2, ConvSource(s1, ask), n) == (WithSession(g3, s2), Accepted);
    assert FinishConvert(cfg, g1, ConvHash(s1, ask), n) == (WithSession(g3, s2), Accepted);
    assert WithSession(g3, s2).sessions == g.sessions[s.id := s2];
  }

  /** The pass of a job over a session whose source is at hand writes the session's variant with the job's clip. */
  lemma PassWrites(cfg: Config, g: Shared, s: Session, t: Task, n: Names)
    requires ReadySession(cfg, g, s, t) && s.assetHash != "" && s.variantHash != "" && s.state == Converting
    ensures var (g', t') := FinishPass(cfg, g, t.(place := Encoding(CvGet)), Installs(true), n);
      var v := s.variantHash;
      && g'.files == g.files[Output(v) := Mp3(Audio(cfg.canon(s.url)), ClipOf(t.job))]
      && g'.variants == g.variants[v := Output(v)] && g'.tasks == g.tasks && g'.urls == g.urls
      && g'.sessions == g.sessions[s.id := s.(outputPath := Output(v), state := Completed)]
      && t' == t.(place := Ended(Served), calls := t.calls + 1)
  {
    var t0, t1 := t.(place := Encoding(CvGet)), t.(place := Encoding(CvGuard(s)));
    var t2, t3 := t.(place := Encoding(CvStart(s))), t.(place := Encoding(CvTool(s)));
    assert WithSession(g, s) == g by {
      assert g.sessions[s.id := s] == g.sessions;
    }
    assert SeekStep(cfg, g, t0, CvGet, n) == (g, t1);
    assert EncodeStep(cfg, g, t1, CvGuard(s), Installs(true)) == (g, t2);
    assert EncodeStep(cfg, g, t2, CvStart(s), Installs(true)) == (g, t3);
    ToolWrites(cfg, g, s, t);
    assert FinishEncode(cfg, g, t2, Installs(true)) == FinishEncode(cfg, g, t3, Installs(true));
    assert FinishEncode(cfg, g, t1, Installs(true)) == FinishEncode(cfg, g, t2, Installs(true));
    assert FinishPass(cfg, g, t0, Installs(true), n) == FinishPass(cfg, g, t1, Installs(true), n);
  }

  lemma ToolWrites(cfg: Config, g: Shared, s: Session, t: Task)
    requires ReadySession(cfg, g, s, t)
    ensures var v, s' := s.variantHash, s.(outputPath := Output(s.variantHash), state := Completed);
      var (g', t') := FinishEncode(cfg, g, t.(place := Encoding(CvTool(s))), Installs(true));
      && g' == g.(files := g.files[Output(v) := Mp3(Audio(cfg.canon(s.url)), ClipOf(t.job))],
                  converted := g.converted + {v}, sessions := g.sessions[s.id := s'], variants := g.variants[v := Output(v)])
      && t' == t.(place := Ended(Served), calls := t.calls + 1)
  {
    var v, s' := s.variantHash, s.(outputPath := Output(s.variantHash), state := Completed);
    var t3, t4 := t.(place := Encoding(CvTool(s))), t.(place := Encoding(CvSave(s')), calls := t.calls + 1);
    var t5, t6 := t4.(place := Encoding(CvPublish(s'))), t4.(place := Ended(Served));
    var g4 := g.(files := g.files[Output(v) := Mp3(Audio(cfg.canon(s.url)), ClipOf(t.job))], converted := g.converted + {v});
    var g5 := WithSession(g4, s');
    var g6 := g5.(variants := g5.variants[v := Output(v)]);
    assert EncodeStep(cfg, g, t3, CvTool(s), Installs(true)) == (g4, t4);
    assert EncodeStep(cfg, g4, t4, CvSave(s'), Installs(true)) == (g5, t5);
    assert EncodeStep(cfg, g5, t5, CvPublish(s'), Installs(true)) == (g6, t6);
    assert FinishEncode(cfg, g5, t5, Installs(true)) == FinishEncode(cfg, g6, t6, Installs(true)) == (g6, t6);
    assert FinishEncode(cfg, g4, t4, Installs(true)) == FinishEncode(cfg, g5, t5, Installs(true));
    assert FinishEncode(cfg, g, t3, Installs(true)) == FinishEncode(cfg, g4, t4, Installs(true));
  }

  /**
    A waiting job for clip c1, then a convert request of the same session for another clip, then the
    job's pass: the file named after the second clip now holds the conversion of the first.
   */
  lemma SecondClipSpoilsTheCache(cfg: Config, g: Shared, s: Session, t: Task, ask: Ask, n: Names, m: Names)
    requires HexHashes(cfg) && ReadySession(cfg, g, s, t) && HasRoom(cfg, g, Convert)
    requires ConvertAllowed(cfg, s, ask.clip) && Unseparated(ask.clip) && Unseparated(ClipOf(t.job))
    requires VariantOf(g.variants, VariantHash(cfg, AssetHash(cfg, s.url), ask.clip)) == NoPath
    requires ClipOf(t.job) != ask.clip
    requires CollisionFree(cfg, {Key(AssetHash(cfg, s.url), ask.clip), Key(AssetHash(cfg, s.url), ClipOf(t.job))})
    ensures var g1 := FinishConvert(cfg, g, ConvGet(s.id, ask), n).0;
      var g2 := FinishPass(cfg, g1, t.(place := Encoding(CvGet)), Installs(true), m).0;
      var v := VariantHash(cfg, AssetHash(cfg, s.url), ask.clip);
      Output(v) in g2.files && !MatchesKey(cfg, v, g2.files[Output(v)])
  {
    var asset := AssetHash(cfg, s.url);
    assert IsDigest(asset) && IsDigest(VariantHash(cfg, asset, ask.clip));
    ReadyRequest(cfg, g, s, ask, n);
    var g1 := FinishConvert(cfg, g, ConvGet(s.id, ask), n).0;
    PassWrites(cfg, g1, Requested(cfg, s, ask.clip), t, m);
    if Key(asset, ask.clip) == Key(asset, ClipOf(t.job)) {
      SplitKeys(asset, ask.clip, asset, ClipOf(t.job));
    }
  }
}
