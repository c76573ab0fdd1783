/**
  Given a trigger, as many downloads as the queue has room for: a second session of the video
  fills the convert queue, after which each refused request on the stale one queues a download.
 */
module SharingFails {
  import opened Jobs
  import opened VariantKey
  import opened Model
  import opened ApiModel
  import opened FreshIds
  import opened ApiInvariant
  import opened HandlerRuns
  import opened HandlerClaims
  import opened ConvertOutcome
  import opened Dedup
  import opened Sharing

  // ------------------------------------------------------------------ sequences

  function AfterCalls(cfg: Config, g: Shared, calls: seq<Call>): Shared
    decreases |calls|
  {
    if calls == [] then g else AfterCalls(cfg, AfterCall(cfg, g, calls[0]), calls[1..])
  }

  lemma {:induction false} Joined(cfg: Config, g: Shared, a: seq<Call>, b: seq<Call>, hash: string)
    requires IsSequence(cfg, g, a, hash) && IsSequence(cfg, AfterCalls(cfg, g, a), b, hash)
    ensures IsSequence(cfg, g, a + b, hash) && AfterCalls(cfg, g, a + b) == AfterCalls(cfg, AfterCalls(cfg, g, a), b)
    ensures TotalQueued(cfg, g, a + b) == TotalQueued(cfg, g, a) + TotalQueued(cfg, AfterCalls(cfg, g, a), b)
    decreases |a|
  {
    if a == [] {
      assert a + b == b;
    } else {
      assert (a + b)[0] == a[0] && (a + b)[1..] == a[1..] + b;
      Joined(cfg, AfterCall(cfg, g, a[0]), a[1..], b, hash);
    }
  }

  lemma OneCall(cfg: Config, g: Shared, c: Call, hash: string)
    requires FreshNames(g, c.n) && About(cfg, g, c, hash)
    ensures IsSequence(cfg, g, [c], hash) && AfterCalls(cfg, g, [c]) == AfterCall(cfg, g, c)
    ensures TotalQueued(cfg, g, [c]) == NewDownloads(AfterCall(cfg, g, c), c)
  {
    assert [c][1..] == [];
    assert TotalQueued(cfg, AfterCall(cfg, g, c), []) == 0;
    assert AfterCalls(cfg, AfterCall(cfg, g, c), []) == AfterCall(cfg, g, c);
  }

  // ----------------------------------------------------------- the two sessions

  /** A session of the video that is not stale, and whose requests reach the queues. */
  predicate Companion(cfg: Config, g: Shared, hash: string, b: string, ask: Ask) {
    && b in g.sessions && AssetHash(cfg, g.sessions[b].url) == hash && !Stale(g, g.sessions[b])
    && ConvertAllowed(cfg, g.sessions[b], ask.clip) && !Ready(g, VariantHash(cfg, hash, ask.clip))
  }

  ghost predicate Stage(cfg: Config, g: Shared, hash: string, a: string, b: string, ask: Ask) {
    && FiledById(g.sessions) && a != b && Triggers(cfg, g, hash, a, ask) && Companion(cfg, g, hash, b, ask)
  }

  /** The asset is marked as being prepared. */
  predicate Marked(g: Shared, hash: string) {
    AssetOf(g.assets, hash) == Asset(NoPath, AssetPreparing)
  }

  /** Any convert request leaves the stage set, unless it cures the stale session. */
  lemma RequestKeepsStage(cfg: Config, g: Shared, hash: string, a: string, b: string, ask: Ask, n: Names, id: string)
    requires Stage(cfg, g, hash, a, b, ask) && FreshNames(g, n)
    requires id == b || (id == a && !HasRoom(cfg, g, Convert))
    ensures Stage(cfg, AfterCall(cfg, g, ConvertCall(id, ask, n)), hash, a, b, ask)
  {
    var (end, reply) := FinishConvert(cfg, g, ConvGet(id, ask), n);
    SelfCalm(g);
    ConvertCalm(cfg, g, g, ConvGet(id, ask), n);
    ConvertElsewhere(cfg, g, ConvGet(id, ask), n, id);
    RequestKeepsOrigin(cfg, g, ConvGet(id, ask), n, id);
    RepliesExplained(cfg, g, ConvGet(id, ask), n, hash);
    assert Ready(end, VariantHash(cfg, hash, ask.clip)) <==> Ready(g, VariantHash(cfg, hash, ask.clip));
    assert CalmCopy(g, end.sessions[b]);
  }

  /** A request on the stale session always asks for a download. */
  lemma StaleReserves(cfg: Config, g: Shared, hash: string, a: string, b: string, ask: Ask, n: Names)
    requires Stage(cfg, g, hash, a, b, ask) && FreshNames(g, n)
    ensures About(cfg, g, ConvertCall(a, ask, n), hash) && Reserves(cfg, g, ConvertCall(a, ask, n))
  {
  }

  /** A request on its companion does so when the asset is missing. */
  lemma CompanionReserves(cfg: Config, g: Shared, hash: string, a: string, b: string, ask: Ask, n: Names)
    requires Stage(cfg, g, hash, a, b, ask) && FreshNames(g, n)
    ensures About(cfg, g, ConvertCall(b, ask, n), hash)
    ensures Reserves(cfg, g, ConvertCall(b, ask, n)) <==> g.sessions[b].sourcePath == NoPath && AssetMissing(g, hash)
  {
  }

  /** A full convert queue stays full. */
  lemma RefusalKeepsFull(cfg: Config, g: Shared, id: string, ask: Ask, n: Names)
    requires FreshNames(g, n) && FiledById(g.sessions) && !HasRoom(cfg, g, Convert)
    ensures !HasRoom(cfg, AfterCall(cfg, g, ConvertCall(id, ask, n)), Convert)
  {
    AcceptedTakesPlace(cfg, g, id, ask, n);
  }

  /** Requests on the companion, without any download, until the convert queue is full. */
  lemma {:induction false} FillConvertQueue(cfg: Config, g: Shared, hash: string, a: string, b: string, ask: Ask) returns (calls: seq<Call>)
    requires Stage(cfg, g, hash, a, b, ask) && Marked(g, hash)
    ensures IsSequence(cfg, g, calls, hash) && TotalQueued(cfg, g, calls) == 0
    ensures var end := AfterCalls(cfg, g, calls);
      && Stage(cfg, end, hash, a, b, ask) && !HasRoom(cfg, end, Convert)
      && InQueue(end.tasks, Download) == InQueue(g.tasks, Download)
    decreases cfg.capacity - |InQueue(g.tasks, Convert)|
  {
    calls := [];
    if HasRoom(cfg, g, Convert) {
      var n := NewNames(g);
      var c := ConvertCall(b, ask, n);
      var g' := AfterCall(cfg, g, c);
      CompanionReserves(cfg, g, hash, a, b, ask, n);
      CallDownloads(cfg, g, c, hash);
      RequestKeepsStage(cfg, g, hash, a, b, ask, n, b);
      RepliesExplained(cfg, g, ConvGet(b, ask), n, hash);
      AcceptedTakesPlace(cfg, g, b, ask, n);
      calls := FillConvertQueue(cfg, g', hash, a, b, ask);
      OneCall(cfg, g, c, hash);
      Joined(cfg, g, [c], calls, hash);
      calls := [c] + calls;
    }
  }

  /** With the convert queue full, every request on the stale session queues one more download. */
  lemma {:induction false} RepeatStale(cfg: Config, g: Shared, hash: string, a: string, b: string, ask: Ask, k: nat) returns (calls: seq<Call>)
    requires Stage(cfg, g, hash, a, b, ask) && !HasRoom(cfg, g, Convert)
    requires |InQueue(g.tasks, Download)| + k <= cfg.capacity
    ensures IsSequence(cfg, g, calls, hash) && TotalQueued(cfg, g, calls) == k
    decreases k
  {
    calls := [];
    if k > 0 {
      var n := NewNames(g);
      var c := ConvertCall(a, ask, n);
      var g' := AfterCall(cfg, g, c);
      StaleReserves(cfg, g, hash, a, b, ask, n);
      CallDownloads(cfg, g, c, hash);
      RequestKeepsStage(cfg, g, hash, a, b, ask, n, a);
      RefusalKeepsFull(cfg, g, a, ask, n);
      assert n.download !in InQueue(g.tasks, Download);
      calls := RepeatStale(cfg, g', hash, a, b, ask, k - 1);
      OneCall(cfg, g, c, hash);
      Joined(cfg, g, [c], calls, hash);
      calls := [c] + calls;
    }
  }

  // -------------------------------------------------------- setting the stage

  /** What a prepare request with a fresh id stores. */
  lemma {:induction false} PrepareStores(cfg: Config, g: Shared, pc: PreparePc, n: Names, id: string)
    requires !pc.PrepDone? && pc.s.id == id && pc.s.sourcePath == NoPath
    requires pc.PrepCreate? ==> id !in g.sessions
    requires !pc.PrepCreate? ==>
      && id in g.sessions && g.sessions[id].id == id && g.sessions[id].url == pc.s.url
      && g.sessions[id].sourcePath == NoPath && (!pc.PrepMark? ==> g.sessions[id].duration == pc.s.duration)
    ensures var end := FinishPrepare(cfg, g, pc, n).0;
      && id in end.sessions && end.sessions[id].id == id && end.sessions[id].url == pc.s.url
      && end.sessions[id].sourcePath == NoPath
      && end.sessions[id].duration == (if pc.PrepCreate? then pc.duration else pc.s.duration)
      && (forall x | x in g.sessions && x != id :: x in end.sessions && end.sessions[x] == g.sessions[x])
    decreases PrepareRank(pc)
  {
    var (g', pc') := PrepareStep(cfg, g, pc, n);
    if !pc'.PrepDone? {
      PrepareStores(cfg, g', pc', n, id);
    }
  }

  /** A fresh session of the same video and length sets the stage. */
  lemma PrepareCompanion(cfg: Config, g: Shared, hash: string, a: string, ask: Ask, b: string, n: Names)
    requires FiledById(g.sessions) && Triggers(cfg, g, hash, a, ask) && b !in g.sessions && FreshNames(g, n)
    ensures var c := PrepareCall(b, g.sessions[a].url, g.sessions[a].duration, n);
      var end := AfterCall(cfg, g, c);
      && Stage(cfg, end, hash, a, b, ask) && end.sessions[b].sourcePath == NoPath
      && About(cfg, g, c, hash) && (Reserves(cfg, g, c) <==> PrepareNeeds(g, hash))
  {
    var url, duration := g.sessions[a].url, g.sessions[a].duration;
    var pc := StartPrepare(cfg, b, url, duration);
    var end := FinishPrepare(cfg, g, pc, n).0;
    PrepareStores(cfg, g, pc, n, b);
    SelfCalm(g);
    PrepareCalm(cfg, g, g, pc, n);
    assert Ready(end, VariantHash(cfg, hash, ask.clip)) <==> Ready(g, VariantHash(cfg, hash, ask.clip));
  }

  /** Two requests set the stage and leave the asset marked, at the cost of one download if it was missing. */
  lemma SetStage(cfg: Config, g: Shared, hash: string, a: string, ask: Ask) returns (calls: seq<Call>, b: string)
    requires MapsOk(cfg, g) && Triggers(cfg, g, hash, a, ask) && HasRoom(cfg, g, Download)
    ensures IsSequence(cfg, g, calls, hash) && TotalQueued(cfg, g, calls) <= 1
    ensures var end := AfterCalls(cfg, g, calls);
      && Stage(cfg, end, hash, a, b, ask) && Marked(end, hash)
      && |InQueue(end.tasks, Download)| == |InQueue(g.tasks, Download)| + TotalQueued(cfg, g, calls)
  {
    b := NewName(g.sessions.Keys);
    var n := NewNames(g);
    var c := PrepareCall(b, g.sessions[a].url, g.sessions[a].duration, n);
    var g1 := AfterCall(cfg, g, c);
    PrepareCompanion(cfg, g, hash, a, ask, b, n);
    CallDownloads(cfg, g, c, hash);
    assert n.download !in InQueue(g.tasks, Download);
    SelfCalm(g);
    CallCalm(cfg, g, g, c);
    StaleAsset(cfg, g, hash, a, ask);
    OneCall(cfg, g, c, hash);
    calls := [c];
    if !Marked(g1, hash) {
      var m := NewNames(g1);
      var d := ConvertCall(b, ask, m);
      CompanionReserves(cfg, g1, hash, a, b, ask, m);
      CallDownloads(cfg, g1, d, hash);
      assert m.download !in InQueue(g1.tasks, Download);
      RequestKeepsStage(cfg, g1, hash, a, b, ask, m, b);
      OneCall(cfg, g1, d, hash);
      Joined(cfg, g, [c], [d], hash);
      calls := [c] + [d];
    }
  }

  /** When a session points at a missing file, its asset is missing or promised. */
  lemma StaleAsset(cfg: Config, g: Shared, hash: string, a: string, ask: Ask)
    requires MapsOk(cfg, g) && Triggers(cfg, g, hash, a, ask)
    ensures AssetMissing(g, hash) || Marked(g, hash)
    ensures AssetMissing(g, hash) && !PrepareNeeds(g, hash) ==> AssetOf(g.assets, hash).state == AssetExpired
  {
    assert Storable(cfg, g.converted, g.sessions[a]);
    assert hash in g.assets ==> AssetOk(hash, g.assets[hash]);
  }

  /** With a trigger and room for `k` downloads, some requests for the video queue `k` of them. */
  lemma TriggerDownloads(cfg: Config, g: Shared, hash: string, a: string, ask: Ask, k: nat) returns (calls: seq<Call>)
    requires MapsOk(cfg, g) && Triggers(cfg, g, hash, a, ask) && k >= 1 && |InQueue(g.tasks, Download)| + k <= cfg.capacity
    ensures IsSequence(cfg, g, calls, hash) && TotalQueued(cfg, g, calls) == k
  {
    var first, b := SetStage(cfg, g, hash, a, ask);
    var g1 := AfterCalls(cfg, g, first);
    var fill := FillConvertQueue(cfg, g1, hash, a, b, ask);
    var g2 := AfterCalls(cfg, g1, fill);
    var rest := RepeatStale(cfg, g2, hash, a, b, ask, k - TotalQueued(cfg, g, first));
    Joined(cfg, g1, fill, rest, hash);
    Joined(cfg, g, first, fill + rest, hash);
    calls := first + (fill + rest);
  }

  /**
    Single download per video, exactly: requests alone can queue `k` downloads of it, for any `k`
    above 1, if and only if the queue has room for them, some session of the video points at a
    missing file, and some request for that session is neither rejected nor answered from the cache.
   */
  lemma SharingFailsIff(cfg: Config, g: Shared, hash: string, k: nat)
    requires MapsOk(cfg, g) && k >= 2
    ensures (exists calls :: IsSequence(cfg, g, calls, hash) && TotalQueued(cfg, g, calls) >= k) <==>
      |InQueue(g.tasks, Download)| + k <= cfg.capacity && Triggered(cfg, g, hash)
  {
    SelfCalm(g);
    forall calls | IsSequence(cfg, g, calls, hash) && TotalQueued(cfg, g, calls) >= k
      ensures |InQueue(g.tasks, Download)| + k <= cfg.capacity && Triggered(cfg, g, hash)
    {
      QueueBounds(cfg, g, calls, hash);
      if !Triggered(cfg, g, hash) {
        UntriggeredSequence(cfg, g, g, calls, hash);
      }
    }
    if |InQueue(g.tasks, Download)| + k <= cfg.capacity && Triggered(cfg, g, hash) {
      var a, ask :| Triggers(cfg, g, hash, a, ask);
      var calls := TriggerDownloads(cfg, g, hash, a, ask, k);
    }
  }
}
