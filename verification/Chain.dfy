/**
  The order of the limiters in Router: global bucket, then per-IP bucket, then API
  key, then the handler. Requests overlap freely: between two stages of one request
  any number of stages of other requests may run, so the per-IP stage need not see
  requests in the order in which the global stage admitted them.
 */
module Chain {
  import opened TokenBucket
  import opened Limiters

  datatype Stage = AtIpLimiter | AtKeyCheck | Handled | RejectedGlobally | RejectedPerIp | RejectedByKey

  datatype Info = Info(ip: string, stage: Stage)

  /** A limiter decision: which request was decided, the clock reading used, and the answer. */
  datatype Entry = Entry(id: nat, time: real, admitted: bool)

  datatype Limiting = Limiting(global: Limits, perIp: Limits)

  datatype State = State(
    global: Bucket,
    buckets: Buckets,
    requests: map<nat, Info>,
    globalLog: seq<Entry>,
    ipLogs: map<string, seq<Entry>>)

  datatype Step =
    | Arrive(id: nat, ip: string, now: real)
    | CheckIp(id: nat, created: real, now: real)
    | CheckKey(id: nat, valid: bool)

  ghost predicate StageIs(requests: map<nat, Info>, id: nat, stage: Stage) {
    id in requests && requests[id].stage == stage
  }

  /** Each limiter reads a clock that never runs back under its own lock. */
  ghost predicate Enabled(c: Limiting, s: State, step: Step) {
    match step
    case Arrive(id, ip, now) => id !in s.requests && s.global.last <= now
    case CheckIp(id, created, now) =>
      StageIs(s.requests, id, AtIpLimiter) && BucketFor(c.perIp, s.buckets, s.requests[id].ip, created).last <= now
    case CheckKey(id, valid) => StageIs(s.requests, id, AtKeyCheck)
  }

  function LogOf(logs: map<string, seq<Entry>>, ip: string): seq<Entry> {
    if ip in logs then logs[ip] else []
  }

  ghost function Next(c: Limiting, s: State, step: Step): State
    requires Enabled(c, s, step)
  {
    match step
    case Arrive(id, ip, now) =>
      var ok := Admits(c.global, s.global, now);
      s.(global := Taken(c.global, s.global, now),
         requests := s.requests[id := Info(ip, if ok then AtIpLimiter else RejectedGlobally)],
         globalLog := s.globalLog + [Entry(id, now, ok)])
    case CheckIp(id, created, now) =>
      var ip := s.requests[id].ip;
      var ok := Admits(c.perIp, BucketFor(c.perIp, s.buckets, ip, created), now);
      s.(buckets := Allowed(c.perIp, s.buckets, ip, created, now),
         requests := s.requests[id := Info(ip, if ok then AtKeyCheck else RejectedPerIp)],
         ipLogs := s.ipLogs[ip := LogOf(s.ipLogs, ip) + [Entry(id, now, ok)]])
    case CheckKey(id, valid) =>
      s.(requests := s.requests[id := s.requests[id].(stage := if valid then Handled else RejectedByKey)])
  }

  ghost predicate IsRun(c: Limiting, s: State, run: seq<Step>)
    decreases |run|
  {
    run == [] || (Enabled(c, s, run[0]) && IsRun(c, Next(c, s, run[0]), run[1..]))
  }

  ghost function AfterRun(c: Limiting, s: State, run: seq<Step>): State
    requires IsRun(c, s, run)
    decreases |run|
  {
    if run == [] then s else AfterRun(c, Next(c, s, run[0]), run[1..])
  }

  ghost function Initial(c: Limiting, start: real): State {
    State(Full(c.global, start), map[], map[], [], map[])
  }

  // ------------------------------------------------------------- the invariant

  function Times(log: seq<Entry>): (r: seq<real>)
    ensures |r| == |log|
    ensures forall k | 0 <= k < |log| :: r[k] == log[k].time
  {
    seq(|log|, k requires 0 <= k < |log| => log[k].time)
  }

  /** The bucket and the recorded answers are those of the logged requests, run in order. */
  ghost predicate Tracks(l: Limits, start: real, log: seq<Entry>, b: Bucket) {
    && b == After(l, start, Times(log), |log|)
    && ClockStartsBefore(start, Times(log))
    && (forall k | 0 < k < |log| :: log[k - 1].time <= log[k].time)
    && (forall k | 0 <= k < |log| :: log[k].admitted == Decision(l, start, Times(log), k))
  }

  ghost function InStage(requests: map<nat, Info>, stage: Stage): set<nat> {
    set id | id in requests && requests[id].stage == stage
  }

  /** Requests that the global limiter let through, wherever they are now. */
  ghost function Passed(requests: map<nat, Info>): nat {
    |InStage(requests, AtIpLimiter)| + |InStage(requests, AtKeyCheck)| + |InStage(requests, RejectedPerIp)|
    + |InStage(requests, RejectedByKey)| + |InStage(requests, Handled)|
  }

  function AdmittedIn(log: seq<Entry>, i: nat, j: nat): nat
    requires i <= j <= |log|
  {
    if i == j then 0 else AdmittedIn(log, i, j - 1) + if log[j - 1].admitted then 1 else 0
  }

  ghost predicate Logged(log: seq<Entry>, id: nat) {
    exists k :: 0 <= k < |log| && log[k].id == id
  }

  /** A request is rejected globally exactly when the log says so. */
  ghost predicate GlobalStages(log: seq<Entry>, requests: map<nat, Info>) {
    && (forall k | 0 <= k < |log| ::
          log[k].id in requests && (log[k].admitted <==> !StageIs(requests, log[k].id, RejectedGlobally)))
    && (forall id | id in requests :: Logged(log, id))
  }

  ghost predicate PastIpLimiter(i: Info) {
    !i.stage.AtIpLimiter? && !i.stage.RejectedGlobally?
  }

  /** The log of one address holds requests of that address, rejected exactly when the log says so. */
  ghost predicate IpStages(ip: string, log: seq<Entry>, requests: map<nat, Info>) {
    forall k | 0 <= k < |log| ::
      && log[k].id in requests && requests[log[k].id].ip == ip && PastIpLimiter(requests[log[k].id])
      && (log[k].admitted <==> !StageIs(requests, log[k].id, RejectedPerIp))
  }

  ghost predicate AllIpStages(logs: map<string, seq<Entry>>, requests: map<nat, Info>) {
    && (forall ip | ip in logs :: IpStages(ip, logs[ip], requests))
    && (forall id | id in requests && PastIpLimiter(requests[id]) :: Logged(LogOf(logs, requests[id].ip), id))
  }

  ghost predicate IpTracks(l: Limits, logs: map<string, seq<Entry>>, buckets: Buckets) {
    && buckets.Keys == logs.Keys
    && (forall ip | ip in logs :: logs[ip] != [] && Tracks(l, logs[ip][0].time, logs[ip], buckets[ip]))
  }

  ghost predicate Inv(c: Limiting, start: real, s: State) {
    && Tracks(c.global, start, s.globalLog, s.global)
    && GlobalStages(s.globalLog, s.requests)
    && Passed(s.requests) == AdmittedIn(s.globalLog, 0, |s.globalLog|)
    && IpTracks(c.perIp, s.ipLogs, s.buckets)
    && AllIpStages(s.ipLogs, s.requests)
  }

  // ------------------------------------------------------- each step keeps it

  lemma {:induction false} LastIsLast(l: Limits, start: real, times: seq<real>)
    ensures After(l, start, times, |times|).last == if times == [] then start else times[|times| - 1]
  {
  }

  /** One more request changes no earlier decision. */
  lemma AppendRequest(l: Limits, start: real, times: seq<real>, t: real)
    ensures var times' := times + [t];
      && (forall k | 0 <= k < |times| :: Decision(l, start, times', k) == Decision(l, start, times, k))
      && After(l, start, times', |times'|) == Taken(l, After(l, start, times, |times|), t)
      && Decision(l, start, times', |times|) == Admits(l, After(l, start, times, |times|), t)
  {
    forall k | 0 <= k <= |times| ensures After(l, start, times + [t], k) == After(l, start, times, k) {
      AfterPrefix(l, start, times, t, k);
    }
  }

  lemma AppendTracks(l: Limits, start: real, log: seq<Entry>, b: Bucket, e: Entry)
    requires Tracks(l, start, log, b) && b.last <= e.time && e.admitted == Admits(l, b, e.time)
    ensures Tracks(l, start, log + [e], Taken(l, b, e.time))
  {
    var times, log' := Times(log), log + [e];
    assert Times(log') == times + [e.time];
    AppendRequest(l, start, times, e.time);
    LastIsLast(l, start, times);
    AppendDecisions(l, start, log, e);
  }

  lemma AppendDecision(l: Limits, start: real, log: seq<Entry>, e: Entry, k: nat)
    requires k <= |log|
    requires if k < |log| then log[k].admitted == Decision(l, start, Times(log), k)
             else e.admitted == Admits(l, After(l, start, Times(log), |log|), e.time)
    ensures (log + [e])[k].admitted == Decision(l, start, Times(log + [e]), k)
  {
    assert Times(log + [e]) == Times(log) + [e.time];
    AppendRequest(l, start, Times(log), e.time);
  }

  lemma AppendDecisions(l: Limits, start: real, log: seq<Entry>, e: Entry)
    requires forall k | 0 <= k < |log| :: log[k].admitted == Decision(l, start, Times(log), k)
    requires e.admitted == Admits(l, After(l, start, Times(log), |log|), e.time)
    ensures forall k | 0 <= k < |log| + 1 :: (log + [e])[k].admitted == Decision(l, start, Times(log + [e]), k)
  {
    forall k | 0 <= k < |log| + 1 ensures (log + [e])[k].admitted == Decision(l, start, Times(log + [e]), k) {
      AppendDecision(l, start, log, e, k);
    }
  }

  /** A bucket that an address needs for the first time. */
  lemma FirstTracks(l: Limits, created: real, e: Entry)
    requires l.rate >= 0.0 && created <= e.time && e.admitted == Admits(l, Full(l, created), e.time)
    ensures Tracks(l, e.time, [e], Taken(l, Full(l, created), e.time))
  {
    var times := Times([e]);
    StartIrrelevant(l, created, e.time, times, 1);
    assert After(l, created, times, 0) == Full(l, created);
  }

  lemma CheckIpTracks(l: Limits, logs: map<string, seq<Entry>>, buckets: Buckets, ip: string, created: real, e: Entry)
    requires l.rate >= 0.0 && IpTracks(l, logs, buckets) && BucketFor(l, buckets, ip, created).last <= e.time
    requires e.admitted == Admits(l, BucketFor(l, buckets, ip, created), e.time)
    ensures IpTracks(l, logs[ip := LogOf(logs, ip) + [e]], Allowed(l, buckets, ip, created, e.time))
  {
    var log := LogOf(logs, ip);
    if ip in logs {
      AppendTracks(l, log[0].time, log, buckets[ip], e);
      assert (log + [e])[0] == log[0];
    } else {
      FirstTracks(l, created, e);
      assert log + [e] == [e];
    }
  }

  lemma {:induction false} AdmittedPrefix(log: seq<Entry>, e: Entry, j: nat)
    requires j <= |log|
    ensures AdmittedIn(log + [e], 0, j) == AdmittedIn(log, 0, j)
    decreases j
  {
    if j > 0 {
      AdmittedPrefix(log, e, j - 1);
    }
  }

  /** A request that changes stage leaves one set and enters another. */
  lemma MoveCounts(requests: map<nat, Info>, id: nat, to: Info, stage: Stage)
    ensures |InStage(requests[id := to], stage)| ==
      |InStage(requests, stage)| + (if to.stage == stage then 1 else 0)
      - (if StageIs(requests, id, stage) then 1 else 0)
  {
    var before, after := InStage(requests, stage), InStage(requests[id := to], stage);
    if to.stage == stage {
      assert after == before + {id};
    } else {
      assert after == before - {id};
    }
  }

  lemma PassedAfterMove(requests: map<nat, Info>, id: nat, to: Info)
    ensures Passed(requests[id := to]) == Passed(requests) + (if to.stage.RejectedGlobally? then 0 else 1)
      - (if id !in requests || requests[id].stage.RejectedGlobally? then 0 else 1)
  {
    MoveCounts(requests, id, to, AtIpLimiter);
    MoveCounts(requests, id, to, AtKeyCheck);
    MoveCounts(requests, id, to, RejectedPerIp);
    MoveCounts(requests, id, to, RejectedByKey);
    MoveCounts(requests, id, to, Handled);
  }

  lemma StillLogged(log: seq<Entry>, e: Entry)
    ensures Logged(log + [e], e.id)
    ensures forall id | Logged(log, id) :: Logged(log + [e], id)
  {
    assert (log + [e])[|log|] == e;
    forall id | Logged(log, id) ensures Logged(log + [e], id) {
      var k :| 0 <= k < |log| && log[k].id == id;
      assert (log + [e])[k].id == id;
    }
  }

  lemma ArriveKeepsStages(log: seq<Entry>, logs: map<string, seq<Entry>>, requests: map<nat, Info>, e: Entry, ip: string)
    requires GlobalStages(log, requests) && AllIpStages(logs, requests) && e.id !in requests
    ensures var requests' := requests[e.id := Info(ip, if e.admitted then AtIpLimiter else RejectedGlobally)];
      GlobalStages(log + [e], requests') && AllIpStages(logs, requests')
  {
    StillLogged(log, e);
  }

  /** Moving a request that is past the global limiter, without giving it a global rejection. */
  lemma MoveKeepsGlobalStages(log: seq<Entry>, requests: map<nat, Info>, id: nat, to: Info)
    requires GlobalStages(log, requests) && id in requests
    requires !requests[id].stage.RejectedGlobally? && !to.stage.RejectedGlobally?
    ensures GlobalStages(log, requests[id := to])
  {
  }

  lemma CheckIpKeepsStages(logs: map<string, seq<Entry>>, requests: map<nat, Info>, e: Entry)
    requires AllIpStages(logs, requests) && StageIs(requests, e.id, AtIpLimiter)
    ensures var ip := requests[e.id].ip;
      AllIpStages(logs[ip := LogOf(logs, ip) + [e]],
                  requests[e.id := Info(ip, if e.admitted then AtKeyCheck else RejectedPerIp)])
  {
    var ip := requests[e.id].ip;
    var log := LogOf(logs, ip);
    var requests' := requests[e.id := Info(ip, if e.admitted then AtKeyCheck else RejectedPerIp)];
    var logs' := logs[ip := log + [e]];
    StillLogged(log, e);
    assert IpStages(ip, log, requests);
    forall other | other in logs' ensures IpStages(other, logs'[other], requests') {
      if other != ip {
        assert IpStages(other, logs[other], requests);
      }
    }
  }

  lemma CheckKeyKeepsStages(logs: map<string, seq<Entry>>, requests: map<nat, Info>, id: nat, valid: bool)
    requires AllIpStages(logs, requests) && StageIs(requests, id, AtKeyCheck)
    ensures AllIpStages(logs, requests[id := requests[id].(stage := if valid then Handled else RejectedByKey)])
  {
    var requests' := requests[id := requests[id].(stage := if valid then Handled else RejectedByKey)];
    forall ip | ip in logs ensures IpStages(ip, logs[ip], requests') {
      assert IpStages(ip, logs[ip], requests);
    }
  }

  lemma ArriveKeepsInv(c: Limiting, start: real, s: State, step: Step)
    requires Inv(c, start, s) && Enabled(c, s, step) && step.Arrive?
    ensures Inv(c, start, Next(c, s, step))
  {
    var s' := Next(c, s, step);
    var e := Entry(step.id, step.now, Admits(c.global, s.global, step.now));
    AppendTracks(c.global, start, s.globalLog, s.global, e);
    AdmittedPrefix(s.globalLog, e, |s.globalLog|);
    PassedAfterMove(s.requests, step.id, s'.requests[step.id]);
    ArriveKeepsStages(s.globalLog, s.ipLogs, s.requests, e, step.ip);
  }

  lemma CheckIpKeepsInv(c: Limiting, start: real, s: State, step: Step)
    requires c.perIp.rate >= 0.0 && Inv(c, start, s) && Enabled(c, s, step) && step.CheckIp?
    ensures Inv(c, start, Next(c, s, step))
  {
    var s' := Next(c, s, step);
    var ip := s.requests[step.id].ip;
    var e := Entry(step.id, step.now, Admits(c.perIp, BucketFor(c.perIp, s.buckets, ip, step.created), step.now));
    CheckIpTracks(c.perIp, s.ipLogs, s.buckets, ip, step.created, e);
    PassedAfterMove(s.requests, step.id, s'.requests[step.id]);
    MoveKeepsGlobalStages(s.globalLog, s.requests, step.id, s'.requests[step.id]);
    CheckIpKeepsStages(s.ipLogs, s.requests, e);
  }

  lemma CheckKeyKeepsInv(c: Limiting, start: real, s: State, step: Step)
    requires Inv(c, start, s) && Enabled(c, s, step) && step.CheckKey?
    ensures Inv(c, start, Next(c, s, step))
  {
    var s' := Next(c, s, step);
    PassedAfterMove(s.requests, step.id, s'.requests[step.id]);
    MoveKeepsGlobalStages(s.globalLog, s.requests, step.id, s'.requests[step.id]);
    CheckKeyKeepsStages(s.ipLogs, s.requests, step.id, step.valid);
  }

  lemma StepKeepsInv(c: Limiting, start: real, s: State, step: Step)
    requires c.perIp.rate >= 0.0 && Inv(c, start, s) && Enabled(c, s, step)
    ensures Inv(c, start, Next(c, s, step))
  {
    match step
    case Arrive(_, _, _) => ArriveKeepsInv(c, start, s, step);
    case CheckIp(_, _, _) => CheckIpKeepsInv(c, start, s, step);
    case CheckKey(_, _) => CheckKeyKeepsInv(c, start, s, step);
  }

  lemma {:induction false} RunKeepsInv(c: Limiting, start: real, s: State, run: seq<Step>)
    requires c.perIp.rate >= 0.0 && Inv(c, start, s) && IsRun(c, s, run)
    ensures Inv(c, start, AfterRun(c, s, run))
    decreases |run|
  {
    if run != [] {
      StepKeepsInv(c, start, s, run[0]);
      RunKeepsInv(c, start, Next(c, s, run[0]), run[1..]);
    }
  }

  // ---------------------------------------------------------------- the results

  ghost predicate Reached(c: Limiting, start: real, run: seq<Step>, s: State) {
    IsRun(c, Initial(c, start), run) && s == AfterRun(c, Initial(c, start), run)
  }

  lemma ReachedInv(c: Limiting, start: real, run: seq<Step>, s: State)
    requires c.perIp.rate >= 0.0 && Reached(c, start, run, s)
    ensures Inv(c, start, s)
  {
    forall stage ensures InStage(map[], stage) == {} {
    }
    RunKeepsInv(c, start, Initial(c, start), run);
  }

  /** Nothing is lost: globally admitted = rejected per IP + rejected by key + handled + still under way. */
  lemma AdmissionsAreConserved(c: Limiting, start: real, run: seq<Step>, s: State)
    requires c.perIp.rate >= 0.0 && Reached(c, start, run, s)
    ensures AdmittedIn(s.globalLog, 0, |s.globalLog|) ==
      |InStage(s.requests, RejectedPerIp)| + |InStage(s.requests, RejectedByKey)| + |InStage(s.requests, Handled)|
      + |InStage(s.requests, AtIpLimiter)| + |InStage(s.requests, AtKeyCheck)|
  {
    ReachedInv(c, start, run, s);
  }

  /** A key check settles its request for good, and nothing else takes a request past it. */
  lemma {:induction false} KeyDecides(c: Limiting, s: State, run: seq<Step>, id: nat)
    requires IsRun(c, s, run)
    ensures var s' := AfterRun(c, s, run);
      && (StageIs(s'.requests, id, Handled) <==> StageIs(s.requests, id, Handled) || CheckKey(id, true) in run)
      && (StageIs(s'.requests, id, RejectedByKey) <==> StageIs(s.requests, id, RejectedByKey) || CheckKey(id, false) in run)
    decreases |run|
  {
    if run != [] {
      assert run == [run[0]] + run[1..];
      KeyDecides(c, Next(c, s, run[0]), run[1..], id);
    }
  }

  /** The limiter has decided on the request with this answer. */
  ghost predicate Decided(log: seq<Entry>, id: nat, admitted: bool) {
    exists k :: 0 <= k < |log| && log[k].id == id && log[k].admitted == admitted
  }

  lemma LoggedIsDecided(log: seq<Entry>, id: nat)
    requires Logged(log, id)
    ensures Decided(log, id, true) || Decided(log, id, false)
  {
    var k :| 0 <= k < |log| && log[k].id == id;
    assert log[k].admitted == true || log[k].admitted == false;
  }

  lemma GlobalDecision(log: seq<Entry>, requests: map<nat, Info>, id: nat)
    requires GlobalStages(log, requests) && id in requests
    ensures Decided(log, id, false) <==> StageIs(requests, id, RejectedGlobally)
    ensures Decided(log, id, true) <==> !StageIs(requests, id, RejectedGlobally)
  {
    LoggedIsDecided(log, id);
  }

  lemma IpDecision(logs: map<string, seq<Entry>>, requests: map<nat, Info>, id: nat)
    requires AllIpStages(logs, requests) && id in requests
    ensures var log := LogOf(logs, requests[id].ip);
      && (Decided(log, id, false) <==> StageIs(requests, id, RejectedPerIp))
      && (Decided(log, id, true) <==> PastIpLimiter(requests[id]) && !StageIs(requests, id, RejectedPerIp))
  {
    var ip := requests[id].ip;
    var log := LogOf(logs, ip);
    assert ip in logs ==> IpStages(ip, log, requests);
    if PastIpLimiter(requests[id]) {
      LoggedIsDecided(log, id);
    }
  }

  /**
    Which requests reach the handler, and who turns the others away: the handler runs exactly for the
    requests that the global bucket admitted, then the bucket of their address, then the key check.
   */
  lemma OutcomesExplained(c: Limiting, start: real, run: seq<Step>, s: State, id: nat)
    requires c.perIp.rate >= 0.0 && Reached(c, start, run, s) && id in s.requests
    ensures var stage, log := s.requests[id].stage, LogOf(s.ipLogs, s.requests[id].ip);
      && (stage == Handled <==>
            Decided(s.globalLog, id, true) && Decided(log, id, true) && CheckKey(id, true) in run)
      && (stage == RejectedByKey <==>
            Decided(s.globalLog, id, true) && Decided(log, id, true) && CheckKey(id, false) in run)
      && (stage == RejectedPerIp <==> Decided(s.globalLog, id, true) && Decided(log, id, false))
      && (stage == RejectedGlobally <==> Decided(s.globalLog, id, false))
    ensures Decided(LogOf(s.ipLogs, s.requests[id].ip), id, true) || Decided(LogOf(s.ipLogs, s.requests[id].ip), id, false)
      ==> Decided(s.globalLog, id, true)
  {
    ReachedInv(c, start, run, s);
    KeyDecides(c, Initial(c, start), run, id);
    GlobalDecision(s.globalLog, s.requests, id);
    IpDecision(s.ipLogs, s.requests, id);
  }

  /** Number of requests logged at positions `i`, ..., `j - 1` that have reached the handler. */
  ghost function HandledAmong(requests: map<nat, Info>, log: seq<Entry>, i: nat, j: nat): nat
    requires i <= j <= |log|
  {
    if i == j then 0
    else HandledAmong(requests, log, i, j - 1) + if StageIs(requests, log[j - 1].id, Handled) then 1 else 0
  }

  lemma {:induction false} HandledWithin(l: Limits, start: real, requests: map<nat, Info>, log: seq<Entry>, b: Bucket, i: nat, j: nat)
    requires i <= j <= |log| && Tracks(l, start, log, b)
    requires forall k | 0 <= k < |log| :: StageIs(requests, log[k].id, Handled) ==> log[k].admitted
    ensures HandledAmong(requests, log, i, j) <= Admitted(l, start, Times(log), i, j)
    decreases j
  {
    if i < j {
      HandledWithin(l, start, requests, log, b, i, j - 1);
    }
  }

  ghost predicate WithinBound(l: Limits, count: nat, from: real, to: real) {
    count as real <= l.capacity as real + Refill(l, from, to)
  }

  lemma HandledBounded(l: Limits, start: real, requests: map<nat, Info>, log: seq<Entry>, b: Bucket, i: nat, j: nat)
    requires l.rate >= 0.0 && l.capacity >= 0 && Tracks(l, start, log, b) && i <= j < |log|
    requires forall k | 0 <= k < |log| :: StageIs(requests, log[k].id, Handled) ==> log[k].admitted
    ensures WithinBound(l, HandledAmong(requests, log, i, j + 1), log[i].time, log[j].time)
  {
    HandledWithin(l, start, requests, log, b, i, j + 1);
    WindowBound(l, start, Times(log), i, j);
  }

  lemma GlobalHandledAdmitted(log: seq<Entry>, requests: map<nat, Info>)
    requires GlobalStages(log, requests)
    ensures forall k | 0 <= k < |log| :: StageIs(requests, log[k].id, Handled) ==> log[k].admitted
    ensures forall id | StageIs(requests, id, Handled) :: Logged(log, id)
  {
  }

  lemma IpHandledAdmitted(ip: string, logs: map<string, seq<Entry>>, requests: map<nat, Info>)
    requires AllIpStages(logs, requests)
    ensures var log := LogOf(logs, ip);
      forall k | 0 <= k < |log| :: StageIs(requests, log[k].id, Handled) ==> log[k].admitted
    ensures forall id | StageIs(requests, id, Handled) && requests[id].ip == ip :: Logged(LogOf(logs, ip), id)
  {
    if ip in logs {
      assert IpStages(ip, logs[ip], requests);
    }
  }

  /** Requests that arrive within a window and are handled are bounded by the global burst and rate. */
  lemma HandledMeetGlobalBound(c: Limiting, start: real, run: seq<Step>, s: State, i: nat, j: nat)
    requires c.perIp.rate >= 0.0 && c.global.rate >= 0.0 && c.global.capacity >= 0
    requires Reached(c, start, run, s) && i <= j < |s.globalLog|
    ensures WithinBound(c.global, HandledAmong(s.requests, s.globalLog, i, j + 1),
                        s.globalLog[i].time, s.globalLog[j].time)
    ensures forall id | StageIs(s.requests, id, Handled) :: Logged(s.globalLog, id)
  {
    ReachedInv(c, start, run, s);
    GlobalHandledAdmitted(s.globalLog, s.requests);
    HandledBounded(c.global, start, s.requests, s.globalLog, s.global, i, j);
  }

  /** Requests of one address are bounded by the per-IP burst and rate as well. */
  lemma HandledMeetPerIpBound(c: Limiting, start: real, run: seq<Step>, s: State, ip: string, i: nat, j: nat)
    requires c.perIp.rate >= 0.0 && c.perIp.capacity >= 0
    requires Reached(c, start, run, s) && i <= j < |LogOf(s.ipLogs, ip)|
    ensures WithinBound(c.perIp, HandledAmong(s.requests, s.ipLogs[ip], i, j + 1),
                        s.ipLogs[ip][i].time, s.ipLogs[ip][j].time)
    ensures forall id | StageIs(s.requests, id, Handled) && s.requests[id].ip == ip :: Logged(s.ipLogs[ip], id)
  {
    ReachedInv(c, start, run, s);
    var log := s.ipLogs[ip];
    IpHandledAdmitted(ip, s.ipLogs, s.requests);
    HandledBounded(c.perIp, log[0].time, s.requests, log, s.buckets[ip], i, j);
  }
}
