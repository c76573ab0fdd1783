/**
  The per-IP limiter of middleware.go: a map of lazily created buckets, and its
  equivalence with one independent bucket per address.
 */
module Limiters {
  import opened TokenBucket

  type Buckets = map<string, Bucket>

  /** The bucket that a request from `ip` finds or creates. */
  function BucketFor(l: Limits, buckets: Buckets, ip: string, created: real): Bucket {
    if ip in buckets then buckets[ip] else Full(l, created)
  }

  function Allowed(l: Limits, buckets: Buckets, ip: string, created: real, now: real): Buckets {
    buckets[ip := Taken(l, BucketFor(l, buckets, ip, created), now)]
  }

  class IpLimiter {
    const limits: Limits
    var buckets: map<string, TokenBucket>

    /** Every bucket has the limiter's limits, and no two addresses share one. */
    ghost predicate Valid()
      reads this
    {
      && (forall ip | ip in buckets :: buckets[ip].limits == limits)
      && (forall a, b | a in buckets && b in buckets && a != b :: buckets[a] != buckets[b])
    }

    ghost function State(): Buckets
      reads this, buckets.Values
    {
      map ip | ip in buckets :: buckets[ip].State()
    }

    constructor (limits: Limits)
      ensures Valid() && State() == map[] && this.limits == limits
    {
      this.limits := limits;
      buckets := map[];
    }

    /** `created` and `now` are the two clock readings of one call. */
    method Allow(ip: string, created: real, now: real) returns (allowed: bool)
      requires Valid()
      modifies this`buckets, buckets.Values
      ensures Valid() && fresh(buckets.Values - old(buckets.Values))
      ensures allowed == Admits(limits, BucketFor(limits, old(State()), ip, created), now)
      ensures State() == Allowed(limits, old(State()), ip, created, now)
    {
      if ip !in buckets {
        var b := new TokenBucket(limits, created);
        buckets := buckets[ip := b];
      }
      var b := buckets[ip];
      assert b.State() == BucketFor(limits, old(State()), ip, created);
      allowed := b.Take(now);
    }
  }

  // ------------------------------------------------- one request after another

  datatype Request = Request(ip: string, created: real, now: real)

  /** The map after a trace of requests, starting with no buckets. */
  function AfterTrace(l: Limits, trace: seq<Request>): Buckets {
    if trace == [] then map[] else
      var r := trace[|trace| - 1];
      Allowed(l, AfterTrace(l, trace[..|trace| - 1]), r.ip, r.created, r.now)
  }

  predicate AllowedAt(l: Limits, trace: seq<Request>, k: nat)
    requires k < |trace|
  {
    var r := trace[k];
    Admits(l, BucketFor(l, AfterTrace(l, trace[..k]), r.ip, r.created), r.now)
  }

  /** The times of the requests from `ip`. */
  function TimesOf(trace: seq<Request>, ip: string): seq<real> {
    if trace == [] then [] else
      var n := |trace| - 1;
      if trace[n].ip == ip then TimesOf(trace[..n], ip) + [trace[n].now] else TimesOf(trace[..n], ip)
  }

  /** The decisions that the requests from `ip` receive. */
  function DecisionsFor(l: Limits, trace: seq<Request>, ip: string): seq<bool> {
    if trace == [] then [] else
      var n := |trace| - 1;
      if trace[n].ip == ip then DecisionsFor(l, trace[..n], ip) + [AllowedAt(l, trace, n)]
      else DecisionsFor(l, trace[..n], ip)
  }

  ghost predicate ReadsClockInOrder(trace: seq<Request>) {
    forall k | 0 <= k < |trace| :: trace[k].created <= trace[k].now
  }

  /** Decisions already taken do not depend on later requests. */
  lemma {:induction false} AfterPrefix(l: Limits, start: real, times: seq<real>, t: real, j: nat)
    requires j <= |times|
    ensures After(l, start, times + [t], j) == After(l, start, times, j)
    decreases j
  {
    if j > 0 {
      AfterPrefix(l, start, times, t, j - 1);
    }
  }

  /** A bucket created full may be created at any moment before its first request. */
  lemma {:induction false} StartIrrelevant(l: Limits, s1: real, s2: real, times: seq<real>, j: nat)
    requires l.rate >= 0.0 && 0 < j <= |times| && s1 <= times[0] && s2 <= times[0]
    ensures After(l, s1, times, j) == After(l, s2, times, j)
    ensures Decision(l, s1, times, j - 1) == Decision(l, s2, times, j - 1)
    decreases j
  {
    if j == 1 {
      RefillNotNegative(l, s1, times[0]);
      RefillNotNegative(l, s2, times[0]);
    } else {
      StartIrrelevant(l, s1, s2, times, j - 1);
    }
  }

  /** The limiter keeps, for each address, the bucket of that address's own requests. */
  lemma {:induction false} BucketIsOwn(l: Limits, trace: seq<Request>, ip: string)
    requires l.rate >= 0.0 && ReadsClockInOrder(trace)
    ensures ip in AfterTrace(l, trace) <==> TimesOf(trace, ip) != []
    ensures var times := TimesOf(trace, ip);
      times != [] ==> AfterTrace(l, trace)[ip] == After(l, times[0], times, |times|)
    decreases |trace|
  {
    if trace != [] {
      var n := |trace| - 1;
      var r := trace[n];
      BucketIsOwn(l, trace[..n], ip);
      if r.ip == ip {
        OwnDecision(l, trace[..n], r);
      }
    }
  }

  /** The next request from an address sees what a bucket of its own would hold. */
  lemma OwnDecision(l: Limits, trace: seq<Request>, r: Request)
    requires l.rate >= 0.0 && r.created <= r.now
    requires r.ip in AfterTrace(l, trace) <==> TimesOf(trace, r.ip) != []
    requires var times := TimesOf(trace, r.ip);
      times != [] ==> AfterTrace(l, trace)[r.ip] == After(l, times[0], times, |times|)
    ensures var times := TimesOf(trace, r.ip) + [r.now];
      var b := BucketFor(l, AfterTrace(l, trace), r.ip, r.created);
      Taken(l, b, r.now) == After(l, times[0], times, |times|)
      && Admits(l, b, r.now) == Decision(l, times[0], times, |times| - 1)
  {
    var before := TimesOf(trace, r.ip);
    var times := before + [r.now];
    if before == [] {
      StartIrrelevant(l, r.created, r.now, times, 1);
      assert After(l, r.created, times, 0) == Full(l, r.created);
    } else {
      AfterPrefix(l, before[0], before, r.now, |before|);
    }
  }

  /**
    For any interleaving of addresses, the decisions for one address are those of a
    single bucket, full from any moment before its first request, run on that
    address's requests alone.
   */
  lemma {:induction false} PerIpIsIndependent(l: Limits, trace: seq<Request>, ip: string, start: real)
    requires l.rate >= 0.0 && ReadsClockInOrder(trace) && ClockStartsBefore(start, TimesOf(trace, ip))
    ensures |DecisionsFor(l, trace, ip)| == |TimesOf(trace, ip)|
    ensures forall j | 0 <= j < |TimesOf(trace, ip)| ::
      DecisionsFor(l, trace, ip)[j] == Decision(l, start, TimesOf(trace, ip), j)
    decreases |trace|
  {
    if trace != [] {
      var n := |trace| - 1;
      var r := trace[n];
      PerIpIsIndependent(l, trace[..n], ip, start);
      if r.ip == ip {
        var before := TimesOf(trace[..n], ip);
        var times := before + [r.now];
        BucketIsOwn(l, trace[..n], ip);
        OwnDecision(l, trace[..n], r);
        StartIrrelevant(l, times[0], start, times, |times|);
        forall j | 0 <= j < |before| ensures Decision(l, start, times, j) == Decision(l, start, before, j) {
          AfterPrefix(l, start, before, r.now, j);
        }
      }
    }
  }
}
