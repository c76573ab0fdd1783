/**
  The rank query PositionForSession, and what it says about the order in which
  the queue will be drained.
 */
module QueueRank {
  import opened Jobs
  import opened Options

  predicate Matches(j: Job, t: JobType, sessionId: string) {
    j.kind == t && j.sessionId == sessionId
  }

  /** Number of entries that satisfy `p`. */
  function Count(s: seq<Job>, p: Job -> bool): nat {
    if s == [] then 0 else Count(s[..|s| - 1], p) + if p(s[|s| - 1]) then 1 else 0
  }

  function OfKind(t: JobType): Job -> bool {
    (x: Job) => x.kind == t
  }

  function AheadOf(t: JobType, j: Job): Job -> bool {
    (x: Job) => x.kind == t && Precedes(x, j)
  }

  function TiedWith(t: JobType, j: Job): Job -> bool {
    (x: Job) => x.kind == t && Tied(x, j)
  }

  /** The first scan: keeps the first match, and replaces it by any earlier one. */
  function EarliestMatch(s: seq<Job>, t: JobType, sessionId: string): (r: Option<Job>)
    ensures r.None? <==> forall x | x in s :: !Matches(x, t, sessionId)
    ensures r.Some? ==> r.value in s && Matches(r.value, t, sessionId)
    ensures r.Some? ==> forall x | x in s && Matches(x, t, sessionId) :: r.value.enqueuedAt <= x.enqueuedAt
  {
    if s == [] then None else
      var n := |s| - 1;
      var f := EarliestMatch(s[..n], t, sessionId);
      assert s == s[..n] + [s[n]];
      if Matches(s[n], t, sessionId) && (f.None? || s[n].enqueuedAt < f.value.enqueuedAt) then Some(s[n]) else f
  }

  /** The answer of PositionForSession on a queue with this content. */
  function Position(s: seq<Job>, t: JobType, sessionId: string): nat {
    match EarliestMatch(s, t, sessionId)
    case None => 0
    case Some(f) => 1 + Count(s, AheadOf(t, f))
  }

  lemma EarliestNext(s: seq<Job>, i: nat, t: JobType, sessionId: string)
    requires i < |s|
    ensures var f := EarliestMatch(s[..i], t, sessionId);
      EarliestMatch(s[..i + 1], t, sessionId) ==
        if Matches(s[i], t, sessionId) && (f.None? || s[i].enqueuedAt < f.value.enqueuedAt) then Some(s[i]) else f
  {
    assert s[..i + 1][..i] == s[..i];
  }

  // ---------------------------------------------------------------- counting

  lemma CountNext(s: seq<Job>, i: nat, p: Job -> bool)
    requires i < |s|
    ensures Count(s[..i + 1], p) == Count(s[..i], p) + if p(s[i]) then 1 else 0
  {
    assert s[..i + 1][..i] == s[..i];
  }

  lemma {:induction false} CountConcat(a: seq<Job>, b: seq<Job>, p: Job -> bool)
    ensures Count(a + b, p) == Count(a, p) + Count(b, p)
    decreases |b|
  {
    if b == [] {
      assert a + b == a;
    } else {
      var n := |b| - 1;
      assert (a + b)[..|a| + n] == a + b[..n];
      CountConcat(a, b[..n], p);
    }
  }

  lemma {:induction false} CountAt(s: seq<Job>, i: nat, p: Job -> bool)
    requires i < |s|
    ensures Count(s, p) == Count(s[..i], p) + (if p(s[i]) then 1 else 0) + Count(s[i + 1..], p)
  {
    assert s == (s[..i] + [s[i]]) + s[i + 1..];
    CountConcat(s[..i] + [s[i]], s[i + 1..], p);
    CountConcat(s[..i], [s[i]], p);
  }

  lemma RemoveAt(s: seq<Job>, i: nat)
    requires i < |s|
    ensures multiset(s[..i] + s[i + 1..]) == multiset(s) - multiset{s[i]}
  {
    assert s == s[..i] + ([s[i]] + s[i + 1..]);
  }

  lemma CountWithout(s: seq<Job>, i: nat, p: Job -> bool)
    requires i < |s|
    ensures Count(s, p) == Count(s[..i] + s[i + 1..], p) + if p(s[i]) then 1 else 0
  {
    CountAt(s, i, p);
    CountConcat(s[..i], s[i + 1..], p);
  }

  lemma IndexOf(s: seq<Job>, x: Job) returns (i: nat)
    requires x in multiset(s)
    ensures i < |s| && s[i] == x
  {
    i :| 0 <= i < |s| && s[i] == x;
  }

  /** Counting does not depend on the order of the entries, hence not on the shape of the heap. */
  lemma {:induction false} CountPermutes(a: seq<Job>, b: seq<Job>, p: Job -> bool)
    requires multiset(a) == multiset(b)
    ensures Count(a, p) == Count(b, p)
    decreases |a|
  {
    if a == [] {
      assert |multiset(b)| == 0;
    } else {
      var n := |a| - 1;
      var i := IndexOf(b, a[n]);
      var b' := b[..i] + b[i + 1..];
      RemoveAt(a, n);
      RemoveAt(b, i);
      assert a[..n] + a[n + 1..] == a[..n];
      CountPermutes(a[..n], b', p);
      CountWithout(b, i, p);
    }
  }

  lemma {:induction false} CountMonotone(s: seq<Job>, p: Job -> bool, q: Job -> bool)
    requires forall x | x in s :: p(x) ==> q(x)
    ensures Count(s, p) <= Count(s, q)
    decreases |s|
  {
    if s != [] {
      CountMonotone(s[..|s| - 1], p, q);
    }
  }

  lemma {:induction false} CountSplits(s: seq<Job>, t: JobType, j: Job)
    requires forall x | x in s :: !Precedes(j, x)
    ensures Count(s, OfKind(t)) == Count(s, AheadOf(t, j)) + Count(s, TiedWith(t, j))
    decreases |s|
  {
    if s != [] {
      assert s[|s| - 1] in s;
      CountSplits(s[..|s| - 1], t, j);
    }
  }

  lemma {:induction false} CountNone(s: seq<Job>, p: Job -> bool)
    requires forall x | x in s :: !p(x)
    ensures Count(s, p) == 0
    decreases |s|
  {
    if s != [] {
      assert s[|s| - 1] in s;
      CountNone(s[..|s| - 1], p);
    }
  }

  lemma {:induction false} CountOne(s: seq<Job>, x: Job, p: Job -> bool)
    requires x in s && p(x)
    ensures Count(s, p) >= 1
  {
    var i :| 0 <= i < |s| && s[i] == x;
    CountAt(s, i, p);
  }

  function Where(s: seq<Job>, p: Job -> bool): set<int> {
    set i | 0 <= i < |s| && p(s[i])
  }

  lemma {:induction false} CountIsSize(s: seq<Job>, p: Job -> bool)
    ensures Count(s, p) == |Where(s, p)|
    decreases |s|
  {
    if s != [] {
      var n := |s| - 1;
      CountIsSize(s[..n], p);
      assert Where(s, p) == Where(s[..n], p) + if p(s[n]) then {n} else {};
    }
  }

  /**
    The rank query in numbers: 0 without a match, and otherwise one more than the entries of the type with
    a higher priority, or the same priority and an earlier timestamp, than an earliest match.
   */
  lemma PositionInNumbers(s: seq<Job>, t: JobType, sessionId: string)
    ensures Position(s, t, sessionId) == 0 <==> forall x | x in s :: !(x.kind == t && x.sessionId == sessionId)
    ensures Position(s, t, sessionId) > 0 ==> exists f: Job ::
      && f in s && f.kind == t && f.sessionId == sessionId
      && (forall x | x in s && x.kind == t && x.sessionId == sessionId :: f.enqueuedAt <= x.enqueuedAt)
      && Position(s, t, sessionId) ==
           1 + |set i | 0 <= i < |s| && s[i].kind == t
                  && (s[i].priority > f.priority || (s[i].priority == f.priority && s[i].enqueuedAt < f.enqueuedAt))|
  {
    match EarliestMatch(s, t, sessionId)
    case None =>
      forall x | x in s ensures !(x.kind == t && x.sessionId == sessionId) {
        assert !Matches(x, t, sessionId);
      }
    case Some(f) =>
      assert Matches(f, t, sessionId);
      forall x | x in s && x.kind == t && x.sessionId == sessionId ensures f.enqueuedAt <= x.enqueuedAt {
        assert Matches(x, t, sessionId);
      }
      CountIsSize(s, AheadOf(t, f));
      assert Where(s, AheadOf(t, f)) ==
        set i | 0 <= i < |s| && s[i].kind == t
          && (s[i].priority > f.priority || (s[i].priority == f.priority && s[i].enqueuedAt < f.enqueuedAt));
  }

  // ---------------------------------------------------------------- draining

  /** `out` is what repeated Dequeue calls can return until the queue is empty. */
  ghost predicate DrainedBy(queue: multiset<Job>, out: seq<Job>)
    decreases |out|
  {
    if out == [] then queue == multiset{}
    else IsFirst(queue, out[0]) && DrainedBy(queue - multiset{out[0]}, out[1..])
  }

  ghost predicate InOrder(out: seq<Job>) {
    forall i, k :: 0 <= i < k < |out| ==> !Precedes(out[k], out[i])
  }

  lemma HeadAndTail(out: seq<Job>)
    requires out != []
    ensures multiset(out) == multiset{out[0]} + multiset(out[1..])
  {
    assert out == [out[0]] + out[1..];
  }

  lemma {:induction false} DrainIsOrdering(queue: multiset<Job>, out: seq<Job>)
    requires DrainedBy(queue, out)
    ensures multiset(out) == queue && InOrder(out)
    decreases |out|
  {
    if out != [] {
      var rest := out[1..];
      HeadAndTail(out);
      DrainIsOrdering(queue - multiset{out[0]}, rest);
      forall i, k | 0 <= i < k < |out| ensures !Precedes(out[k], out[i]) {
        assert out[k] in multiset(out);
        assert i > 0 ==> !Precedes(rest[k - 1], rest[i - 1]);
      }
    }
  }

  lemma {:induction false} OrderingIsDrain(queue: multiset<Job>, out: seq<Job>)
    requires multiset(out) == queue && InOrder(out)
    ensures DrainedBy(queue, out)
    decreases |out|
  {
    if out != [] {
      var rest := out[1..];
      HeadAndTail(out);
      OrderingIsDrain(multiset(rest), rest);
      assert queue - multiset{out[0]} == multiset(rest);
      forall k | k in queue ensures !Precedes(k, out[0]) {
        var i :| 0 <= i < |out| && out[i] == k;
      }
    }
  }

  /** The drains of a queue are exactly its orderings in which no job comes after one it precedes. */
  lemma DrainsAreOrderings(queue: multiset<Job>, out: seq<Job>)
    ensures DrainedBy(queue, out) <==> multiset(out) == queue && InOrder(out)
  {
    if DrainedBy(queue, out) {
      DrainIsOrdering(queue, out);
    }
    if multiset(out) == queue && InOrder(out) {
      OrderingIsDrain(queue, out);
    }
  }

  /** What comes before `out[i]` in a drain: everything ahead of it, and ties only. */
  lemma RankInDrain(s: seq<Job>, out: seq<Job>, i: nat, t: JobType)
    requires DrainedBy(multiset(s), out) && i < |out|
    ensures Count(out[..i], OfKind(t)) == Count(s, AheadOf(t, out[i])) + Count(out[..i], TiedWith(t, out[i]))
  {
    DrainsAreOrderings(multiset(s), out);
    var j := out[i];
    CountPermutes(s, out, AheadOf(t, j));
    CountAt(out, i, AheadOf(t, j));
    forall x | x in out[i + 1..] ensures !AheadOf(t, j)(x) {
      var k :| 0 <= k < |out| - i - 1 && out[i + 1..][k] == x;
      assert out[i + 1 + k] == x;
    }
    CountNone(out[i + 1..], AheadOf(t, j));
    CountSplits(out[..i], t, j);
  }

  /**
    In every drain, the job found by the query is served as at least the
    `Position`-th of its type, and is delayed beyond that only by other jobs
    of the type that carry the same priority and timestamp.
   */
  lemma PositionBoundsRank(s: seq<Job>, t: JobType, sessionId: string, out: seq<Job>, i: nat)
    requires DrainedBy(multiset(s), out) && i < |out|
    requires EarliestMatch(s, t, sessionId) == Some(out[i])
    ensures Position(s, t, sessionId) <= Count(out[..i + 1], OfKind(t))
    ensures Count(out[..i + 1], OfKind(t)) <= Position(s, t, sessionId) + Count(s, TiedWith(t, out[i])) - 1
  {
    RankInDrain(s, out, i, t);
    assert out[..i + 1] == out[..i] + [out[i]];
    CountConcat(out[..i], [out[i]], OfKind(t));
    DrainsAreOrderings(multiset(s), out);
    CountPermutes(s, out, TiedWith(t, out[i]));
    CountAt(out, i, TiedWith(t, out[i]));
    assert TiedWith(t, out[i])(out[i]);
  }

  // ------------------------------------------------- some drain always exists

  function Insert(j: Job, s: seq<Job>): seq<Job> {
    if s == [] || !Precedes(s[0], j) then [j] + s else [s[0]] + Insert(j, s[1..])
  }

  lemma {:induction false} InsertKeepsJobs(j: Job, s: seq<Job>)
    ensures multiset(Insert(j, s)) == multiset(s) + multiset{j}
    decreases |s|
  {
    if s != [] && Precedes(s[0], j) {
      HeadAndTail(s);
      InsertKeepsJobs(j, s[1..]);
    }
  }

  lemma {:induction false} InsertInOrder(j: Job, s: seq<Job>)
    requires InOrder(s)
    ensures InOrder(Insert(j, s))
    decreases |s|
  {
    if s != [] && Precedes(s[0], j) {
      var r := Insert(j, s[1..]);
      InsertInOrder(j, s[1..]);
      InsertKeepsJobs(j, s[1..]);
      forall k | 0 <= k < |r| ensures !Precedes(r[k], s[0]) {
        assert r[k] in multiset(r);
        assert r[k] in multiset(s[1..]) + multiset{j};
      }
      FirstInOrder(s[0], r);
    }
  }

  lemma FirstInOrder(j: Job, s: seq<Job>)
    requires InOrder(s) && forall k | 0 <= k < |s| :: !Precedes(s[k], j)
    ensures InOrder([j] + s)
  {
  }

  function Ordering(s: seq<Job>): seq<Job> {
    if s == [] then [] else Insert(s[0], Ordering(s[1..]))
  }

  lemma {:induction false} OrderingInOrder(s: seq<Job>)
    ensures multiset(Ordering(s)) == multiset(s) && InOrder(Ordering(s))
    decreases |s|
  {
    if s != [] {
      OrderingInOrder(s[1..]);
      InsertKeepsJobs(s[0], Ordering(s[1..]));
      InsertInOrder(s[0], Ordering(s[1..]));
      HeadAndTail(s);
    }
  }

  /** Two tied jobs may be exchanged in a drain. */
  lemma ExchangeTied(queue: multiset<Job>, out: seq<Job>, i: nat, k: nat)
    requires DrainedBy(queue, out) && i < k < |out| && Tied(out[i], out[k])
    ensures DrainedBy(queue, out[i := out[k]][k := out[i]])
  {
    var out' := out[i := out[k]][k := out[i]];
    DrainsAreOrderings(queue, out);
    forall a, b | 0 <= a < b < |out'| ensures !Precedes(out'[b], out'[a]) {
      // Everything between two tied entries of an ordering is tied with both.
      assert !Precedes(out[b], out[a]);
      assert i < a ==> !Precedes(out[a], out[i]);
      assert i < b ==> !Precedes(out[b], out[i]);
      assert a < k ==> !Precedes(out[k], out[a]);
      assert b < k ==> !Precedes(out[k], out[b]);
    }
    DrainsAreOrderings(queue, out');
  }

  ghost predicate IsRankInEveryDrain(s: seq<Job>, t: JobType, sessionId: string)
    requires EarliestMatch(s, t, sessionId).Some?
  {
    forall out, i :: DrainedBy(multiset(s), out) && 0 <= i < |out|
                     && out[i] == EarliestMatch(s, t, sessionId).value
      ==> Count(out[..i + 1], OfKind(t)) == Position(s, t, sessionId)
  }

  /**
    The reported position is the rank in every possible drain exactly when no
    other queued job of the type has the found job's priority and timestamp;
    distinct timestamps are therefore enough.
   */
  lemma PositionIsRankIffNoTie(s: seq<Job>, t: JobType, sessionId: string)
    requires EarliestMatch(s, t, sessionId).Some?
    ensures IsRankInEveryDrain(s, t, sessionId)
            <==> Count(s, TiedWith(t, EarliestMatch(s, t, sessionId).value)) == 1
  {
    var f := EarliestMatch(s, t, sessionId).value;
    assert TiedWith(t, f)(f);
    CountOne(s, f, TiedWith(t, f));
    if Count(s, TiedWith(t, f)) == 1 {
      forall out, i | DrainedBy(multiset(s), out) && 0 <= i < |out| && out[i] == f
        ensures Count(out[..i + 1], OfKind(t)) == Position(s, t, sessionId)
      {
        PositionBoundsRank(s, t, sessionId, out, i);
      }
    } else {
      var out, i := LateDrain(s, t, f);
      RankInDrain(s, out, i, t);
      assert out[..i + 1] == out[..i] + [out[i]];
      CountConcat(out[..i], [out[i]], OfKind(t));
      assert Count(out[..i + 1], OfKind(t)) != Position(s, t, sessionId);
    }
  }

  lemma {:induction false} CountWitness(s: seq<Job>, p: Job -> bool) returns (i: nat)
    requires Count(s, p) > 0
    ensures i < |s| && p(s[i])
    decreases |s|
  {
    i := |s| - 1;
    if !p(s[i]) {
      i := CountWitness(s[..|s| - 1], p);
    }
  }

  /** With a tie there is a drain that serves a tied job of the type before `f`. */
  lemma LateDrain(s: seq<Job>, t: JobType, f: Job) returns (out: seq<Job>, i: nat)
    requires f in s && f.kind == t && Count(s, TiedWith(t, f)) > 1
    ensures DrainedBy(multiset(s), out) && i < |out| && out[i] == f
    ensures Count(out[..i], TiedWith(t, f)) >= 1
  {
    out := Ordering(s);
    OrderingInOrder(s);
    OrderingIsDrain(multiset(s), out);
    i := IndexOf(out, f);
    CountPermutes(s, out, TiedWith(t, f));
    out, i := TieBefore(multiset(s), out, i, t);
  }

  lemma TieBefore(queue: multiset<Job>, out: seq<Job>, i: nat, t: JobType) returns (out': seq<Job>, k: nat)
    requires DrainedBy(queue, out) && i < |out| && out[i].kind == t
    requires Count(out, TiedWith(t, out[i])) > 1
    ensures DrainedBy(queue, out') && k < |out'| && out'[k] == out[i]
    ensures Count(out'[..k], TiedWith(t, out[i])) >= 1
  {
    var tied := TiedWith(t, out[i]);
    out', k := out, i;
    CountAt(out, i, tied);
    if Count(out[..i], tied) == 0 {
      var m := CountWitness(out[i + 1..], tied);
      k := i + 1 + m;
      out' := TieFirst(queue, out, i, k, t);
    }
  }

  lemma TieFirst(queue: multiset<Job>, out: seq<Job>, i: nat, k: nat, t: JobType) returns (out': seq<Job>)
    requires DrainedBy(queue, out) && i < k < |out| && TiedWith(t, out[i])(out[k])
    ensures DrainedBy(queue, out') && |out'| == |out| && out'[k] == out[i]
    ensures Count(out'[..k], TiedWith(t, out[i])) >= 1
  {
    ExchangeTied(queue, out, i, k);
    out' := out[i := out[k]][k := out[i]];
    assert out'[..k][i] == out[k];
    CountOne(out'[..k], out[k], TiedWith(t, out[i]));
  }

  /** Zero means no match; otherwise the answer lies between 1 and the number of jobs of the type. */
  lemma PositionRange(s: seq<Job>, t: JobType, sessionId: string)
    ensures Position(s, t, sessionId) == 0 <==> forall x | x in s :: !Matches(x, t, sessionId)
    ensures Position(s, t, sessionId) <= Count(s, OfKind(t))
  {
    match EarliestMatch(s, t, sessionId)
    case None =>
    case Some(f) =>
      var i :| 0 <= i < |s| && s[i] == f;
      CountAt(s, i, AheadOf(t, f));
      CountAt(s, i, OfKind(t));
      CountMonotone(s[..i], AheadOf(t, f), OfKind(t));
      CountMonotone(s[i + 1..], AheadOf(t, f), OfKind(t));
  }
}
