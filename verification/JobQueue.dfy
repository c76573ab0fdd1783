/**
  The priority queue of queue.go: a binary heap kept in a slice. The sift loops
  are those of Go's container/heap, driven by the repository's order.
 */
module JobQueue {
  import opened Jobs
  import opened Options
  import QueueRank

  function Parent(i: nat): nat
    requires i > 0
  {
    (i - 1) / 2
  }

  function Swapped(s: seq<Job>, i: nat, j: nat): (r: seq<Job>)
    requires i < |s| && j < |s|
  {
    s[i := s[j]][j := s[i]]
  }

  /** The first `n` entries form a heap, except that `hole` may precede its parent. */
  ghost predicate HeapBelow(s: seq<Job>, n: nat, hole: nat)
    requires n <= |s|
  {
    && (forall i :: 0 < i < n && i != hole ==> !Precedes(s[i], s[Parent(i)]))
    && (forall i :: 0 < i < n && 0 < hole == Parent(i) ==> !Precedes(s[i], s[Parent(hole)]))
  }

  /** The first `n` entries form a heap, except that children of `hole` may precede it. */
  ghost predicate HeapAbove(s: seq<Job>, n: nat, hole: nat)
    requires n <= |s|
  {
    && (forall i :: 0 < i < n && Parent(i) != hole ==> !Precedes(s[i], s[Parent(i)]))
    && (forall i :: 0 < i < n && 0 < hole == Parent(i) ==> !Precedes(s[i], s[Parent(hole)]))
  }

  ghost predicate IsHeap(s: seq<Job>, n: nat)
    requires n <= |s|
  {
    forall i :: 0 < i < n ==> !Precedes(s[i], s[Parent(i)])
  }

  lemma SwapKeepsJobs(s: seq<Job>, i: nat, j: nat)
    requires i < |s| && j < |s|
    ensures multiset(Swapped(s, i, j)) == multiset(s)
  {
  }

  /** The order is negatively transitive, so `!Precedes` can be chained up the tree. */
  lemma NotPrecedesChains(a: Job, b: Job, c: Job)
    requires !Precedes(a, b) && !Precedes(b, c)
    ensures !Precedes(a, c)
  {
  }

  /** One round of sifting up moves the hole to its parent. */
  lemma SiftUpStep(s: seq<Job>, j: nat)
    requires 0 < j < |s| && HeapBelow(s, |s|, j) && Precedes(s[j], s[Parent(j)])
    ensures HeapBelow(Swapped(s, Parent(j), j), |s|, Parent(j))
  {
    var p := Parent(j);
    var t := Swapped(s, p, j);
    forall i | 0 < i < |s| && i != p ensures !Precedes(t[i], t[Parent(i)]) {
      if i != j && Parent(i) == p {
        NotPrecedesChains(s[i], s[p], s[j]);
      }
    }
    forall i | 0 < i < |s| && 0 < p == Parent(i) ensures !Precedes(t[i], t[Parent(p)]) {
      if i != j {
        NotPrecedesChains(s[i], s[p], s[Parent(p)]);
      }
    }
  }

  /** No child of `i` precedes entry `j`. */
  ghost predicate ChildrenFollow(s: seq<Job>, n: nat, i: nat, j: nat)
    requires n <= |s| && j < |s|
  {
    && (2 * i + 1 < n ==> !Precedes(s[2 * i + 1], s[j]))
    && (2 * i + 2 < n ==> !Precedes(s[2 * i + 2], s[j]))
  }

  /** One round of sifting down moves the hole to the child that precedes its sibling. */
  lemma SiftDownStep(s: seq<Job>, n: nat, i: nat, j: nat)
    requires 0 < j < n <= |s| && i == Parent(j) && HeapAbove(s, n, i)
    requires Precedes(s[j], s[i]) && ChildrenFollow(s, n, i, j)
    ensures HeapAbove(Swapped(s, i, j), n, j)
  {
    var t := Swapped(s, i, j);
    forall k | 0 < k < n && Parent(k) != j ensures !Precedes(t[k], t[Parent(k)]) {
      if Parent(k) == i {
        assert k == 2 * i + 1 || k == 2 * i + 2;
      }
    }
    forall k | 0 < k < n && 0 < j == Parent(k) ensures !Precedes(t[k], t[Parent(j)]) {
      assert t[k] == s[k] && t[i] == s[j];
    }
  }

  lemma SiftDownDone(s: seq<Job>, n: nat, i: nat)
    requires n <= |s| && HeapAbove(s, n, i)
    requires i < n ==> ChildrenFollow(s, n, i, i)
    ensures IsHeap(s, n)
  {
    forall k | 0 < k < n ensures !Precedes(s[k], s[Parent(k)]) {
      if Parent(k) == i {
        assert k == 2 * i + 1 || k == 2 * i + 2;
      }
    }
  }

  /** Of the two children of `i`, the loop picks one that the other does not precede. */
  lemma FirstChild(s: seq<Job>, n: nat, i: nat, j: nat)
    requires n <= |s| && 2 * i + 1 < n
    requires j == if 2 * i + 2 < n && Precedes(s[2 * i + 2], s[2 * i + 1]) then 2 * i + 2 else 2 * i + 1
    ensures ChildrenFollow(s, n, i, j) && i == Parent(j)
  {
  }

  lemma SwapKeepsTail(s: seq<Job>, n: nat, i: nat, j: nat)
    requires i < n && j < n <= |s|
    ensures Swapped(s, i, j)[n..] == s[n..]
  {
  }

  /** The root of a heap is preceded by no entry. */
  lemma {:induction false} RootIsFirst(s: seq<Job>, n: nat, k: nat)
    requires k < n <= |s| && IsHeap(s, n)
    ensures !Precedes(s[k], s[0])
    decreases k
  {
    if k > 0 {
      RootIsFirst(s, n, Parent(k));
    }
  }

  class Queue {
    var pq: seq<Job>
    const capacity: int

    ghost predicate Valid()
      reads this
    {
      IsHeap(pq, |pq|) && (pq == [] || |pq| <= capacity)
    }

    /** NewQueue: heap.Init on an empty slice does nothing. */
    constructor (capacity: int)
      ensures Valid() && pq == [] && this.capacity == capacity
    {
      this.capacity := capacity;
      pq := [];
    }

    method Swap(i: nat, j: nat)
      requires i < |pq| && j < |pq|
      modifies this`pq
      ensures pq == Swapped(old(pq), i, j)
      ensures multiset(pq) == multiset(old(pq))
    {
      SwapKeepsJobs(pq, i, j);
      pq := pq[i := pq[j]][j := pq[i]];
    }

    /** container/heap's sift-up from index `start`. */
    method Up(start: nat)
      requires start < |pq| && HeapBelow(pq, |pq|, start)
      modifies this`pq
      ensures IsHeap(pq, |pq|) && |pq| == |old(pq)|
      ensures multiset(pq) == multiset(old(pq))
    {
      var j: nat := start;
      while true
        invariant j < |pq| == |old(pq)| && HeapBelow(pq, |pq|, j)
        invariant multiset(pq) == multiset(old(pq))
        decreases j
      {
        var i: nat := if j == 0 then 0 else (j - 1) / 2;
        if i == j || !Precedes(pq[j], pq[i]) {
          break;
        }
        SiftUpStep(pq, j);
        Swap(i, j);
        j := i;
      }
    }

    /** container/heap's sift-down from the root, over the first `n` entries. */
    method Down(n: nat)
      requires n <= |pq| && HeapAbove(pq, n, 0)
      modifies this`pq
      ensures |pq| == |old(pq)| && IsHeap(pq, n) && pq[n..] == old(pq)[n..]
      ensures multiset(pq) == multiset(old(pq))
    {
      var i: nat := 0;
      while true
        invariant |pq| == |old(pq)| && HeapAbove(pq, n, i)
        invariant pq[n..] == old(pq)[n..]
        invariant multiset(pq) == multiset(old(pq))
        decreases n - i
      {
        if 2 * i + 1 >= n {
          SiftDownDone(pq, n, i);
          break;
        }
        var j := PickChild(n, i);
        if !Precedes(pq[j], pq[i]) {
          SiftDownDone(pq, n, i);
          break;
        }
        SiftDownStep(pq, n, i, j);
        SwapKeepsTail(pq, n, i, j);
        Swap(i, j);
        i := j;
      }
    }

    /** The child that sifting down compares with its parent. */
    method PickChild(n: nat, i: nat) returns (j: nat)
      requires 2 * i + 1 < n <= |pq|
      ensures 2 * i + 1 <= j <= 2 * i + 2 && j < n && i == Parent(j) && ChildrenFollow(pq, n, i, j)
    {
      var j1 := 2 * i + 1;
      j := j1;
      var j2 := j1 + 1;
      if j2 < n && Precedes(pq[j2], pq[j1]) {
        j := j2;
      }
      FirstChild(pq, n, i, j);
    }

    /** Enqueue: accepted exactly when there is room; a refused call changes nothing. */
    method Enqueue(j: Job) returns (ok: bool)
      requires Valid()
      modifies this`pq
      ensures Valid()
      ensures IsStep(capacity, multiset(old(pq)), if ok then Enqueued(j) else Refused(j), multiset(pq))
      ensures ok == (|old(pq)| < capacity)
      ensures ok ==> multiset(pq) == multiset(old(pq)) + multiset{j}
      ensures !ok ==> pq == old(pq)
    {
      if |pq| >= capacity {
        return false;
      }
      pq := pq + [j];
      Up(|pq| - 1);
      return true;
    }

    /** Dequeue once the wait is over: serves a first job and removes nothing else. */
    method Dequeue() returns (j: Job)
      requires Valid() && pq != []
      modifies this`pq
      ensures Valid()
      ensures IsStep(capacity, multiset(old(pq)), Dequeued(j), multiset(pq))
      ensures j in old(pq) && multiset(pq) == multiset(old(pq)) - multiset{j}
      ensures forall k | k in old(pq) ::
        k.priority < j.priority || (k.priority == j.priority && j.enqueuedAt <= k.enqueuedAt)
    {
      var n := |pq| - 1;
      forall k | 0 <= k < |pq| ensures !Precedes(pq[k], pq[0]) {
        RootIsFirst(pq, |pq|, k);
      }
      Swap(0, n);
      Down(n);
      j := pq[n];
      assert pq == pq[..n] + [j];
      pq := pq[..n];
    }

    /** PositionForSession: the two scans over the slice, in heap order. */
    method PositionForSession(t: JobType, sessionId: string) returns (pos: nat)
      requires Valid()
      ensures pos == QueueRank.Position(pq, t, sessionId)
      ensures pos == 0 <==> forall x | x in pq :: !(x.kind == t && x.sessionId == sessionId)
      ensures pos > 0 ==> exists f: Job ::
        && f in pq && f.kind == t && f.sessionId == sessionId
        && (forall x | x in pq && x.kind == t && x.sessionId == sessionId :: f.enqueuedAt <= x.enqueuedAt)
        && pos == 1 + |set i | 0 <= i < |pq| && pq[i].kind == t
                         && (pq[i].priority > f.priority
                             || (pq[i].priority == f.priority && pq[i].enqueuedAt < f.enqueuedAt))|
    {
      QueueRank.PositionInNumbers(pq, t, sessionId);
      var found := FindEarliest(t, sessionId);
      if found.None? {
        return 0;
      }
      pos := CountAhead(t, found.value);
    }

    /** The first scan: an earliest job of the session. */
    method FindEarliest(t: JobType, sessionId: string) returns (found: Option<Job>)
      ensures found == QueueRank.EarliestMatch(pq, t, sessionId)
    {
      found := None;
      for i := 0 to |pq|
        invariant found == QueueRank.EarliestMatch(pq[..i], t, sessionId)
      {
        var pj := pq[i];
        QueueRank.EarliestNext(pq, i, t, sessionId);
        if pj.kind == t && pj.sessionId == sessionId {
          if found.None? || pj.enqueuedAt < found.value.enqueuedAt {
            found := Some(pj);
          }
        }
      }
      assert pq[..|pq|] == pq;
    }

    /** The second scan: one more than the jobs of the type that precede it. */
    method CountAhead(t: JobType, found: Job) returns (pos: nat)
      ensures pos == 1 + QueueRank.Count(pq, QueueRank.AheadOf(t, found))
    {
      pos := 1;
      for i := 0 to |pq|
        invariant pos == 1 + QueueRank.Count(pq[..i], QueueRank.AheadOf(t, found))
      {
        var pj := pq[i];
        QueueRank.CountNext(pq, i, QueueRank.AheadOf(t, found));
        if pj.kind == t {
          if pj.priority > found.priority {
            pos := pos + 1;
          } else if pj.priority == found.priority && pj.enqueuedAt < found.enqueuedAt {
            pos := pos + 1;
          }
        }
      }
      assert pq[..|pq|] == pq;
    }
  }
}
