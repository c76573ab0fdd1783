/**
  Properties of whole runs of the queue: any interleaving of accepted and
  refused Enqueue calls with Dequeue calls by any number of workers.
 */
module QueueRuns {
  import opened Jobs
  import QueueRank

  ghost predicate IsRun(capacity: int, queue: multiset<Job>, run: seq<Event>)
    decreases |run|
  {
    run == [] || (CanHappen(capacity, queue, run[0]) && IsRun(capacity, After(queue, run[0]), run[1..]))
  }

  ghost function AfterRun(queue: multiset<Job>, run: seq<Event>): multiset<Job>
    decreases |run|
  {
    if run == [] then queue else AfterRun(After(queue, run[0]), run[1..])
  }

  /** The jobs accepted during the run, in order of arrival. */
  function Arrivals(run: seq<Event>): seq<Job> {
    if run == [] then []
    else if run[0].Enqueued? then [run[0].job] + Arrivals(run[1..])
    else Arrivals(run[1..])
  }

  /** The jobs handed to workers during the run, in order of service. */
  function Served(run: seq<Event>): seq<Job> {
    if run == [] then []
    else if run[0].Dequeued? then [run[0].job] + Served(run[1..])
    else Served(run[1..])
  }

  /** The jobs of `s` that `j` does not precede. */
  function NotAfter(s: seq<Job>, j: Job): (r: seq<Job>)
    ensures forall x | x in r :: !Precedes(j, x)
  {
    if s == [] then []
    else if Precedes(j, s[0]) then NotAfter(s[1..], j)
    else [s[0]] + NotAfter(s[1..], j)
  }

  lemma Concat(a: seq<Job>, b: seq<Job>)
    ensures multiset(a + b) == multiset(a) + multiset(b)
  {
  }

  lemma {:induction false} RunConservesJob(capacity: int, queue: multiset<Job>, run: seq<Event>, x: Job)
    requires IsRun(capacity, queue, run)
    ensures queue[x] + multiset(Arrivals(run))[x] == multiset(Served(run))[x] + AfterRun(queue, run)[x]
    decreases |run|
  {
    if run != [] {
      RunConservesJob(capacity, After(queue, run[0]), run[1..], x);
      match run[0]
      case Enqueued(j) => Concat([j], Arrivals(run[1..]));
      case Refused(j) =>
      case Dequeued(j) => Concat([j], Served(run[1..]));
    }
  }

  /** No job is lost, invented or served twice. */
  lemma RunConservesJobs(capacity: int, queue: multiset<Job>, run: seq<Event>)
    requires IsRun(capacity, queue, run)
    ensures queue + multiset(Arrivals(run)) == multiset(Served(run)) + AfterRun(queue, run)
  {
    forall x ensures (queue + multiset(Arrivals(run)))[x] == (multiset(Served(run)) + AfterRun(queue, run))[x] {
      RunConservesJob(capacity, queue, run, x);
    }
  }

  /** The length never exceeds the capacity. */
  lemma {:induction false} RunStaysWithinCapacity(capacity: int, queue: multiset<Job>, run: seq<Event>)
    requires IsRun(capacity, queue, run) && |queue| <= capacity
    ensures |AfterRun(queue, run)| <= capacity
    decreases |run|
  {
    if run != [] {
      RunStaysWithinCapacity(capacity, After(queue, run[0]), run[1..]);
    }
  }

  /** While `j` waits, no job that it precedes is served, whenever that job arrived. */
  lemma {:induction false} ServedWhileWaiting(capacity: int, queue: multiset<Job>, run: seq<Event>, j: Job)
    requires IsRun(capacity, queue, run) && j in queue && Dequeued(j) !in run
    ensures j in AfterRun(queue, run)
    ensures forall x | x in Served(run) :: !Precedes(j, x) && x != j
    decreases |run|
  {
    if run != [] {
      assert run[0] in run && forall e | e in run[1..] :: e in run;
      ServedWhileWaiting(capacity, After(queue, run[0]), run[1..], j);
    }
  }

  /** In numbers: whatever is served while `j` waits has a higher priority, or the same and no later timestamp. */
  lemma ServedInOrder(capacity: int, queue: multiset<Job>, run: seq<Event>, j: Job)
    requires IsRun(capacity, queue, run) && j in queue && Dequeued(j) !in run
    ensures forall x | x in Served(run) ::
      x.priority > j.priority || (x.priority == j.priority && x.enqueuedAt <= j.enqueuedAt)
  {
    ServedWhileWaiting(capacity, queue, run, j);
  }

  lemma {:induction false} NotAfterKeeps(s: seq<Job>, j: Job, x: Job)
    ensures multiset(NotAfter(s, j))[x] == if Precedes(j, x) then 0 else multiset(s)[x]
    decreases |s|
  {
    if s != [] {
      NotAfterKeeps(s[1..], j, x);
      QueueRank.HeadAndTail(s);
      Concat([s[0]], NotAfter(s[1..], j));
    }
  }

  /**
    Bounded overtaking: the jobs served while `j` waits are among those already
    queued that `j` does not precede, and the later arrivals that `j` does not precede.
   */
  lemma BoundedOvertaking(capacity: int, content: seq<Job>, run: seq<Event>, j: Job)
    requires IsRun(capacity, multiset(content), run) && j in content && Dequeued(j) !in run
    ensures multiset(Served(run)) <= multiset(NotAfter(content, j)) + multiset(NotAfter(Arrivals(run), j))
    ensures |Served(run)| < |NotAfter(content, j)| + |NotAfter(Arrivals(run), j)|
  {
    var served := multiset(Served(run));
    var ahead := multiset(NotAfter(content, j)) + multiset(NotAfter(Arrivals(run), j));
    forall x ensures (served + multiset{j})[x] <= ahead[x] {
      OvertakersOf(capacity, content, run, j, x);
    }
    SubsetSize(served + multiset{j}, ahead);
  }

  lemma OvertakersOf(capacity: int, content: seq<Job>, run: seq<Event>, j: Job, x: Job)
    requires IsRun(capacity, multiset(content), run) && j in content && Dequeued(j) !in run
    ensures multiset(Served(run))[x] + multiset{j}[x]
            <= multiset(NotAfter(content, j))[x] + multiset(NotAfter(Arrivals(run), j))[x]
  {
    RunConservesJobs(capacity, multiset(content), run);
    ServedWhileWaiting(capacity, multiset(content), run, j);
    NotAfterKeeps(content, j, x);
    NotAfterKeeps(Arrivals(run), j, x);
    var content', arrivals := multiset(content), multiset(Arrivals(run));
    var served, left := multiset(Served(run)), AfterRun(content', run);
    assert (content' + arrivals)[x] == (served + left)[x];
    assert x in served ==> x in Served(run);
  }

  lemma SubsetSize(a: multiset<Job>, b: multiset<Job>)
    requires a <= b
    ensures |a| <= |b|
  {
    assert b == a + (b - a);
  }

  /** The copy of a job that the backoff goroutine puts back: only the attempt count moves. */
  function Retried(j: Job): Job {
    j.(attempts := j.attempts + 1)
  }

  /**
    A retried job keeps its timestamp: from the moment it is back in the queue, no job
    of the same priority created later than its original is served before it.
   */
  lemma RetryKeepsItsPlace(capacity: int, queue: multiset<Job>, run: seq<Event>, j: Job, x: Job)
    requires IsRun(capacity, queue, [Enqueued(Retried(j))] + run) && Dequeued(Retried(j)) !in run
    requires x.priority == j.priority && x in Served(run)
    ensures x.enqueuedAt <= j.enqueuedAt
  {
    var all := [Enqueued(Retried(j))] + run;
    assert all[1..] == run;
    ServedWhileWaiting(capacity, After(queue, all[0]), run, Retried(j));
  }

  ghost predicate AllOfPriority(s: multiset<Job>, p: int) {
    forall x | x in s :: x.priority == p
  }

  /**
    With a single priority, as in the download queue, service is by timestamp: between two
    jobs that are ever queued together, the later one is never served first.
   */
  lemma SinglePriorityServesByTime(capacity: int, queue: multiset<Job>, run: seq<Event>, p: int, j: Job)
    requires IsRun(capacity, queue, run) && j in queue && Dequeued(j) !in run
    requires AllOfPriority(queue, p) && AllOfPriority(multiset(Arrivals(run)), p)
    ensures forall x | x in Served(run) :: x.enqueuedAt <= j.enqueuedAt
  {
    RunConservesJobs(capacity, queue, run);
    ServedWhileWaiting(capacity, queue, run, j);
    forall x | x in Served(run) ensures x.enqueuedAt <= j.enqueuedAt {
      assert x in multiset(Served(run));
      assert x in queue + multiset(Arrivals(run));
    }
  }
}
