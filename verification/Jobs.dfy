/**
  Jobs, the order in which the queue serves them, and the abstract queue: a
  bounded multiset from which a first job is taken.
 */
module Jobs {

  datatype JobType = Download | Convert

  datatype Job = Job(
    id: string,
    kind: JobType,
    sessionId: string,
    quality: string,
    startTime: string,
    endTime: string,
    enqueuedAt: int,
    priority: int,
    attempts: int)

  /** jobPQ.Less on the two jobs: higher priority first, then the earlier timestamp. */
  predicate Precedes(a: Job, b: Job) {
    if a.priority == b.priority then a.enqueuedAt < b.enqueuedAt else a.priority > b.priority
  }

  /** In numbers: what it takes for one job not to precede another. */
  lemma OrderInNumbers(a: Job, b: Job)
    ensures !Precedes(a, b) <==> b.priority > a.priority || (b.priority == a.priority && b.enqueuedAt <= a.enqueuedAt)
  {
  }

  /** Neither job precedes the other, so the queue may serve them in either order. */
  predicate Tied(a: Job, b: Job) {
    !Precedes(a, b) && !Precedes(b, a)
  }

  /** `j` is queued and no queued job precedes it. */
  ghost predicate IsFirst(queue: multiset<Job>, j: Job) {
    j in queue && forall k | k in queue :: !Precedes(k, j)
  }

  /** What one call does to the queue, as its callers see it. */
  datatype Event =
    | Enqueued(job: Job)
    | Refused(job: Job)
    | Dequeued(job: Job)

  ghost predicate CanHappen(capacity: int, queue: multiset<Job>, e: Event) {
    match e
    case Enqueued(j) => |queue| < capacity
    case Refused(j) => |queue| >= capacity
    case Dequeued(j) => IsFirst(queue, j)
  }

  ghost function After(queue: multiset<Job>, e: Event): multiset<Job> {
    match e
    case Enqueued(j) => queue + multiset{j}
    case Refused(j) => queue
    case Dequeued(j) => queue - multiset{j}
  }

  ghost predicate IsStep(capacity: int, queue: multiset<Job>, e: Event, queue': multiset<Job>) {
    CanHappen(capacity, queue, e) && queue' == After(queue, e)
  }
}
