/**
  The mutex and condition variable of Queue as a transition system. Each step is
  one critical section: a whole Enqueue, or the part of Dequeue between taking the
  lock and either releasing it or going to sleep in Wait.
 */
module Monitor {
  import opened Jobs
  import QueueRuns

  /** A worker in its handler or about to lock, asleep in Wait, or signalled and about to lock again. */
  datatype Worker = Active | Asleep | Signalled

  datatype State = State(queue: multiset<Job>, workers: map<nat, Worker>)

  datatype Step =
    | Offer(job: Job)               // Enqueue that finds nobody asleep, or no room
    | OfferAndWake(job: Job, w: nat) // Enqueue whose Signal wakes sleeper w
    | Take(w: nat, job: Job)        // an active worker locks a non-empty queue: it may barge past a signalled one
    | FallAsleep(w: nat)            // an active worker locks an empty queue
    | Resume(w: nat, job: Job)      // a signalled worker locks a non-empty queue
    | SleepAgain(w: nat)            // a signalled worker finds the queue empty again

  ghost predicate Is(s: State, w: nat, k: Worker) {
    w in s.workers && s.workers[w] == k
  }

  ghost predicate SomeAsleep(s: State) {
    exists w :: Is(s, w, Asleep)
  }

  ghost predicate Enabled(capacity: int, s: State, step: Step) {
    match step
    case Offer(j) => |s.queue| >= capacity || !SomeAsleep(s)
    case OfferAndWake(j, w) => |s.queue| < capacity && Is(s, w, Asleep)
    case Take(w, j) => Is(s, w, Active) && IsFirst(s.queue, j)
    case FallAsleep(w) => Is(s, w, Active) && s.queue == multiset{}
    case Resume(w, j) => Is(s, w, Signalled) && IsFirst(s.queue, j)
    case SleepAgain(w) => Is(s, w, Signalled) && s.queue == multiset{}
  }

  ghost function Next(capacity: int, s: State, step: Step): State {
    match step
    case Offer(j) => if |s.queue| < capacity then s.(queue := s.queue + multiset{j}) else s
    case OfferAndWake(j, w) => State(s.queue + multiset{j}, s.workers[w := Signalled])
    case Take(w, j) => s.(queue := s.queue - multiset{j})
    case FallAsleep(w) => s.(workers := s.workers[w := Asleep])
    case Resume(w, j) => State(s.queue - multiset{j}, s.workers[w := Active])
    case SleepAgain(w) => s.(workers := s.workers[w := Asleep])
  }

  ghost predicate IsRun(capacity: int, s: State, run: seq<Step>)
    decreases |run|
  {
    run == [] || (Enabled(capacity, s, run[0]) && IsRun(capacity, Next(capacity, s, run[0]), run[1..]))
  }

  ghost function AfterRun(capacity: int, s: State, run: seq<Step>): State
    decreases |run|
  {
    if run == [] then s else AfterRun(capacity, Next(capacity, s, run[0]), run[1..])
  }

  /** WorkerPool.Start: an empty queue and every worker about to call Dequeue. */
  ghost predicate Initial(s: State) {
    s.queue == multiset{} && forall w | w in s.workers :: s.workers[w] == Active
  }

  ghost function SignalledIn(workers: map<nat, Worker>): set<nat> {
    set w | w in workers && workers[w] == Signalled
  }

  /** If anyone sleeps, every queued job has a signalled worker of its own on the way. */
  ghost predicate NoLostWakeup(s: State) {
    SomeAsleep(s) ==> |s.queue| <= |SignalledIn(s.workers)|
  }

  lemma WakeOne(workers: map<nat, Worker>, w: nat)
    requires w in workers && workers[w] == Asleep
    ensures |SignalledIn(workers[w := Signalled])| == |SignalledIn(workers)| + 1
  {
    assert SignalledIn(workers[w := Signalled]) == SignalledIn(workers) + {w};
  }

  lemma ResumeOne(workers: map<nat, Worker>, w: nat)
    requires w in workers && workers[w] == Signalled
    ensures |SignalledIn(workers[w := Active])| == |SignalledIn(workers)| - 1
  {
    assert SignalledIn(workers[w := Active]) == SignalledIn(workers) - {w};
  }

  lemma StepKeepsWakeups(capacity: int, s: State, step: Step)
    requires NoLostWakeup(s) && Enabled(capacity, s, step)
    ensures NoLostWakeup(Next(capacity, s, step))
  {
    var s' := Next(capacity, s, step);
    if SomeAsleep(s') {
      var v :| Is(s', v, Asleep);
      match step
      case Offer(j) =>
        assert Is(s, v, Asleep);
      case OfferAndWake(j, w) =>
        WakeOne(s.workers, w);
        Sizes(s.queue, j);
      case Take(w, j) =>
        assert Is(s, v, Asleep);
        Sizes(s.queue, j);
      case FallAsleep(w) =>
      case Resume(w, j) =>
        assert Is(s, v, Asleep);
        ResumeOne(s.workers, w);
        Sizes(s.queue, j);
      case SleepAgain(w) =>
    }
  }

  lemma Sizes(queue: multiset<Job>, j: Job)
    ensures |queue + multiset{j}| == |queue| + 1
    ensures j in queue ==> |queue - multiset{j}| == |queue| - 1
  {
  }

  lemma {:induction false} RunKeepsWakeups(capacity: int, s: State, run: seq<Step>)
    requires NoLostWakeup(s) && IsRun(capacity, s, run)
    ensures NoLostWakeup(AfterRun(capacity, s, run))
    ensures AfterRun(capacity, s, run).workers.Keys == s.workers.Keys
    decreases |run|
  {
    if run != [] {
      StepKeepsWakeups(capacity, s, run[0]);
      assert Next(capacity, s, run[0]).workers.Keys == s.workers.Keys;
      RunKeepsWakeups(capacity, Next(capacity, s, run[0]), run[1..]);
    }
  }

  /**
    No lost wakeup, over every run from the start of the pool: sleepers leave at most as many
    jobs queued as there are signalled workers. So while jobs are queued and there is a worker
    at all, some worker is awake, and the next lock it takes serves a first job.
   */
  lemma NoWakeupIsLost(capacity: int, s: State, run: seq<Step>)
    requires Initial(s) && s.workers != map[] && IsRun(capacity, s, run)
    ensures NoLostWakeup(AfterRun(capacity, s, run))
    ensures var t := AfterRun(capacity, s, run);
      t.queue != multiset{} ==>
        exists w, j :: Enabled(capacity, t, Take(w, j)) || Enabled(capacity, t, Resume(w, j))
  {
    assert !SomeAsleep(s);
    RunKeepsWakeups(capacity, s, run);
    var t := AfterRun(capacity, s, run);
    if t.queue != multiset{} {
      var j := FirstExists(t.queue);
      var w := AwakeWorker(t);
      assert Enabled(capacity, t, Take(w, j)) || Enabled(capacity, t, Resume(w, j));
    }
  }

  lemma AwakeWorker(s: State) returns (w: nat)
    requires NoLostWakeup(s) && s.queue != multiset{} && s.workers != map[]
    ensures Is(s, w, Active) || Is(s, w, Signalled)
  {
    if SignalledIn(s.workers) != {} {
      w :| w in SignalledIn(s.workers);
    } else {
      assert |s.queue| > 0 && !SomeAsleep(s);
      assert s.workers.Keys != {};
      w :| w in s.workers;
      assert !Is(s, w, Asleep);
    }
  }

  /** A non-empty queue has a first job. */
  lemma {:induction false} FirstExists(queue: multiset<Job>) returns (j: Job)
    requires queue != multiset{}
    ensures IsFirst(queue, j)
    decreases |queue|
  {
    j :| j in queue;
    var picked := j;
    var rest := queue - multiset{j};
    if rest != multiset{} {
      var k := FirstExists(rest);
      if Precedes(k, j) {
        j := k;
      }
      assert forall x | x in queue :: x in rest || x == picked;
    }
  }

  // ------------------------------------------------ the monitor hides its workers

  /** What the step does to the queue, if it touches it. */
  ghost function QueueEvents(capacity: int, s: State, step: Step): seq<Event> {
    match step
    case Offer(j) => if |s.queue| < capacity then [Enqueued(j)] else [Refused(j)]
    case OfferAndWake(j, _) => [Enqueued(j)]
    case Take(_, j) => [Dequeued(j)]
    case Resume(_, j) => [Dequeued(j)]
    case FallAsleep(_) => []
    case SleepAgain(_) => []
  }

  ghost function QueueRun(capacity: int, s: State, run: seq<Step>): seq<Event>
    decreases |run|
  {
    if run == [] then []
    else QueueEvents(capacity, s, run[0]) + QueueRun(capacity, Next(capacity, s, run[0]), run[1..])
  }

  lemma StepRefinesQueue(capacity: int, s: State, step: Step)
    requires Enabled(capacity, s, step)
    ensures var events := QueueEvents(capacity, s, step);
      if events == [] then Next(capacity, s, step).queue == s.queue
      else |events| == 1 && IsStep(capacity, s.queue, events[0], Next(capacity, s, step).queue)
  {
  }

  /** Every run of the monitor is, seen from outside, a run of the plain queue. */
  lemma {:induction false} MonitorRefinesQueue(capacity: int, s: State, run: seq<Step>)
    requires IsRun(capacity, s, run)
    ensures QueueRuns.IsRun(capacity, s.queue, QueueRun(capacity, s, run))
    ensures QueueRuns.AfterRun(s.queue, QueueRun(capacity, s, run)) == AfterRun(capacity, s, run).queue
    decreases |run|
  {
    if run != [] {
      var s' := Next(capacity, s, run[0]);
      StepRefinesQueue(capacity, s, run[0]);
      MonitorRefinesQueue(capacity, s', run[1..]);
      Prepend(capacity, s.queue, QueueEvents(capacity, s, run[0]), s'.queue, QueueRun(capacity, s', run[1..]));
    }
  }

  lemma Prepend(capacity: int, queue: multiset<Job>, events: seq<Event>, queue': multiset<Job>, rest: seq<Event>)
    requires if events == [] then queue' == queue
             else |events| == 1 && IsStep(capacity, queue, events[0], queue')
    requires QueueRuns.IsRun(capacity, queue', rest)
    ensures QueueRuns.IsRun(capacity, queue, events + rest)
    ensures QueueRuns.AfterRun(queue, events + rest) == QueueRuns.AfterRun(queue', rest)
  {
    if events == [] {
      assert events + rest == rest;
    } else {
      assert (events + rest)[1..] == rest;
    }
  }
}
