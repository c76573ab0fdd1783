/**
  The two job queues of the service, with a record of where every job is: waiting jobs are
  exactly those in the heap of their kind.
 */
module TaskQueues {
  import opened Jobs
  import opened ApiModel
  import opened JobQueue

  function JobsOf(tasks: map<string, Task>, ids: set<string>): set<Job>
    requires ids <= tasks.Keys
  {
    set id | id in ids :: tasks[id].job
  }

  function WaitingJobs(tasks: map<string, Task>, kind: JobType): set<Job> {
    JobsOf(tasks, InQueue(tasks, kind))
  }

  ghost predicate FiledByJob(tasks: map<string, Task>) {
    forall id | id in tasks :: tasks[id].job.id == id
  }

  lemma {:induction false} AsManyJobs(tasks: map<string, Task>, ids: set<string>)
    requires FiledByJob(tasks) && ids <= tasks.Keys
    ensures |JobsOf(tasks, ids)| == |ids|
    decreases |ids|
  {
    if ids != {} {
      var id :| id in ids;
      AsManyJobs(tasks, ids - {id});
      assert JobsOf(tasks, ids) == JobsOf(tasks, ids - {id}) + {tasks[id].job};
      assert tasks[id].job !in JobsOf(tasks, ids - {id});
    }
  }

  lemma SetAsMultiset(s: set<Job>, j: Job)
    ensures j !in s ==> multiset(s + {j}) == multiset(s) + multiset{j}
    ensures j in s ==> multiset(s - {j}) == multiset(s) - multiset{j}
  {
  }

  /** A job starts to wait. */
  lemma JobWaits(tasks: map<string, Task>, t: Task, kind: JobType)
    requires FiledByJob(tasks) && (t.job.id in tasks ==> !tasks[t.job.id].place.Waiting?) && t.place.Waiting?
    ensures var tasks' := tasks[t.job.id := t];
      && FiledByJob(tasks')
      && multiset(WaitingJobs(tasks', kind)) ==
           multiset(WaitingJobs(tasks, kind)) + (if kind == t.job.kind then multiset{t.job} else multiset{})
  {
    var tasks' := tasks[t.job.id := t];
    var ids := InQueue(tasks, kind);
    assert t.job.id !in ids && t.job !in WaitingJobs(tasks, kind);
    SetAsMultiset(WaitingJobs(tasks, kind), t.job);
    if kind == t.job.kind {
      assert InQueue(tasks', kind) == ids + {t.job.id};
      assert WaitingJobs(tasks', kind) == WaitingJobs(tasks, kind) + {t.job};
    } else {
      assert InQueue(tasks', kind) == ids;
      assert WaitingJobs(tasks', kind) == WaitingJobs(tasks, kind);
    }
  }

  lemma OthersStay(tasks: map<string, Task>, id: string, ids: set<string>)
    requires FiledByJob(tasks) && id in ids && ids <= tasks.Keys
    ensures JobsOf(tasks, ids - {id}) == JobsOf(tasks, ids) - {tasks[id].job}
  {
    forall j | j in JobsOf(tasks, ids) && j != tasks[id].job ensures j in JobsOf(tasks, ids - {id}) {
      var k :| k in ids && tasks[k].job == j;
      assert k in ids - {id};
    }
  }

  /** A waiting job is taken. */
  lemma JobTaken(tasks: map<string, Task>, id: string, t: Task, kind: JobType)
    requires FiledByJob(tasks) && id in tasks && tasks[id].place.Waiting? && t.job == tasks[id].job && !t.place.Waiting?
    ensures var tasks' := tasks[id := t];
      && FiledByJob(tasks')
      && multiset(WaitingJobs(tasks', kind)) ==
           multiset(WaitingJobs(tasks, kind)) - (if kind == t.job.kind then multiset{t.job} else multiset{})
  {
    var tasks' := tasks[id := t];
    var ids := InQueue(tasks, kind);
    SetAsMultiset(WaitingJobs(tasks, kind), t.job);
    if kind == t.job.kind {
      assert id in ids && t.job in WaitingJobs(tasks, kind);
      assert InQueue(tasks', kind) == ids - {id};
      OthersStay(tasks, id, ids);
      assert JobsOf(tasks', ids - {id}) == JobsOf(tasks, ids - {id});
    } else {
      assert InQueue(tasks', kind) == ids;
      assert WaitingJobs(tasks', kind) == WaitingJobs(tasks, kind);
    }
  }

  /** A job that does not wait, before or after. */
  lemma JobElsewhere(tasks: map<string, Task>, id: string, t: Task, kind: JobType)
    requires FiledByJob(tasks) && id in tasks && !tasks[id].place.Waiting? && t.job.id == id && !t.place.Waiting?
    ensures FiledByJob(tasks[id := t]) && WaitingJobs(tasks[id := t], kind) == WaitingJobs(tasks, kind)
  {
    assert InQueue(tasks[id := t], kind) == InQueue(tasks, kind);
  }

  /** The queue is a heap of exactly the waiting jobs of its kind. */
  ghost predicate Holds(q: Queue, capacity: int, tasks: map<string, Task>, kind: JobType)
    reads q
  {
    q.Valid() && q.capacity == capacity && multiset(q.pq) == multiset(WaitingJobs(tasks, kind))
  }

  /** The queue is as long as its waiting jobs are many. */
  lemma LengthOfQueue(q: Queue, capacity: int, tasks: map<string, Task>, kind: JobType)
    requires FiledByJob(tasks) && Holds(q, capacity, tasks, kind)
    ensures |q.pq| == |InQueue(tasks, kind)|
  {
    AsManyJobs(tasks, InQueue(tasks, kind));
    assert |q.pq| == |multiset(q.pq)| == |WaitingJobs(tasks, kind)|;
  }

  class TaskQueues {
    const capacity: int
    const download: Queue
    const convert: Queue
    var tasks: map<string, Task>

    ghost predicate Valid()
      reads this, download, convert
    {
      && FiledByJob(tasks) && download != convert
      && Holds(download, capacity, tasks, Download) && Holds(convert, capacity, tasks, Convert)
    }

    constructor (capacity: int)
      ensures Valid() && tasks == map[] && this.capacity == capacity && fresh(download) && fresh(convert)
    {
      this.capacity := capacity;
      download := new Queue(capacity);
      convert := new Queue(capacity);
      tasks := map[];
    }

    /** Puts a job in the queue of its kind, if there is room. */
    method Enqueue(t: Task) returns (ok: bool)
      requires Valid() && t.place.Waiting? && (t.job.id in tasks ==> !tasks[t.job.id].place.Waiting?)
      modifies this`tasks, download, convert
      ensures Valid() && ok == (|InQueue(old(tasks), t.job.kind)| < capacity)
      ensures tasks == if ok then old(tasks)[t.job.id := t] else old(tasks)
    {
      LengthOfQueue(download, capacity, tasks, Download);
      LengthOfQueue(convert, capacity, tasks, Convert);
      JobWaits(tasks, t, Download);
      JobWaits(tasks, t, Convert);
      if t.job.kind == Download {
        ok := download.Enqueue(t.job);
      } else {
        ok := convert.Enqueue(t.job);
      }
      if ok {
        tasks := tasks[t.job.id := t];
      }
    }

    /** Hands out a job of the kind that no other waiting one precedes. */
    method Take(kind: JobType) returns (j: Job)
      requires Valid() && InQueue(tasks, kind) != {}
      modifies this`tasks, download, convert
      ensures Valid() && j.id in InQueue(old(tasks), kind) && old(tasks)[j.id].job == j
      ensures forall id | id in InQueue(old(tasks), kind) ::
        var k := old(tasks)[id].job;
        k.priority < j.priority || (k.priority == j.priority && j.enqueuedAt <= k.enqueuedAt)
      ensures tasks == old(tasks)[j.id := Begun(old(tasks)[j.id])]
    {
      ghost var before := tasks;
      if kind == Download {
        j := TakeDownload();
      } else {
        j := TakeConvert();
      }
      InNumbers(before, kind, j);
    }

    method TakeDownload() returns (j: Job)
      requires Valid() && InQueue(tasks, Download) != {}
      modifies this`tasks, download
      ensures Valid() && IsFirst(multiset(WaitingJobs(old(tasks), Download)), j)
      ensures j.id in old(tasks) && tasks == old(tasks)[j.id := Begun(old(tasks)[j.id])]
    {
      LengthOfQueue(download, capacity, tasks, Download);
      j := Pop(download, multiset(WaitingJobs(tasks, Download)));
      TakingFirst(tasks, Download, j);
      tasks := tasks[j.id := Begun(tasks[j.id])];
    }

    method TakeConvert() returns (j: Job)
      requires Valid() && InQueue(tasks, Convert) != {}
      modifies this`tasks, convert
      ensures Valid() && IsFirst(multiset(WaitingJobs(old(tasks), Convert)), j)
      ensures j.id in old(tasks) && tasks == old(tasks)[j.id := Begun(old(tasks)[j.id])]
    {
      LengthOfQueue(convert, capacity, tasks, Convert);
      j := Pop(convert, multiset(WaitingJobs(tasks, Convert)));
      TakingFirst(tasks, Convert, j);
      tasks := tasks[j.id := Begun(tasks[j.id])];
    }

    /** Takes a first job off one of the heaps. */
    method Pop(q: Queue, ghost waiting: multiset<Job>) returns (j: Job)
      requires q.Valid() && q.pq != [] && multiset(q.pq) == waiting
      modifies q
      ensures q.Valid() && IsFirst(waiting, j) && multiset(q.pq) == waiting - multiset{j}
    {
      j := q.Dequeue();
    }

    /** Notes where a job is that does not wait. */
    method Record(id: string, t: Task)
      requires Valid() && id in tasks && !tasks[id].place.Waiting? && t.job.id == id && !t.place.Waiting?
      modifies this`tasks
      ensures Valid() && tasks == old(tasks)[id := t]
    {
      JobElsewhere(tasks, id, t, Download);
      JobElsewhere(tasks, id, t, Convert);
      tasks := tasks[id := t];
    }
  }

  /** A first job of the queue, found among the tasks and compared with the others in numbers. */
  lemma InNumbers(tasks: map<string, Task>, kind: JobType, j: Job)
    requires FiledByJob(tasks) && IsFirst(multiset(WaitingJobs(tasks, kind)), j)
    ensures j.id in InQueue(tasks, kind) && tasks[j.id].job == j
    ensures forall id | id in InQueue(tasks, kind) ::
      var k := tasks[id].job;
      k.priority < j.priority || (k.priority == j.priority && j.enqueuedAt <= k.enqueuedAt)
  {
    assert j in WaitingJobs(tasks, kind);
    forall id | id in InQueue(tasks, kind)
      ensures var k := tasks[id].job; k.priority < j.priority || (k.priority == j.priority && j.enqueuedAt <= k.enqueuedAt)
    {
      assert tasks[id].job in WaitingJobs(tasks, kind);
      assert tasks[id].job in multiset(WaitingJobs(tasks, kind));
      OrderInNumbers(tasks[id].job, j);
    }
  }

  /** What a worker's taking a first job does to the waiting jobs of both kinds. */
  lemma TakingFirst(tasks: map<string, Task>, kind: JobType, j: Job)
    requires FiledByJob(tasks) && IsFirst(multiset(WaitingJobs(tasks, kind)), j)
    ensures j.id in tasks
    ensures var tasks' := tasks[j.id := Begun(tasks[j.id])];
      && FiledByJob(tasks')
      && multiset(WaitingJobs(tasks', kind)) == multiset(WaitingJobs(tasks, kind)) - multiset{j}
      && forall k | k != kind :: multiset(WaitingJobs(tasks', k)) == multiset(WaitingJobs(tasks, k))
  {
    InNumbers(tasks, kind, j);
    JobTaken(tasks, j.id, Begun(tasks[j.id]), Download);
    JobTaken(tasks, j.id, Begun(tasks[j.id]), Convert);
  }
}
