/**
  Who may touch which session object. Handlers allocate objects, obtain copies from the
  store, write to the objects they hold at any time without the lock, and store them;
  everything interleaves. Objects are named by references into a heap.
 */
module Ownership {
  import opened Model

  type Ref = nat
  type Handler = nat

  datatype State = State(
    heap: map<Ref, Session>,
    stored: map<string, Ref>,
    held: map<Handler, Ref>,
    usedIds: set<string>)

  datatype Step =
    | Create(h: Handler, r: Ref, s: Session)   // allocate a session with a new id and CreateSession it
    | Get(h: Handler, id: string, r: Ref)      // GetSession: copy into a new object
    | Write(h: Handler, s: Session)            // set fields of the held object
    | Update(h: Handler)                       // UpdateSession with the held object
    | Delete(id: string)
    | Finish(h: Handler)

  predicate Enabled(st: State, step: Step) {
    match step
    case Create(h, r, s) => h !in st.held && r !in st.heap && s.id !in st.usedIds
    case Get(h, id, r) => h !in st.held && r !in st.heap && id in st.stored && st.stored[id] in st.heap
    case Write(h, s) => h in st.held && st.held[h] in st.heap && s.id == st.heap[st.held[h]].id
    case Update(h) => h in st.held && st.held[h] in st.heap
    case Delete(id) => true
    case Finish(h) => h in st.held
  }

  function Next(st: State, step: Step): State
    requires Enabled(st, step)
  {
    match step
    case Create(h, r, s) =>
      State(st.heap[r := s], if s.id in st.stored then st.stored else st.stored[s.id := r],
            st.held[h := r], st.usedIds + {s.id})
    case Get(h, id, r) =>
      st.(heap := st.heap[r := st.heap[st.stored[id]]], held := st.held[h := r])
    case Write(h, s) =>
      st.(heap := st.heap[st.held[h] := s])
    case Update(h) =>
      var id := st.heap[st.held[h]].id;
      st.(stored := if id in st.stored then st.stored[id := st.held[h]] else st.stored)
    case Delete(id) =>
      st.(stored := st.stored - {id})
    case Finish(h) =>
      st.(held := st.held - {h})
  }

  ghost predicate IsRun(st: State, run: seq<Step>)
    decreases |run|
  {
    run == [] || (Enabled(st, run[0]) && IsRun(Next(st, run[0]), run[1..]))
  }

  ghost function AfterRun(st: State, run: seq<Step>): State
    requires IsRun(st, run)
    decreases |run|
  {
    if run == [] then st else AfterRun(Next(st, run[0]), run[1..])
  }

  const EMPTY := State(map[], map[], map[], {})

  /** No object is held twice, and every stored object is filed under its own id. */
  ghost predicate Safe(st: State) {
    && (forall h | h in st.held :: st.held[h] in st.heap && st.heap[st.held[h]].id in st.usedIds)
    && (forall h, k | h in st.held && k in st.held && h != k :: st.held[h] != st.held[k])
    && (forall id | id in st.stored :: st.stored[id] in st.heap && st.heap[st.stored[id]].id == id && id in st.usedIds)
  }

  /** What readers see. */
  ghost function View(st: State): Sessions {
    map id | id in st.stored && st.stored[id] in st.heap :: st.heap[st.stored[id]]
  }

  lemma StepKeepsSafe(st: State, step: Step)
    requires Safe(st) && Enabled(st, step)
    ensures Safe(Next(st, step))
    ensures st.usedIds <= Next(st, step).usedIds
  {
  }

  /** The store behaves as a map of values, changed by exactly the operations of Model. */
  lemma StepRefinesValues(st: State, step: Step)
    requires Safe(st) && Enabled(st, step)
    ensures match step
      case Create(_, _, s) => View(Next(st, step)) == Inserted(View(st), s)
      case Get(h, id, _) => View(Next(st, step)) == View(st) && Next(st, step).heap[Next(st, step).held[h]] == View(st)[id]
      case Write(_, _) => true
      case Update(h) => View(Next(st, step)) == Updated(View(st), st.heap[st.held[h]])
      case Delete(id) => View(Next(st, step)) == Removed(View(st), id)
      case Finish(_) => View(Next(st, step)) == View(st)
  {
  }

  /**
    An unlocked write shows in the store exactly when the writer's object is the stored one, and
    then only under its own id; so at most one handler at a time can change an entry this way.
   */
  lemma UnlockedWrite(st: State, h: Handler, s: Session)
    requires Safe(st) && Enabled(st, Write(h, s))
    ensures var aliased := s.id in st.stored && st.stored[s.id] == st.held[h];
      View(Next(st, Write(h, s))) == if aliased then View(st)[s.id := s] else View(st)
    ensures forall k | k in st.held && k != h :: Next(st, Write(h, s)).heap[st.held[k]] == st.heap[st.held[k]]
  {
  }

  lemma {:induction false} RunKeepsSafe(st: State, run: seq<Step>)
    requires Safe(st) && IsRun(st, run)
    ensures Safe(AfterRun(st, run)) && st.usedIds <= AfterRun(st, run).usedIds
    decreases |run|
  {
    if run != [] {
      StepKeepsSafe(st, run[0]);
      RunKeepsSafe(Next(st, run[0]), run[1..]);
    }
  }

  /** In every run, two handlers never hold the same session object. */
  lemma HandlersNeverShare(run: seq<Step>, h: Handler, k: Handler)
    requires IsRun(EMPTY, run) && h != k
    requires h in AfterRun(EMPTY, run).held && k in AfterRun(EMPTY, run).held
    ensures AfterRun(EMPTY, run).held[h] != AfterRun(EMPTY, run).held[k]
  {
    RunKeepsSafe(EMPTY, run);
  }

  /** An id that has been used and is not stored never appears again, whatever stale copies are written back. */
  lemma {:induction false} GoneStaysGone(st: State, run: seq<Step>, id: string)
    requires Safe(st) && IsRun(st, run) && id in st.usedIds && id !in st.stored
    ensures id !in AfterRun(st, run).stored
    decreases |run|
  {
    if run != [] {
      StepKeepsSafe(st, run[0]);
      GoneStaysGone(Next(st, run[0]), run[1..], id);
    }
  }

  /** Deleting a session is final. */
  lemma DeleteIsFinal(before: seq<Step>, id: string, after: seq<Step>)
    requires IsRun(EMPTY, before) && id in AfterRun(EMPTY, before).stored
    requires IsRun(Next(AfterRun(EMPTY, before), Delete(id)), after)
    ensures id !in AfterRun(Next(AfterRun(EMPTY, before), Delete(id)), after).stored
  {
    RunKeepsSafe(EMPTY, before);
    var st := AfterRun(EMPTY, before);
    StepKeepsSafe(st, Delete(id));
    GoneStaysGone(Next(st, Delete(id)), after, id);
  }
}
