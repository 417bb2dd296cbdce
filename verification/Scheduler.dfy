/** The task scheduler: one thread that moves tasks from the pool into the slots of worker
    threads, and the worker threads, as steps that interleave freely. Counters and flags are
    read and written one at a time, as the code does. */

module Scheduler {
  import opened Wrappers
  import P = TaskPool

  type Task = P.Task

  const QUEUE_SIZE := 4
  const MAX_THREAD := 10

  datatype JobStatus = Done | Pending | Failed | Finished

  /** A call of the process behind a job, with the status returned or handed over. */
  datatype Call = Start(result: JobStatus) | End(status: JobStatus)

  datatype Job = Job(task: Task, status: JobStatus, log: seq<Call>)

  /** Where a worker thread stands, at the slot `head`. */
  datatype ThreadAt =
    | Looking        // before the slot's flag is read
    | SawBusy        // the flag said busy; the counter is read next
    | Running        // inside the job's loop, before its status is tested
    | Closing        // end_proc has returned
    | Decrementing   // the slot is free; the counter still has to go down

  /** `free[i]` is the code's `qSlotDone[i]`. */
  datatype Queue = Queue(free: seq<bool>, heads: seq<Option<Job>>, total: int, head: nat, at: ThreadAt)

  /** Where the scheduler stands. */
  datatype SchedulerAt =
    | Idle
    | Chosen(t: nat, i: nat)                // a free slot and a task were seen
    | Holding(t: nat, i: nat, task: Task)    // the task is popped
    | Placed(t: nat, i: nat, task: Task)     // the job is in the slot, still marked free
    | Counting(t: nat)                      // the slot is busy; the counter still has to go up

  datatype State = State(pool: seq<Task>, at: SchedulerAt, queues: seq<Queue>,
                         accepted: seq<Task>, finished: seq<Job>)

  function NewQueue(): Queue { Queue([true, true, true, true], [None, None, None, None], 0, 0, Looking) }

  function Initial(threads: nat): State {
    State([], Idle, seq(threads, i => NewQueue()), [], [])
  }

  // ---------------------------------------------------------------- steps

  datatype Event =
    | Arrive(task: Task)
    | Choose(t: nat, i: nat) | PopTask | Place | Publish | Increment
    | ReadFlag(t: nat) | ReadCounter(t: nat)
    | StartProc(t: nat, result: JobStatus) | EndProc(t: nat, result: JobStatus)
    | Release(t: nat) | Decrement(t: nat)

  predicate Settled(s: JobStatus) { s == Done || s == Failed }

  predicate Possible(s: State, e: Event) {
    match e
    case Arrive(task) => task !in s.accepted
    case Choose(t, i) => s.at.Idle? && s.pool != [] && t < |s.queues| && i < |s.queues[t].free| && s.queues[t].free[i]
    case PopTask => s.at.Chosen?
    case Place => s.at.Holding?
    case Publish => s.at.Placed?
    case Increment => s.at.Counting?
    case ReadFlag(t) => t < |s.queues| && s.queues[t].at.Looking?
    case ReadCounter(t) => t < |s.queues| && s.queues[t].at.SawBusy?
    case StartProc(t, _) => t < |s.queues| && s.queues[t].at.Running? && Current(s.queues[t]).Some?
      && !Settled(Current(s.queues[t]).value.status)
    case EndProc(t, _) => t < |s.queues| && s.queues[t].at.Running? && Current(s.queues[t]).Some?
      && Settled(Current(s.queues[t]).value.status)
    case Release(t) => t < |s.queues| && s.queues[t].at.Closing?
    case Decrement(t) => t < |s.queues| && s.queues[t].at.Decrementing?
  }

  /** The job in the slot a thread looks at. */
  function Current(q: Queue): Option<Job> {
    if q.head < |q.heads| then q.heads[q.head] else None
  }

  function NextHead(q: Queue): Queue {
    q.(head := (q.head + 1) % QUEUE_SIZE, at := Looking)
  }

  function WithJob(q: Queue, job: Job): Queue
    requires q.head < |q.heads|
  {
    q.(heads := q.heads[q.head := Some(job)])
  }

  /** `start_proc`, and the way out of the job's loop when it reports the end or a failure. */
  function Started(q: Queue, result: JobStatus): Queue
    requires Current(q).Some?
  {
    var job := Current(q).value;
    var r := WithJob(q, job.(status := result, log := job.log + [Start(result)]));
    if Settled(result) then NextHead(r) else r
  }

  function Ended(q: Queue, result: JobStatus): Queue
    requires Current(q).Some?
  {
    var job := Current(q).value;
    WithJob(q, job.(status := result, log := job.log + [End(job.status)])).(at := Closing)
  }

  function QueueStep(q: Queue, e: Event): Queue {
    match e
    case ReadFlag(_) => if q.head < |q.free| && !q.free[q.head] then q.(at := SawBusy) else NextHead(q)
    case ReadCounter(_) => if q.total != 0 then q.(at := Running) else NextHead(q)
    case StartProc(_, result) => if Current(q).Some? then Started(q, result) else q
    case EndProc(_, result) => if Current(q).Some? then Ended(q, result) else q
    case Release(_) => if q.head < |q.free| then q.(free := q.free[q.head := true], at := Decrementing) else q
    case Decrement(_) => NextHead(q.(total := q.total - 1))
    case _ => q
  }

  function WithQueue(s: State, t: nat, q: Queue): State
    requires t < |s.queues|
  {
    s.(queues := s.queues[t := q])
  }

  function Step(s: State, e: Event): State {
    match e
    case Arrive(task) => s.(pool := s.pool + [task], accepted := s.accepted + [task])
    case Choose(t, i) => s.(at := Chosen(t, i))
    case PopTask => if s.pool != [] && s.at.Chosen?
      then s.(pool := s.pool[1..], at := Holding(s.at.t, s.at.i, s.pool[0])) else s
    case Place =>
      if s.at.Holding? && s.at.t < |s.queues| && s.at.i < |s.queues[s.at.t].heads| then
        var q := s.queues[s.at.t];
        WithQueue(s, s.at.t, q.(heads := q.heads[s.at.i := Some(Job(s.at.task, Pending, []))])).(at :=
          Placed(s.at.t, s.at.i, s.at.task))
      else s
    case Publish =>
      if s.at.Placed? && s.at.t < |s.queues| && s.at.i < |s.queues[s.at.t].free| then
        var q := s.queues[s.at.t];
        WithQueue(s, s.at.t, q.(free := q.free[s.at.i := false])).(at := Counting(s.at.t))
      else s
    case Increment =>
      if s.at.Counting? && s.at.t < |s.queues| then
        var q := s.queues[s.at.t];
        WithQueue(s, s.at.t, q.(total := q.total + 1)).(at := Idle)
      else s
    case Release(t) =>
      if t < |s.queues| && Current(s.queues[t]).Some? then
        WithQueue(s, t, QueueStep(s.queues[t], e)).(finished := s.finished + [Current(s.queues[t]).value])
      else s
    case _ => if e.t < |s.queues| then WithQueue(s, e.t, QueueStep(s.queues[e.t], e)) else s
  }

  // ---------------------------------------------------------------- what every step keeps

  function Busy(free: seq<bool>): nat {
    if free == [] then 0 else (if free[0] then 0 else 1) + Busy(free[1..])
  }

  /** The scheduler still owes the counter of this queue an increment. */
  function Owed(at: SchedulerAt, t: nat): int { if at == Counting(t) then 1 else 0 }

  /** The counter is the number of busy slots, give or take the updates under way; a thread
      works on a busy slot whose counter is positive. */
  ghost predicate QueueOk(q: Queue, owed: int) {
    && |q.free| == |q.heads| == QUEUE_SIZE && q.head < QUEUE_SIZE
    && q.total == Busy(q.free) + (if q.at.Decrementing? then 1 else 0) - owed && q.total >= 0
    && (q.at.SawBusy? || q.at.Running? || q.at.Closing? ==> !q.free[q.head])
    && (q.at.Running? || q.at.Closing? || q.at.Decrementing? ==> q.total >= 1)
    && forall i | 0 <= i < QUEUE_SIZE :: SlotOk(q, i)
  }

  /** A busy slot holds a job that has been called as it should. */
  ghost predicate SlotOk(q: Queue, i: nat) {
    i < |q.free| == |q.heads| && !q.free[i] ==>
      q.heads[i].Some? && LogOk(q.heads[i].value, q.at.Closing? && i == q.head)
  }

  ghost predicate AllUnsettled(log: seq<Call>) {
    forall i | 0 <= i < |log| :: log[i].Start? && !Settled(log[i].result)
  }

  /** start_proc until it reports the end or a failure; after that end_proc, once, with that
      very status. */
  ghost predicate LogOk(job: Job, ended: bool) {
    if ended then Complete(job.log)
    else if Settled(job.status)
      then job.log != [] && AllUnsettled(job.log[..|job.log| - 1]) && job.log[|job.log| - 1] == Start(job.status)
    else AllUnsettled(job.log)
  }

  ghost predicate Complete(log: seq<Call>) {
    var n := |log| - 2;
    n >= 0 && AllUnsettled(log[..n]) && log[n].Start? && Settled(log[n].result) && log[n + 1] == End(log[n].result)
  }

  /** Tasks in the busy slots of one queue. */
  ghost function SlotTasks(free: seq<bool>, heads: seq<Option<Job>>): multiset<Task> {
    if free == [] || heads == [] then multiset{}
    else TaskAt(free[0], heads[0]) + SlotTasks(free[1..], heads[1..])
  }

  ghost function TaskAt(free: bool, head: Option<Job>): multiset<Task> {
    if !free && head.Some? then multiset{head.value.task} else multiset{}
  }

  ghost function AllSlotTasks(queues: seq<Queue>): multiset<Task> {
    if queues == [] then multiset{} else SlotTasks(queues[0].free, queues[0].heads) + AllSlotTasks(queues[1..])
  }

  ghost function InHand(at: SchedulerAt): multiset<Task> {
    match at
    case Holding(_, _, task) => multiset{task}
    case Placed(_, _, task) => multiset{task}
    case _ => multiset{}
  }

  function TasksOf(jobs: seq<Job>): seq<Task> {
    seq(|jobs|, i requires 0 <= i < |jobs| => jobs[i].task)
  }

  ghost predicate AtOk(s: State) {
    match s.at
    case Idle => true
    case Chosen(t, i) => s.pool != [] && FreeSlot(s, t, i)
    case Holding(t, i, _) => FreeSlot(s, t, i)
    case Placed(t, i, task) => FreeSlot(s, t, i) && s.queues[t].heads[i] == Some(Job(task, Pending, []))
    case Counting(t) => t < |s.queues|
  }

  ghost predicate FreeSlot(s: State, t: nat, i: nat) {
    t < |s.queues| && i < QUEUE_SIZE && |s.queues[t].free| == |s.queues[t].heads| == QUEUE_SIZE && s.queues[t].free[i]
  }

  ghost predicate Fine(s: State) {
    && AtOk(s)
    && (forall t {:trigger s.queues[t]} | 0 <= t < |s.queues| :: QueueOk(s.queues[t], Owed(s.at, t)))
    && (forall i | 0 <= i < |s.finished| :: Complete(s.finished[i].log))
    && Conserved(s)
  }

  /** Every accepted task is in the pool, in the scheduler's hand, in a busy slot or finished. */
  ghost predicate Conserved(s: State) {
    && NoRepeats(s.accepted)
    && multiset(s.accepted) == multiset(s.pool) + InHand(s.at) + AllSlotTasks(s.queues) + multiset(TasksOf(s.finished))
  }

  // ---------------------------------------------------------------- counting slots

  lemma {:induction false} BusyUpdate(free: seq<bool>, i: nat, b: bool)
    requires i < |free|
    ensures Busy(free[i := b]) == Busy(free) - (if free[i] then 0 else 1) + (if b then 0 else 1)
    ensures Busy(free) <= |free| && (!free[i] ==> Busy(free) >= 1)
  {
    BusyBound(free);
    if i == 0 {
      assert free[i := b][1..] == free[1..];
    } else {
      assert free[i := b][1..] == free[1..][i - 1 := b];
      BusyUpdate(free[1..], i - 1, b);
    }
  }

  lemma {:induction false} BusyBound(free: seq<bool>)
    ensures Busy(free) <= |free|
  {
    if free != [] { BusyBound(free[1..]); }
  }

  function Skip<T>(xs: seq<T>, i: nat): seq<T>
    requires i < |xs|
  {
    xs[..i] + xs[i + 1..]
  }

  lemma SkipTail<T>(xs: seq<T>, i: nat)
    requires 0 < i < |xs|
    ensures Skip(xs, i) != [] && Skip(xs, i)[0] == xs[0] && Skip(xs, i)[1..] == Skip(xs[1..], i - 1)
  {
  }

  /** All slots but one, and that one. */
  lemma {:induction false} SlotSplit(free: seq<bool>, heads: seq<Option<Job>>, i: nat)
    requires i < |free| == |heads|
    ensures SlotTasks(free, heads) == SlotTasks(Skip(free, i), Skip(heads, i)) + TaskAt(free[i], heads[i])
  {
    if i > 0 {
      SlotSplit(free[1..], heads[1..], i - 1);
      SkipTail(free, i);
      SkipTail(heads, i);
    } else {
      assert Skip(free, 0) == free[1..] && Skip(heads, 0) == heads[1..];
    }
  }

  /** All queues but one, and that one. */
  lemma {:induction false} QueueSplit(queues: seq<Queue>, t: nat)
    requires t < |queues|
    ensures AllSlotTasks(queues) == AllSlotTasks(Skip(queues, t)) + SlotTasks(queues[t].free, queues[t].heads)
  {
    if t > 0 {
      QueueSplit(queues[1..], t - 1);
      SkipTail(queues, t);
    } else {
      assert Skip(queues, 0) == queues[1..];
    }
  }

  /** One slot of one queue changes. */
  lemma {:induction false} SlotChange(queues: seq<Queue>, t: nat, i: nat, b: bool, h: Option<Job>, q: Queue)
    requires t < |queues| && i < |queues[t].free| == |queues[t].heads|
    requires q.free == queues[t].free[i := b] && q.heads == queues[t].heads[i := h]
    ensures AllSlotTasks(queues[t := q]) + TaskAt(queues[t].free[i], queues[t].heads[i]) ==
      AllSlotTasks(queues) + TaskAt(b, h)
  {
    QueueSplit(queues, t);
    QueueSplit(queues[t := q], t);
    SlotSplit(queues[t].free, queues[t].heads, i);
    SlotSplit(q.free, q.heads, i);
    assert Skip(queues[t := q], t) == Skip(queues, t);
    assert Skip(q.free, i) == Skip(queues[t].free, i) && Skip(q.heads, i) == Skip(queues[t].heads, i);
  }

  lemma Cancel(a: multiset<Task>, b: multiset<Task>, x: multiset<Task>)
    requires a + x == b + x
    ensures a == b
  {
    forall k ensures a[k] == b[k] { assert (a + x)[k] == (b + x)[k]; }
  }

  /** A slot that stays free, or keeps its task, changes nothing. */
  lemma {:induction false} SlotSame(queues: seq<Queue>, t: nat, i: nat, b: bool, h: Option<Job>, q: Queue)
    requires t < |queues| && i < |queues[t].free| == |queues[t].heads|
    requires q.free == queues[t].free[i := b] && q.heads == queues[t].heads[i := h]
    requires TaskAt(queues[t].free[i], queues[t].heads[i]) == TaskAt(b, h)
    ensures AllSlotTasks(queues[t := q]) == AllSlotTasks(queues)
  {
    SlotChange(queues, t, i, b, h, q);
    Cancel(AllSlotTasks(queues[t := q]), AllSlotTasks(queues), TaskAt(b, h));
  }

  lemma CounterOnly(queues: seq<Queue>, t: nat, q: Queue)
    requires t < |queues| && q.free == queues[t].free && q.heads == queues[t].heads
    ensures AllSlotTasks(queues[t := q]) == AllSlotTasks(queues)
  {
    QueueSplit(queues, t);
    QueueSplit(queues[t := q], t);
    assert Skip(queues[t := q], t) == Skip(queues, t);
  }

  /** A free slot becomes busy. */
  lemma {:induction false} SlotTaken(queues: seq<Queue>, t: nat, i: nat, q: Queue, task: Task)
    requires t < |queues| && i < |queues[t].free| == |queues[t].heads| && queues[t].free[i]
    requires queues[t].heads[i].Some? && queues[t].heads[i].value.task == task
    requires q.free == queues[t].free[i := false] && q.heads == queues[t].heads
    ensures AllSlotTasks(queues[t := q]) == AllSlotTasks(queues) + multiset{task}
  {
    var h := queues[t].heads[i];
    assert q.heads == queues[t].heads[i := h];
    SlotChange(queues, t, i, false, h, q);
    assert TaskAt(true, h) == multiset{} && TaskAt(false, h) == multiset{task};
    assert AllSlotTasks(queues[t := q]) + multiset{} == AllSlotTasks(queues[t := q]);
  }

  // ---------------------------------------------------------------- steps of a worker thread

  ghost predicate ThreadEvent(e: Event) {
    e.ReadFlag? || e.ReadCounter? || e.StartProc? || e.EndProc? || e.Release? || e.Decrement?
  }

  /** The queue keeps its invariant whatever its thread does. */
  lemma ThreadKeepsQueue(s: State, e: Event, owed: int)
    requires ThreadEvent(e) && Possible(s, e) && QueueOk(s.queues[e.t], owed) && 0 <= owed <= 1
    ensures QueueOk(QueueStep(s.queues[e.t], e), owed)
  {
    var q := s.queues[e.t];
    match e
    case StartProc(_, result) => StartedOk(q, result, owed);
    case EndProc(_, result) => EndedOk(q, result, owed);
    case Release(_) => ReleasedOk(q, e, owed);
    case ReadFlag(_) => ReadOk(q, e, owed);
    case ReadCounter(_) => ReadOk(q, e, owed);
    case Decrement(_) => ReadOk(q, e, owed);
  }

  lemma ReadOk(q: Queue, e: Event, owed: int)
    requires QueueOk(q, owed) && 0 <= owed <= 1
    requires (e.ReadFlag? && q.at.Looking?) || (e.ReadCounter? && q.at.SawBusy?) || (e.Decrement? && q.at.Decrementing?)
    ensures QueueOk(QueueStep(q, e), owed)
  {
    var r := QueueStep(q, e);
    BusyUpdate(q.free, q.head, q.free[q.head]);
    forall i | 0 <= i < QUEUE_SIZE ensures SlotOk(r, i) { assert SlotOk(q, i); }
  }

  lemma ReleasedOk(q: Queue, e: Event, owed: int)
    requires QueueOk(q, owed) && q.at.Closing? && e.Release?
    ensures QueueOk(QueueStep(q, e), owed)
  {
    var r := QueueStep(q, e);
    BusyUpdate(q.free, q.head, true);
    forall i | 0 <= i < QUEUE_SIZE ensures SlotOk(r, i) { assert SlotOk(q, i); }
  }

  lemma StartedOk(q: Queue, result: JobStatus, owed: int)
    requires QueueOk(q, owed) && q.at.Running? && Current(q).Some? && !Settled(Current(q).value.status)
    ensures QueueOk(Started(q, result), owed)
  {
    var job, r := Current(q).value, Started(q, result);
    assert SlotOk(q, q.head);
    StartedLog(job, result);
    forall i | 0 <= i < QUEUE_SIZE ensures SlotOk(r, i) { assert SlotOk(q, i); }
  }

  lemma StartedLog(job: Job, result: JobStatus)
    requires LogOk(job, false) && !Settled(job.status)
    ensures LogOk(job.(status := result, log := job.log + [Start(result)]), false)
  {
    var log := job.log + [Start(result)];
    assert log[..|log| - 1] == job.log;
  }

  lemma EndedOk(q: Queue, result: JobStatus, owed: int)
    requires QueueOk(q, owed) && q.at.Running? && Current(q).Some? && Settled(Current(q).value.status)
    ensures QueueOk(Ended(q, result), owed)
  {
    var job, r := Current(q).value, Ended(q, result);
    assert SlotOk(q, q.head);
    EndedLog(job, result);
    forall i | 0 <= i < QUEUE_SIZE ensures SlotOk(r, i) { assert SlotOk(q, i); }
  }

  lemma EndedLog(job: Job, result: JobStatus)
    requires LogOk(job, false) && Settled(job.status)
    ensures LogOk(job.(status := result, log := job.log + [End(job.status)]), true)
  {
    var log := job.log + [End(job.status)];
    assert log[..|log| - 2] == job.log[..|job.log| - 1];
  }

  /** The tasks in its slots change only when a slot is released. */
  lemma ThreadTasks(s: State, e: Event, owed: int)
    requires ThreadEvent(e) && Possible(s, e) && QueueOk(s.queues[e.t], owed)
    ensures var q, q' := s.queues[e.t], QueueStep(s.queues[e.t], e);
      if e.Release? then Current(q).Some?
        && AllSlotTasks(s.queues[e.t := q']) + multiset{Current(q).value.task} == AllSlotTasks(s.queues)
      else AllSlotTasks(s.queues[e.t := q']) == AllSlotTasks(s.queues)
  {
    var q, q', h := s.queues[e.t], QueueStep(s.queues[e.t], e), s.queues[e.t].head;
    ThreadSlot(q, e, owed);
    if e.Release? {
      SlotChange(s.queues, e.t, h, q'.free[h], q'.heads[h], q');
      assert TaskAt(q'.free[h], q'.heads[h]) == multiset{};
      assert AllSlotTasks(s.queues) + multiset{} == AllSlotTasks(s.queues);
    } else {
      SlotSame(s.queues, e.t, h, q'.free[h], q'.heads[h], q');
    }
  }

  /** A thread changes the slot it looks at and no other. */
  lemma ThreadSlot(q: Queue, e: Event, owed: int)
    requires QueueOk(q, owed) && (e.StartProc? || e.EndProc? ==> q.at.Running?) && (e.Release? ==> q.at.Closing?)
    ensures var q', h := QueueStep(q, e), q.head;
      && |q'.free| == |q'.heads| == QUEUE_SIZE
      && q'.free == q.free[h := q'.free[h]] && q'.heads == q.heads[h := q'.heads[h]]
      && if e.Release? then
           Current(q).Some? && TaskAt(q.free[h], q.heads[h]) == multiset{Current(q).value.task} && q'.free[h]
         else TaskAt(q'.free[h], q'.heads[h]) == TaskAt(q.free[h], q.heads[h])
  {
    assert SlotOk(q, q.head);
    assert q.free[q.head := q.free[q.head]] == q.free && q.heads[q.head := q.heads[q.head]] == q.heads;
  }

  lemma ThreadKeepsSlots(q: Queue, e: Event, i: nat)
    requires |q.free| == |q.heads| == QUEUE_SIZE && q.head < QUEUE_SIZE && i < QUEUE_SIZE && q.free[i]
    requires q.at.Running? ==> !q.free[q.head]
    requires e.StartProc? || e.EndProc? ==> q.at.Running?
    ensures QueueStep(q, e).free[i] && QueueStep(q, e).heads[i] == q.heads[i]
    ensures |QueueStep(q, e).free| == |QueueStep(q, e).heads| == QUEUE_SIZE
  {
  }

  ghost predicate QueuesOk(s: State) {
    forall t {:trigger s.queues[t]} | 0 <= t < |s.queues| :: QueueOk(s.queues[t], Owed(s.at, t))
  }

  lemma OthersStill(s: State, r: State, t: nat)
    requires QueuesOk(s) && t < |s.queues| == |r.queues| && r.queues == s.queues[t := r.queues[t]]
    requires QueueOk(r.queues[t], Owed(r.at, t))
    requires forall u | u != t :: Owed(r.at, u) == Owed(s.at, u)
    ensures QueuesOk(r)
  {
    forall u | 0 <= u < |r.queues| ensures QueueOk(r.queues[u], Owed(r.at, u)) {
      if u != t { assert r.queues[u] == s.queues[u] && Owed(r.at, u) == Owed(s.at, u); }
    }
  }

  lemma ThreadKeepsAt(s: State, e: Event)
    requires Fine(s) && ThreadEvent(e) && Possible(s, e)
    ensures AtOk(Step(s, e))
  {
    var q := s.queues[e.t];
    assert QueueOk(q, Owed(s.at, e.t));
    if s.at.Chosen? || s.at.Holding? || s.at.Placed? {
      if s.at.t == e.t { ThreadKeepsSlots(q, e, s.at.i); }
    }
  }

  lemma ReleaseKeepsTasks(s: State, e: Event)
    requires Fine(s) && e.Release? && Possible(s, e)
    ensures Conserved(Step(s, e))
    ensures forall i | 0 <= i < |Step(s, e).finished| :: Complete(Step(s, e).finished[i].log)
  {
    var q, r := s.queues[e.t], Step(s, e);
    assert QueueOk(q, Owed(s.at, e.t)) && SlotOk(q, q.head);
    ThreadTasks(s, e, Owed(s.at, e.t));
    ThreadChanges(s, e);
    var job := Current(q).value;
    assert LogOk(job, true);
    assert r.finished == s.finished + [job];
    assert TasksOf(r.finished) == TasksOf(s.finished) + [job.task];
    Moved(multiset(s.accepted), multiset(s.pool) + InHand(s.at), AllSlotTasks(s.queues), AllSlotTasks(r.queues),
          multiset(TasksOf(s.finished)), multiset(TasksOf(r.finished)), job.task);
  }

  lemma ThreadKeepsTasks(s: State, e: Event)
    requires Fine(s) && ThreadEvent(e) && Possible(s, e)
    ensures Conserved(Step(s, e))
    ensures forall i | 0 <= i < |Step(s, e).finished| :: Complete(Step(s, e).finished[i].log)
  {
    if e.Release? {
      ReleaseKeepsTasks(s, e);
    } else {
      assert QueueOk(s.queues[e.t], Owed(s.at, e.t));
      ThreadTasks(s, e, Owed(s.at, e.t));
      ThreadChanges(s, e);
      SameTasks(s, Step(s, e));
    }
  }

  lemma Moved(all: multiset<Task>, rest: multiset<Task>, a: multiset<Task>, a': multiset<Task>, b: multiset<Task>,
        b': multiset<Task>, task: Task)
    requires all == rest + a + b && a' + multiset{task} == a && b' == b + multiset{task}
    ensures all == rest + a' + b'
  {
  }

  lemma SameTasks(s: State, r: State)
    requires Conserved(s) && r.accepted == s.accepted && r.pool == s.pool && r.finished == s.finished
    requires InHand(r.at) + AllSlotTasks(r.queues) == InHand(s.at) + AllSlotTasks(s.queues)
    ensures Conserved(r)
  {
    var rest := multiset(s.pool) + multiset(TasksOf(s.finished));
    assert multiset(s.accepted) == rest + (InHand(s.at) + AllSlotTasks(s.queues));
    assert multiset(r.accepted) == rest + (InHand(r.at) + AllSlotTasks(r.queues));
  }

  lemma ThreadKeeps(s: State, e: Event)
    requires Fine(s) && ThreadEvent(e) && Possible(s, e)
    ensures Fine(Step(s, e))
  {
    ThreadKeepsAt(s, e);
    ThreadKeepsTasks(s, e);
    assert QueueOk(s.queues[e.t], Owed(s.at, e.t));
    ThreadKeepsQueue(s, e, Owed(s.at, e.t));
    ThreadChanges(s, e);
    OthersStill(s, Step(s, e), e.t);
  }

  lemma ThreadChanges(s: State, e: Event)
    requires Fine(s) && ThreadEvent(e) && Possible(s, e)
    ensures Step(s, e).queues == s.queues[e.t := QueueStep(s.queues[e.t], e)] && Step(s, e).at == s.at
  {
    var q := s.queues[e.t];
    assert QueueOk(q, Owed(s.at, e.t)) && SlotOk(q, q.head);
  }

  // ---------------------------------------------------------------- steps of the scheduler

  lemma PlaceKeeps(s: State)
    requires Fine(s) && s.at.Holding?
    ensures Fine(Step(s, Place))
  {
    var t, i, q, r := s.at.t, s.at.i, s.queues[s.at.t], Step(s, Place);
    var job := Some(Job(s.at.task, Pending, []));
    assert QueueOk(q, Owed(s.at, t));
    PlacedOk(q, i, job, Owed(s.at, t));
    assert q.free[i := true] == q.free;
    var q' := q.(heads := q.heads[i := job]);
    assert r.queues == s.queues[t := q'] && r.queues[t] == q';
    SlotSame(s.queues, t, i, true, job, q');
    SameTasks(s, r);
    OthersStill(s, r, t);
  }

  lemma PlacedOk(q: Queue, i: nat, job: Option<Job>, owed: int)
    requires QueueOk(q, owed) && i < QUEUE_SIZE && q.free[i]
    ensures QueueOk(q.(heads := q.heads[i := job]), owed)
  {
    var r := q.(heads := q.heads[i := job]);
    forall h | 0 <= h < QUEUE_SIZE ensures SlotOk(r, h) { assert SlotOk(q, h); }
  }

  lemma PublishKeeps(s: State)
    requires Fine(s) && s.at.Placed?
    ensures Fine(Step(s, Publish))
  {
    var t, i, q, r := s.at.t, s.at.i, s.queues[s.at.t], Step(s, Publish);
    assert QueueOk(q, Owed(s.at, t));
    PublishedOk(q, i, s.at.task);
    var q' := q.(free := q.free[i := false]);
    assert r.queues == s.queues[t := q'] && r.queues[t] == q';
    SlotTaken(s.queues, t, i, q', s.at.task);
    SameTasks(s, r);
    OthersStill(s, r, t);
  }

  lemma PublishedOk(q: Queue, i: nat, task: Task)
    requires QueueOk(q, 0) && i < QUEUE_SIZE && q.free[i] && q.heads[i] == Some(Job(task, Pending, []))
    ensures QueueOk(q.(free := q.free[i := false]), 1)
  {
    var r := q.(free := q.free[i := false]);
    BusyUpdate(q.free, i, false);
    forall h | 0 <= h < QUEUE_SIZE ensures SlotOk(r, h) { assert SlotOk(q, h); }
  }

  lemma IncrementKeeps(s: State)
    requires Fine(s) && s.at.Counting?
    ensures Fine(Step(s, Increment))
  {
    var t, q, r := s.at.t, s.queues[s.at.t], Step(s, Increment);
    assert QueueOk(q, Owed(s.at, t));
    CountedOk(q);
    var q' := q.(total := q.total + 1);
    assert r.queues == s.queues[t := q'] && r.queues[t] == q';
    CounterOnly(s.queues, t, q');
    SameTasks(s, r);
    OthersStill(s, r, t);
  }

  lemma CountedOk(q: Queue)
    requires QueueOk(q, 1)
    ensures QueueOk(q.(total := q.total + 1), 0)
  {
    var r := q.(total := q.total + 1);
    forall h | 0 <= h < QUEUE_SIZE ensures SlotOk(r, h) { assert SlotOk(q, h); }
  }

  lemma ArriveKeeps(s: State, task: Task)
    requires Fine(s) && task !in s.accepted
    ensures Fine(Step(s, Arrive(task)))
  {
    var r := Step(s, Arrive(task));
    assert QueuesOk(s) && r.queues == s.queues && r.at == s.at;
    forall i, j | 0 <= i < j < |r.accepted| ensures r.accepted[i] != r.accepted[j] {
      assert r.accepted[i] == s.accepted[i];
    }
    Grown(multiset(s.accepted), multiset(s.pool), InHand(s.at) + AllSlotTasks(s.queues) + multiset(TasksOf(s.finished)),
      task);
    assert multiset(r.accepted) == multiset(s.accepted) + multiset{task};
    assert multiset(r.pool) == multiset(s.pool) + multiset{task};
  }

  lemma Grown(all: multiset<Task>, a: multiset<Task>, rest: multiset<Task>, task: Task)
    requires all == a + rest
    ensures all + multiset{task} == (a + multiset{task}) + rest
  {
  }

  lemma ChooseKeeps(s: State, e: Event)
    requires Fine(s) && e.Choose? && Possible(s, e)
    ensures Fine(Step(s, e))
  {
    var r := Step(s, e);
    forall t | 0 <= t < |r.queues| ensures QueueOk(r.queues[t], Owed(r.at, t)) {
      assert QueueOk(s.queues[t], Owed(s.at, t));
    }
    assert QueueOk(s.queues[e.t], Owed(s.at, e.t));
    SameTasks(s, r);
  }

  lemma PopKeeps(s: State)
    requires Fine(s) && s.at.Chosen?
    ensures Fine(Step(s, PopTask))
  {
    var r := Step(s, PopTask);
    forall t | 0 <= t < |r.queues| ensures QueueOk(r.queues[t], Owed(r.at, t)) {
      assert QueueOk(s.queues[t], Owed(s.at, t));
    }
    assert s.pool == [s.pool[0]] + s.pool[1..];
    assert multiset(s.pool) + InHand(s.at) == multiset(r.pool) + InHand(r.at);
  }

  /** Every step, of any thread, keeps all of it. */
  lemma StepKeeps(s: State, e: Event)
    requires Fine(s) && Possible(s, e)
    ensures Fine(Step(s, e))
  {
    match e
    case Place => PlaceKeeps(s);
    case Publish => PublishKeeps(s);
    case Increment => IncrementKeeps(s);
    case Arrive(task) => ArriveKeeps(s, task);
    case Choose(_, _) => ChooseKeeps(s, e);
    case PopTask => PopKeeps(s);
    case _ => ThreadKeeps(s, e);
  }

  // ---------------------------------------------------------------- whole runs

  predicate PossibleRun(s: State, es: seq<Event>)
    decreases |es|
  {
    es == [] || (Possible(s, es[0]) && PossibleRun(Step(s, es[0]), es[1..]))
  }

  function Run(s: State, es: seq<Event>): State
    decreases |es|
  {
    if es == [] then s else Run(Step(s, es[0]), es[1..])
  }

  lemma {:induction false} RunKeeps(s: State, es: seq<Event>)
    requires Fine(s) && PossibleRun(s, es)
    ensures Fine(Run(s, es))
    decreases |es|
  {
    if es != [] {
      StepKeeps(s, es[0]);
      RunKeeps(Step(s, es[0]), es[1..]);
    }
  }

  lemma {:induction false} NothingInSlots(queues: seq<Queue>)
    requires forall t | 0 <= t < |queues| :: queues[t] == NewQueue()
    ensures AllSlotTasks(queues) == multiset{}
  {
    if queues != [] {
      NothingInSlots(queues[1..]);
      var q := NewQueue();
      assert q.free[1..] == [true, true, true] && q.heads[1..] == [None, None, None];
      assert q.free[1..][1..] == [true, true] && q.heads[1..][1..] == [None, None];
      assert q.free[1..][1..][1..] == [true] && q.heads[1..][1..][1..] == [None];
      assert SlotTasks(q.free, q.heads) == multiset{};
    }
  }

  lemma InitiallyFine(threads: nat)
    ensures Fine(Initial(threads))
  {
    var s := Initial(threads);
    NothingInSlots(s.queues);
    NewQueueOk();
  }

  lemma NewQueueOk()
    ensures QueueOk(NewQueue(), 0)
  {
    var f := NewQueue().free;
    assert f[1..] == [true, true, true] && f[1..][1..] == [true, true] && f[1..][1..][1..] == [true];
    assert Busy(f) == 0;
  }

  // ---------------------------------------------------------------- what runs guarantee

  /** end_proc at most once, and start_proc never once a call has reported the end, a failure,
      or come from end_proc. */
  ghost predicate CallsOk(log: seq<Call>) {
    forall i, j | 0 <= i < j < |log| ::
      (log[i].End? || Settled(log[i].result)) ==> log[j].End? && log[i].Start?
  }

  lemma LogCalls(job: Job, ended: bool)
    requires LogOk(job, ended)
    ensures CallsOk(job.log)
  {
    var log := job.log;
    if ended {
      var n := |log| - 2;
      forall i | 0 <= i < n ensures log[i].Start? && !Settled(log[i].result) { assert log[i] == log[..n][i]; }
    } else if Settled(job.status) {
      forall i | 0 <= i < |log| - 1 ensures log[i].Start? && !Settled(log[i].result) {
        assert log[i] == log[..|log| - 1][i];
      }
    }
  }

  ghost function Places(s: State): multiset<Task> {
    multiset(s.pool) + InHand(s.at) + AllSlotTasks(s.queues) + multiset(TasksOf(s.finished))
  }

  /** For every interleaving of the scheduler with any number of threads: a pop finds a task;
      no counter underflows or exceeds QUEUE_SIZE + 1; every accepted task is in exactly one
      place, and nothing else is anywhere; jobs are called as they should, and finished ones
      have been ended. */
  lemma {:induction false} RunSafety(threads: nat, es: seq<Event>)
    requires PossibleRun(Initial(threads), es)
    ensures var s := Run(Initial(threads), es);
      && (s.at.Chosen? ==> s.pool != [])
      && (forall t | 0 <= t < |s.queues| :: CounterOk(s.queues[t]))
      && (forall task :: Places(s)[task] == if task in s.accepted then 1 else 0)
      && (forall t, i | 0 <= t < |s.queues| && 0 <= i < QUEUE_SIZE :: SlotCallsOk(s.queues[t], i))
      && (forall i | 0 <= i < |s.finished| :: Complete(s.finished[i].log))
  {
    InitiallyFine(threads);
    RunKeeps(Initial(threads), es);
    var s := Run(Initial(threads), es);
    forall t | 0 <= t < |s.queues| ensures CounterOk(s.queues[t]) {
      assert QueueOk(s.queues[t], Owed(s.at, t));
      BusyBound(s.queues[t].free);
    }
    forall task ensures Places(s)[task] == if task in s.accepted then 1 else 0 {
      CountedOnce(s.accepted, task);
    }
    forall t, i | 0 <= t < |s.queues| && 0 <= i < QUEUE_SIZE ensures SlotCallsOk(s.queues[t], i) {
      var q := s.queues[t];
      assert QueueOk(q, Owed(s.at, t)) && SlotOk(q, i);
      if !q.free[i] { LogCalls(q.heads[i].value, q.at.Closing? && i == q.head); }
    }
  }

  ghost predicate CounterOk(q: Queue) {
    0 <= q.total <= 5 && (q.at.Decrementing? ==> q.total >= 1)
  }

  ghost predicate SlotCallsOk(q: Queue, i: nat) {
    i < |q.free| == |q.heads| && (!q.free[i] ==> q.heads[i].Some? && CallsOk(q.heads[i].value.log))
  }

  // ---------------------------------------------------------------- the scheduler's own code

  const INT_MAX := 0x7fff_ffff
  const NANOSECS := 1_000_000

  function CpuSlice(p: P.Priority): nat {
    match p
    case NonPreemptable => 0
    case High => 6 * NANOSECS
    case Medium => 4 * NANOSECS
    case Low => 2 * NANOSECS
  }

  /** Free slots of all queues. */
  function EmptySlots(queues: seq<Queue>): nat {
    if queues == [] then 0
    else
      BusyBound(queues[0].free);
      |queues[0].free| - Busy(queues[0].free) + EmptySlots(queues[1..])
  }

  /** What slot i of a queue adds to its waiting time. */
  function OneWait(q: Queue, i: nat): nat {
    if i < |q.free| == |q.heads| && !q.free[i] && q.heads[i].Some? then
      var slice := CpuSlice(q.heads[i].value.task.priority);
      if slice != 0 then slice else 999
    else 0
  }

  /** The waiting time of a queue: its slot with the thread's own number, once for every thread. */
  function WaitTime(queues: seq<Queue>, i: nat): nat
    requires i < |queues|
  {
    |queues| * OneWait(queues[i], i)
  }

  /** In words: a busy slot takes 6, 4 or 2 milliseconds by its task's priority, and a little for a
      task that is not preempted. */
  lemma WaitExactly(queues: seq<Queue>, i: nat)
    requires i < |queues| && i < |queues[i].free| == |queues[i].heads| && queues[i].heads[i].Some?
    ensures WaitTime(queues, i) == |queues| *
      if queues[i].free[i] then 0
      else match queues[i].heads[i].value.task.priority
        case High => 6_000_000
        case Medium => 4_000_000
        case Low => 2_000_000
        case NonPreemptable => 999
  {
  }

  predicate HasRoom(q: Queue) { q.total < QUEUE_SIZE }

  class ThreadQueue {
    var qSlotDone: array<bool>
    var queueHead: array<Option<Job>>
    var totalJobsInQueue: int
    ghost var head: nat
    ghost var at: ThreadAt

    ghost predicate Valid()
      reads this, qSlotDone, queueHead
    {
      && qSlotDone.Length == queueHead.Length == QUEUE_SIZE
      && forall i | 0 <= i < QUEUE_SIZE :: !qSlotDone[i] ==> queueHead[i].Some?
    }

    ghost function View(): Queue
      reads this, qSlotDone, queueHead
    {
      Queue(qSlotDone[..], queueHead[..], totalJobsInQueue, head, at)
    }

    constructor ()
      ensures Valid() && View() == NewQueue() && fresh(qSlotDone) && fresh(queueHead)
    {
      qSlotDone := new bool[QUEUE_SIZE](_ => true);
      queueHead := new Option<Job>[QUEUE_SIZE](_ => None);
      totalJobsInQueue, head, at := 0, 0, Looking;
      new;
      assert qSlotDone[..] == NewQueue().free && queueHead[..] == NewQueue().heads;
    }

    /** The inner loop of `sched_task`: the oldest task goes into the first free slot. */
    method InsertFrom(pool: P.TaskPool, ghost t: nat) returns (slot: Option<nat>)
      requires Valid() && pool.Valid() && pool.Contents() != []
      modifies this, qSlotDone, queueHead, pool
      ensures Valid() && pool.Valid() && qSlotDone == old(qSlotDone) && queueHead == old(queueHead)
      ensures slot.None? ==> View() == old(View()) && pool.Contents() == old(pool.Contents()) && true !in View().free
      ensures slot.Some? ==>
        && slot.value < QUEUE_SIZE && old(View().free)[slot.value] && true !in old(View().free)[..slot.value]
        && View() == Inserted(old(View()), slot.value, old(pool.Contents())[0])
        && pool.Contents() == old(pool.Contents())[1..]
    {
      for i := 0 to QUEUE_SIZE
        invariant Valid() && pool.Valid() && View() == old(View()) && pool.Contents() == old(pool.Contents())
        invariant true !in qSlotDone[..i] && qSlotDone == old(qSlotDone) && queueHead == old(queueHead)
      {
        if qSlotDone[i] {
          var task := pool.PopTask();
          var job := Job(task.value, Pending, []);
          queueHead[i] := Some(job);
          qSlotDone[i] := false;
          totalJobsInQueue := totalJobsInQueue + 1;
          return Some(i);
        }
      }
      return None;
    }
  }

  function Inserted(q: Queue, i: nat, task: Task): Queue
    requires i < |q.free| == |q.heads|
  {
    q.(free := q.free[i := false], heads := q.heads[i := Some(Job(task, Pending, []))], total := q.total + 1)
  }

  /** That loop is five steps of the scheduler in a row. */
  lemma {:induction false} InsertedBySteps(s: State, t: nat, i: nat)
    requires s.at.Idle? && s.pool != [] && FreeSlot(s, t, i)
    ensures var es := [Choose(t, i), PopTask, Place, Publish, Increment];
      && PossibleRun(s, es)
      && Run(s, es) == WithQueue(s, t, Inserted(s.queues[t], i, s.pool[0])).(pool := s.pool[1..])
  {
    var s1 := Step(s, Choose(t, i));
    var s2 := Step(s1, PopTask);
    var s3 := Step(s2, Place);
    var s4 := Step(s3, Publish);
    var s5 := Step(s4, Increment);
    assert s5.queues == s.queues[t := Inserted(s.queues[t], i, s.pool[0])];
    FiveSteps(s, Choose(t, i), PopTask, Place, Publish, Increment);
  }

  lemma {:induction false} RunCons(s: State, e: Event, es: seq<Event>)
    ensures Run(s, [e] + es) == Run(Step(s, e), es)
    ensures PossibleRun(s, [e] + es) <==> Possible(s, e) && PossibleRun(Step(s, e), es)
  {
    assert ([e] + es)[1..] == es;
  }

  lemma {:induction false} FiveSteps(s: State, a: Event, b: Event, c: Event, d: Event, e: Event)
    ensures var s1 := Step(s, a); var s2 := Step(s1, b); var s3 := Step(s2, c); var s4 := Step(s3, d);
      && Run(s, [a, b, c, d, e]) == Step(s4, e)
      && (PossibleRun(s, [a, b, c, d, e]) <==>
        Possible(s, a) && Possible(s1, b) && Possible(s2, c) && Possible(s3, d) && Possible(s4, e))
  {
    var s1 := Step(s, a);
    var s2 := Step(s1, b);
    var s3 := Step(s2, c);
    var s4 := Step(s3, d);
    RunCons(s, a, [b, c, d, e]);
    RunCons(s1, b, [c, d, e]);
    RunCons(s2, c, [d, e]);
    RunCons(s3, d, [e]);
    RunCons(s4, e, []);
    assert [a] + [b, c, d, e] == [a, b, c, d, e] && [b] + [c, d, e] == [b, c, d, e] && [c] + [d, e] == [c, d, e];
    assert [d] + [e] == [d, e] && [e] + [] == [e];
  }

  /** `get_total_empty_slots` */
  method GetTotalEmptySlots(list: seq<Queue>) returns (totalSlots: nat)
    requires forall i | 0 <= i < |list| :: |list[i].free| == QUEUE_SIZE
    ensures totalSlots == EmptySlots(list)
  {
    totalSlots := 0;
    for i := 0 to |list|
      invariant totalSlots == EmptySlots(list[..i])
    {
      var queue, before := list[i], totalSlots;
      for j := 0 to QUEUE_SIZE
        invariant totalSlots == before + j - Busy(queue.free[..j])
      {
        BusySnoc(queue.free[..j], queue.free[j]);
        assert queue.free[..j + 1] == queue.free[..j] + [queue.free[j]];
        if queue.free[j] {
          totalSlots := totalSlots + 1;
        }
      }
      assert queue.free[..QUEUE_SIZE] == queue.free;
      EmptySnoc(list[..i], queue);
      assert list[..i + 1] == list[..i] + [queue];
    }
    assert list[..|list|] == list;
  }

  /** A queue with room whose number is no slot number: the slot read for it lies out of bounds. */
  predicate PastSlots(list: seq<Queue>, i: nat) {
    QUEUE_SIZE <= i < |list| && HasRoom(list[i])
  }

  /** `get_quickest_queue`: the first queue with room whose waiting time is least; queue 0 when
      none has room. The slot looked at is the one with the queue's own number, so with more
      threads than slots a queue with room can make it read out of bounds (`None`). */
  method GetQuickestQueue(list: seq<Queue>) returns (threadID: Option<nat>)
    requires 0 < |list| <= MAX_THREAD
    requires forall i | 0 <= i < |list| :: |list[i].free| == |list[i].heads| == QUEUE_SIZE
    requires forall i, h | 0 <= i < |list| && 0 <= h < QUEUE_SIZE && !list[i].free[h] :: list[i].heads[h].Some?
    ensures threadID.None? <==> exists i :: 0 <= i < |list| && PastSlots(list, i)
    ensures threadID.Some? ==> threadID.value < |list|
    ensures threadID.Some? && (forall i | 0 <= i < |list| :: !HasRoom(list[i])) ==> threadID == Some(0)
    ensures threadID.Some? ==> forall i | 0 <= i < |list| && HasRoom(list[i]) ::
      && HasRoom(list[threadID.value])
      && WaitTime(list, threadID.value) <= WaitTime(list, i)
      && (i < threadID.value ==> WaitTime(list, threadID.value) < WaitTime(list, i))
  {
    var best: nat := 0;
    var lowestWaitTime: nat := INT_MAX;
    for i := 0 to |list|
      invariant best < |list| && forall h | 0 <= h < i :: !PastSlots(list, h)
      invariant if lowestWaitTime == INT_MAX then best == 0 && forall h | 0 <= h < i :: !HasRoom(list[h])
                else best < i && HasRoom(list[best]) && lowestWaitTime == WaitTime(list, best) < INT_MAX
      invariant forall h | 0 <= h < i && HasRoom(list[h]) ::
        && WaitTime(list, best) <= WaitTime(list, h)
        && (h < best ==> WaitTime(list, best) < WaitTime(list, h))
    {
      var queue := list[i];
      if queue.total >= QUEUE_SIZE {
        continue;
      }
      if i >= QUEUE_SIZE {
        assert PastSlots(list, i);
        return None;
      }
      var totalWaitTime: nat := 0;
      for j := 0 to |list|
        invariant totalWaitTime == j * OneWait(queue, i)
      {
        if !queue.free[i] {
          var waitTime := CpuSlice(queue.heads[i].value.task.priority);
          totalWaitTime := totalWaitTime + (if waitTime != 0 then waitTime else 999);
        }
      }
      WaitBound(list, i);
      if lowestWaitTime > totalWaitTime {
        best := i;
        lowestWaitTime := totalWaitTime;
      }
    }
    return Some(best);
  }

  lemma WaitBound(list: seq<Queue>, i: nat)
    requires i < |list| <= MAX_THREAD
    ensures WaitTime(list, i) == |list| * OneWait(list[i], i) < INT_MAX
  {
    assert OneWait(list[i], i) <= 6 * NANOSECS;
    assert |list| * OneWait(list[i], i) <= MAX_THREAD * (6 * NANOSECS);
  }

  lemma {:induction false} BusySnoc(free: seq<bool>, b: bool)
    ensures Busy(free + [b]) == Busy(free) + (if b then 0 else 1) && Busy(free) <= |free|
  {
    if free == [] {
      assert [] + [b] == [b] && [b][1..] == [];
    } else {
      assert (free + [b])[1..] == free[1..] + [b];
      BusySnoc(free[1..], b);
    }
  }

  lemma {:induction false} EmptySnoc(queues: seq<Queue>, q: Queue)
    ensures EmptySlots(queues + [q]) == EmptySlots(queues) + |q.free| - Busy(q.free)
  {
    if queues == [] {
      assert [] + [q] == [q] && [q][1..] == [];
    } else {
      assert (queues + [q])[1..] == queues[1..] + [q];
      EmptySnoc(queues[1..], q);
    }
  }
}
