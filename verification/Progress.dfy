/** Progress of the scheduler and its threads: a thread comes round to every busy slot within a
    bounded number of its own steps, and every accepted task can be finished. */

module Progress {
  import opened Wrappers
  import opened Scheduler
  import P = TaskPool

  // ---------------------------------------------------------------- runs put together

  lemma {:induction false} RunJoin(s: State, a: seq<Event>, b: seq<Event>)
    requires PossibleRun(s, a) && PossibleRun(Run(s, a), b)
    ensures PossibleRun(s, a + b) && Run(s, a + b) == Run(Run(s, a), b)
    decreases |a|
  {
    if a == [] {
      assert a + b == b;
    } else {
      assert (a + b)[1..] == a[1..] + b;
      RunJoin(Step(s, a[0]), a[1..], b);
    }
  }

  lemma {:induction false} OneStep(s: State, e: Event)
    requires Possible(s, e)
    ensures PossibleRun(s, [e]) && Run(s, [e]) == Step(s, e)
  {
    assert [e][1..] == [];
  }

  /** Events of one thread, none of which starts a process that does not settle. */
  ghost predicate Own(t: nat, es: seq<Event>) {
    forall k | 0 <= k < |es| :: OwnEvent(t, es[k])
  }

  ghost predicate OwnEvent(t: nat, e: Event) {
    ThreadEvent(e) && e.t == t && (e.StartProc? ==> Settled(e.result))
  }

  /** A thread's own event changes its queue only, and there only the slot it looks at. */
  lemma OwnStep(s: State, t: nat, e: Event)
    requires Fine(s) && OwnEvent(t, e) && Possible(s, e)
    ensures t < |s.queues| && QueueOk(s.queues[t], Owed(s.at, t))
    ensures var r, q, q' := Step(s, e), s.queues[t], QueueStep(s.queues[t], e);
      && Fine(r) && r.pool == s.pool && r.at == s.at && r.accepted == s.accepted && r.queues == s.queues[t := q']
      && QueueOk(q', Owed(s.at, t))
  {
    StepKeeps(s, e);
    ThreadKeepsQueue(s, e, Owed(s.at, t));
    if e.Release? { assert SlotOk(s.queues[t], s.queues[t].head); }
  }

  // ---------------------------------------------------------------- one thread comes round

  /** The thread is about to work on the job in slot i. */
  ghost predicate WorksOn(q: Queue, i: nat) { q.at.Running? && q.head == i }

  /** The job in slot i has been ended, and the slot is about to be released. */
  ghost predicate Leaves(q: Queue, i: nat) { q.at.Closing? && q.head == i }

  ghost predicate BusyAt(q: Queue, i: nat) { i < QUEUE_SIZE && |q.free| == QUEUE_SIZE && !q.free[i] }

  /** How many slots the thread has to go on to be at slot i. */
  function Ahead(q: Queue, i: nat): nat {
    if q.head == i then (if q.at.Decrementing? then QUEUE_SIZE else 0)
    else if q.head < i then i - q.head else i + QUEUE_SIZE - q.head % QUEUE_SIZE
  }

  /** A bound on the thread's own steps until it works on slot i. */
  function StepsTo(q: Queue, i: nat): nat {
    6 * Ahead(q, i) + match q.at
      case Looking => 5
      case SawBusy => 4
      case Running => 3
      case Closing => 2
      case Decrementing => 1
  }

  lemma StepCloser(q: Queue, e: Event, s: State, t: nat, i: nat)
    requires QueueOk(q, 0) && OwnEvent(t, e) && Possible(s, e) && s.queues[t] == q
    requires BusyAt(q, i) && !WorksOn(q, i) && !Leaves(q, i)
    ensures var r := QueueStep(q, e);
      && StepsTo(r, i) < StepsTo(q, i) && BusyAt(r, i) && !Leaves(r, i)
      && |r.heads| == |q.heads| == QUEUE_SIZE && r.heads[i] == q.heads[i]
      && forall k | 0 <= k < QUEUE_SIZE && q.free[k] :: r.free[k]
  {
    StepsFall(q, e, s, t, i);
    BusyStays(q, e, s, t, i);
  }

  lemma StepsFall(q: Queue, e: Event, s: State, t: nat, i: nat)
    requires QueueOk(q, 0) && OwnEvent(t, e) && Possible(s, e) && s.queues[t] == q
    requires BusyAt(q, i) && !WorksOn(q, i) && !Leaves(q, i)
    ensures StepsTo(QueueStep(q, e), i) < StepsTo(q, i) && !Leaves(QueueStep(q, e), i)
  {
    BusyUpdate(q.free, i, false);
  }

  lemma BusyStays(q: Queue, e: Event, s: State, t: nat, i: nat)
    requires QueueOk(q, 0) && OwnEvent(t, e) && Possible(s, e) && s.queues[t] == q
    requires BusyAt(q, i) && !WorksOn(q, i) && !Leaves(q, i)
    ensures var r := QueueStep(q, e);
      && BusyAt(r, i) && |r.heads| == |q.heads| == QUEUE_SIZE && r.heads[i] == q.heads[i]
      && forall k | 0 <= k < QUEUE_SIZE && q.free[k] :: r.free[k]
  {
  }

  lemma StepsBound(q: Queue, i: nat)
    requires q.head < QUEUE_SIZE && i < QUEUE_SIZE
    ensures StepsTo(q, i) <= 25
  {
  }

  /** A job whose process reports neither the end nor a failure is called again before the thread
      looks at another slot; otherwise the thread goes on to the next slot, and ends the job when it
      comes round. */
  lemma CallKept(q: Queue, t: nat, result: JobStatus)
    requires q.at.Running? && q.head < |q.heads| == QUEUE_SIZE && Current(q).Some?
    ensures var r, job := QueueStep(q, StartProc(t, result)), Current(q).value;
      && r.free == q.free && r.total == q.total
      && r.heads == q.heads[q.head := Some(Job(job.task, result, job.log + [Start(result)]))]
      && if result == Done || result == Failed then r.at == Looking && r.head == (q.head + 1) % 4
         else r.at == Running && r.head == q.head
    ensures var r, job := QueueStep(q, EndProc(t, result)), Current(q).value;
      && r == q.(at := Closing, heads := q.heads[q.head := Some(Job(job.task, result, job.log + [End(job.status)]))])
  {
  }

  // ---------------------------------------------------------------- one slot is emptied

  /** A thread is never stuck. */
  lemma NextOwn(s: State, t: nat) returns (e: Event)
    requires Fine(s) && t < |s.queues|
    ensures OwnEvent(t, e) && Possible(s, e)
  {
    var q := s.queues[t];
    assert QueueOk(q, Owed(s.at, t)) && SlotOk(q, q.head);
    match q.at
    case Looking => e := ReadFlag(t);
    case SawBusy => e := ReadCounter(t);
    case Running => e := if Settled(Current(q).value.status) then EndProc(t, Finished) else StartProc(t, Done);
    case Closing => e := Release(t);
    case Decrementing => e := Decrement(t);
  }

  /** Nothing but one thread has moved, and no slot of it has become busy. */
  ghost predicate OnlyThread(s: State, r: State, t: nat) {
    && t < |s.queues| && |r.queues| == |s.queues| && Fine(r) && r.pool == s.pool && r.at == s.at
      && r.accepted == s.accepted
    && (forall u | 0 <= u < |s.queues| && u != t :: r.queues[u] == s.queues[u])
    && |s.queues[t].free| == |r.queues[t].free| == QUEUE_SIZE
    && forall k | 0 <= k < QUEUE_SIZE && s.queues[t].free[k] :: r.queues[t].free[k]
  }

  lemma OnlyThreadStep(s: State, t: nat, e: Event)
    requires Fine(s) && OwnEvent(t, e) && Possible(s, e)
    ensures OnlyThread(s, Step(s, e), t)
  {
    OwnStep(s, t, e);
  }

  lemma OnlyThreadJoin(a: State, b: State, c: State, t: nat)
    requires OnlyThread(a, b, t) && OnlyThread(b, c, t)
    ensures OnlyThread(a, c, t)
  {
  }

  lemma OwnCloser(s: State, t: nat, e: Event, i: nat)
    requires Fine(s) && t < |s.queues| && s.at != Counting(t) && OwnEvent(t, e) && Possible(s, e)
    requires BusyAt(s.queues[t], i) && !WorksOn(s.queues[t], i) && !Leaves(s.queues[t], i)
    ensures OnlyThread(s, Step(s, e), t)
    ensures var q, r := s.queues[t], Step(s, e).queues[t];
      && StepsTo(r, i) < StepsTo(q, i) && BusyAt(r, i) && !Leaves(r, i)
      && |r.heads| == |q.heads| == QUEUE_SIZE && r.heads[i] == q.heads[i]
  {
    OwnStep(s, t, e);
    OnlyThreadStep(s, t, e);
    StepCloser(s.queues[t], e, s, t, i);
  }

  /** Whatever the thread does, it works on a busy slot after at most 25 of its own steps. */
  lemma {:induction false} ComesRound(s: State, t: nat, i: nat, es: seq<Event>) returns (n: nat)
    requires Fine(s) && t < |s.queues| && s.at != Counting(t) && BusyAt(s.queues[t], i) && !Leaves(s.queues[t], i)
    requires Own(t, es) && PossibleRun(s, es) && |es| >= StepsTo(s.queues[t], i)
    ensures n <= |es| && n <= StepsTo(s.queues[t], i) && PossibleRun(s, es[..n])
    ensures var r := Run(s, es[..n]);
      && |r.queues| == |s.queues| && WorksOn(r.queues[t], i) && BusyAt(r.queues[t], i)
      && |r.queues[t].heads| == |s.queues[t].heads| == QUEUE_SIZE && r.queues[t].heads[i] == s.queues[t].heads[i]
    decreases StepsTo(s.queues[t], i)
  {
    var q := s.queues[t];
    assert QueueOk(q, 0);
    if WorksOn(q, i) {
      assert es[..0] == [];
      return 0;
    }
    var e := es[0];
    OwnCloser(s, t, e, i);
    var m := ComesRound(Step(s, e), t, i, es[1..]);
    n := m + 1;
    assert es[..n][1..] == es[1..][..m];
  }

  /** Left to itself, a thread comes to work on a busy slot. */
  lemma {:induction false} ComesToWork(s: State, t: nat, i: nat) returns (es: seq<Event>)
    requires Fine(s) && t < |s.queues| && s.at != Counting(t) && BusyAt(s.queues[t], i) && !Leaves(s.queues[t], i)
    ensures Own(t, es) && PossibleRun(s, es) && OnlyThread(s, Run(s, es), t)
    ensures var r := Run(s, es).queues[t];
      WorksOn(r, i) && BusyAt(r, i) && |r.heads| == |s.queues[t].heads| == QUEUE_SIZE
        && r.heads[i] == s.queues[t].heads[i]
    decreases StepsTo(s.queues[t], i)
  {
    var q := s.queues[t];
    assert QueueOk(q, 0);
    if WorksOn(q, i) {
      return [];
    }
    var e := NextOwn(s, t);
    OwnCloser(s, t, e, i);
    var rest := ComesToWork(Step(s, e), t, i);
    OnlyThreadJoin(s, Step(s, e), Run(Step(s, e), rest), t);
    es := [e] + rest;
    assert es[1..] == rest;
  }

  /** The job it works on is called once more, or ended. */
  lemma CalledOnce(s: State, t: nat, i: nat) returns (e: Event)
    requires Fine(s) && t < |s.queues| && WorksOn(s.queues[t], i) && BusyAt(s.queues[t], i)
    ensures OwnEvent(t, e) && Possible(s, e) && OnlyThread(s, Step(s, e), t)
    ensures var q, r := s.queues[t], Step(s, e).queues[t];
      && |q.heads| == |r.heads| == QUEUE_SIZE && q.heads[i].Some? && r.heads[i].Some? && BusyAt(r, i)
      && if Settled(q.heads[i].value.status) then Leaves(r, i) else Settled(r.heads[i].value.status) && !Leaves(r, i)
  {
    e := NextOwn(s, t);
    OwnStep(s, t, e);
    OnlyThreadStep(s, t, e);
    assert SlotOk(s.queues[t], i);
  }

  lemma {:induction false} Released(s: State, t: nat, i: nat) returns (es: seq<Event>)
    requires Fine(s) && t < |s.queues| && Leaves(s.queues[t], i)
    ensures Own(t, es) && PossibleRun(s, es) && OnlyThread(s, Run(s, es), t) && i < QUEUE_SIZE
    ensures Run(s, es).queues[t].free[i]
  {
    assert QueueOk(s.queues[t], Owed(s.at, t));
    OwnStep(s, t, Release(t));
    OnlyThreadStep(s, t, Release(t));
    OneStep(s, Release(t));
    es := [Release(t)];
  }

  lemma {:induction false} OwnJoin(s: State, t: nat, a: seq<Event>, b: seq<Event>)
    requires Own(t, a) && Own(t, b) && PossibleRun(s, a) && PossibleRun(Run(s, a), b)
    requires OnlyThread(s, Run(s, a), t) && OnlyThread(Run(s, a), Run(Run(s, a), b), t)
    ensures Own(t, a + b) && PossibleRun(s, a + b) && Run(s, a + b) == Run(Run(s, a), b)
    ensures OnlyThread(s, Run(s, a + b), t)
  {
    RunJoin(s, a, b);
    OnlyThreadJoin(s, Run(s, a), Run(Run(s, a), b), t);
  }

  /** The thread works on the slot, and calls or ends its job. */
  lemma {:induction false} WorkedOn(s: State, t: nat, i: nat) returns (es: seq<Event>)
    requires Fine(s) && t < |s.queues| && s.at != Counting(t) && BusyAt(s.queues[t], i) && !Leaves(s.queues[t], i)
    ensures Own(t, es) && PossibleRun(s, es) && OnlyThread(s, Run(s, es), t)
    ensures var q, r := s.queues[t], Run(s, es).queues[t];
      && |q.heads| == |r.heads| == QUEUE_SIZE && q.heads[i].Some? && r.heads[i].Some? && BusyAt(r, i)
      && if Settled(q.heads[i].value.status) then Leaves(r, i) else Settled(r.heads[i].value.status) && !Leaves(r, i)
  {
    var a := ComesToWork(s, t, i);
    var e := CalledOnce(Run(s, a), t, i);
    OneStep(Run(s, a), e);
    OwnJoin(s, t, a, [e]);
    es := a + [e];
  }

  /** Left to itself, a thread empties a busy slot. */
  lemma {:induction false} Emptied(s: State, t: nat, i: nat) returns (es: seq<Event>)
    requires Fine(s) && t < |s.queues| && s.at != Counting(t) && BusyAt(s.queues[t], i)
    ensures Own(t, es) && PossibleRun(s, es) && OnlyThread(s, Run(s, es), t)
    ensures Run(s, es).queues[t].free[i]
  {
    es := [];
    ghost var r := s;
    if !Leaves(r.queues[t], i) {
      es := WorkedOn(s, t, i);
      r := Run(s, es);
    } else {
      OnlyThreadNone(s, t);
    }
    if !Leaves(r.queues[t], i) {
      var more := WorkedOn(r, t, i);
      OwnJoin(s, t, es, more);
      es := es + more;
      r := Run(s, es);
    }
    var last := Released(r, t, i);
    OwnJoin(s, t, es, last);
    es := es + last;
  }

  lemma {:induction false} OnlyThreadNone(s: State, t: nat)
    requires Fine(s) && t < |s.queues|
    ensures OnlyThread(s, s, t) && Own(t, []) && PossibleRun(s, []) && Run(s, []) == s
  {
    assert QueueOk(s.queues[t], Owed(s.at, t));
  }

  // ---------------------------------------------------------------- everything is finished

  ghost predicate AllFree(q: Queue) { forall k | 0 <= k < |q.free| :: q.free[k] }

  lemma {:induction false} FewerBusy(a: seq<bool>, b: seq<bool>, i: nat)
    requires |a| == |b| && (forall k | 0 <= k < |a| && a[k] :: b[k]) && i < |a|
    ensures Busy(b) <= Busy(a) && (!a[i] && b[i] ==> Busy(b) < Busy(a))
  {
    if |a| > 1 {
      assert forall k | 0 <= k < |a[1..]| :: a[1..][k] == a[k + 1] && b[1..][k] == b[k + 1];
      FewerBusy(a[1..], b[1..], if i > 0 then i - 1 else 0);
    } else {
      assert a[1..] == [] && b[1..] == [];
    }
  }

  /** Left to itself, a thread finishes all its jobs. */
  lemma {:induction false} Drained(s: State, t: nat) returns (es: seq<Event>)
    requires Fine(s) && t < |s.queues| && s.at != Counting(t)
    ensures Own(t, es) && PossibleRun(s, es) && OnlyThread(s, Run(s, es), t) && AllFree(Run(s, es).queues[t])
    decreases Busy(s.queues[t].free)
  {
    var q := s.queues[t];
    OnlyThreadNone(s, t);
    if AllFree(q) {
      return [];
    }
    var i :| 0 <= i < |q.free| && !q.free[i];
    es := Emptied(s, t, i);
    FewerBusy(q.free, Run(s, es).queues[t].free, i);
    var more := Drained(Run(s, es), t);
    OwnJoin(s, t, es, more);
    es := es + more;
  }

  /** The first u threads have nothing left to do. */
  ghost predicate FreeUpTo(s: State, u: nat) {
    u <= |s.queues| && forall t | 0 <= t < u :: AllFree(s.queues[t])
  }

  lemma {:induction false} AllDrained(s: State, u: nat) returns (es: seq<Event>)
    requires Fine(s) && s.at.Idle? && FreeUpTo(s, u)
    ensures PossibleRun(s, es) && Fine(Run(s, es)) && Run(s, es).at.Idle?
    ensures Run(s, es).pool == s.pool && Run(s, es).accepted == s.accepted && |Run(s, es).queues| == |s.queues|
    ensures FreeUpTo(Run(s, es), |s.queues|)
    decreases |s.queues| - u
  {
    if u == |s.queues| {
      return [];
    }
    es := Drained(s, u);
    var more := AllDrained(Run(s, es), u + 1);
    RunJoin(s, es, more);
    es := es + more;
  }

  /** What the scheduler still has to do before it looks for the next task. */
  ghost predicate Unfinished(es: seq<Event>) {
    forall k | 0 <= k < |es| :: es[k].PopTask? || es[k].Place? || es[k].Publish? || es[k].Increment?
  }

  function StepsLeft(at: SchedulerAt): nat {
    match at
    case Idle => 0
    case Chosen(_, _) => 4
    case Holding(_, _, _) => 3
    case Placed(_, _, _) => 2
    case Counting(_) => 1
  }

  lemma NextPending(s: State) returns (e: Event)
    requires Fine(s) && !s.at.Idle?
    ensures (e.PopTask? || e.Place? || e.Publish? || e.Increment?) && Possible(s, e)
    ensures var r := Step(s, e);
      && Fine(r) && StepsLeft(r.at) < StepsLeft(s.at)
      && r.accepted == s.accepted && |r.queues| == |s.queues| && |r.pool| <= |s.pool|
  {
    e := if s.at.Chosen? then PopTask else if s.at.Holding? then Place else if s.at.Placed? then Publish else Increment;
    StepKeeps(s, e);
    PendingShrinks(s, e);
  }

  lemma PendingShrinks(s: State, e: Event)
    requires AtOk(s) && Possible(s, e) && (e.PopTask? || e.Place? || e.Publish? || e.Increment?)
    ensures var r := Step(s, e);
      && StepsLeft(r.at) < StepsLeft(s.at)
      && r.accepted == s.accepted && |r.queues| == |s.queues| && |r.pool| <= |s.pool|
  {
  }

  /** The scheduler ends what it has begun. */
  lemma {:induction false} SchedulerDone(s: State) returns (es: seq<Event>)
    requires Fine(s)
    ensures PossibleRun(s, es) && Fine(Run(s, es)) && Run(s, es).at.Idle? && Unfinished(es)
    ensures Run(s, es).accepted == s.accepted && |Run(s, es).queues| == |s.queues| && |Run(s, es).pool| <= |s.pool|
    decreases StepsLeft(s.at)
  {
    if s.at.Idle? {
      return [];
    }
    var e := NextPending(s);
    var rest := SchedulerDone(Step(s, e));
    es := [e] + rest;
    RunCons(s, e, rest);
    UnfinishedCons(e, rest);
  }

  lemma UnfinishedCons(e: Event, es: seq<Event>)
    requires (e.PopTask? || e.Place? || e.Publish? || e.Increment?) && Unfinished(es)
    ensures Unfinished([e] + es)
  {
  }

  /** The oldest task goes into a free slot of the first thread. */
  lemma FirstInserted(s: State) returns (es: seq<Event>)
    requires Fine(s) && s.at.Idle? && s.pool != [] && s.queues != [] && AllFree(s.queues[0])
    ensures PossibleRun(s, es) && Fine(Run(s, es)) && Run(s, es).at.Idle?
    ensures Run(s, es).pool == s.pool[1..] && Run(s, es).accepted == s.accepted && |Run(s, es).queues| == |s.queues|
  {
    assert QueueOk(s.queues[0], 0);
    InsertedBySteps(s, 0, 0);
    es := [Choose(0, 0), PopTask, Place, Publish, Increment];
    RunKeeps(s, es);
  }

  lemma {:induction false} PoolEmptied(s: State) returns (es: seq<Event>)
    requires Fine(s) && s.at.Idle? && s.queues != []
    ensures PossibleRun(s, es) && Fine(Run(s, es)) && Run(s, es).at.Idle?
    ensures Run(s, es).pool == [] && Run(s, es).accepted == s.accepted && |Run(s, es).queues| == |s.queues|
    ensures FreeUpTo(Run(s, es), |s.queues|)
    decreases |s.pool|
  {
    es := AllDrained(s, 0);
    if s.pool != [] {
      var r := Run(s, es);
      var one := FirstInserted(r);
      RunJoin(s, es, one);
      var more := PoolEmptied(Run(r, one));
      RunJoin(s, es + one, more);
      es := es + one + more;
    }
  }

  lemma {:induction false} NoTasks(queues: seq<Queue>)
    requires forall t | 0 <= t < |queues| :: AllFree(queues[t])
    ensures AllSlotTasks(queues) == multiset{}
  {
    if queues != [] {
      NoTasksIn(queues[0].free, queues[0].heads);
      assert forall t | 0 <= t < |queues[1..]| :: queues[1..][t] == queues[t + 1];
      NoTasks(queues[1..]);
    }
  }

  lemma {:induction false} NoTasksIn(free: seq<bool>, heads: seq<Option<Job>>)
    requires forall k | 0 <= k < |free| :: free[k]
    ensures SlotTasks(free, heads) == multiset{}
  {
    if free != [] && heads != [] { NoTasksIn(free[1..], heads[1..]); }
  }

  // ---------------------------------------------------------------- from every reachable state

  /** From every reachable state, a busy slot of a thread whose counter is not about to be raised is
      worked on within 25 of the thread's own steps, whatever the processes of the jobs before it
      report; unless its job has been ended already. */
  lemma SlotComesRound(threads: nat, es: seq<Event>, t: nat, i: nat, own: seq<Event>) returns (n: nat)
    requires PossibleRun(Initial(threads), es)
    requires var s := Run(Initial(threads), es);
      && t < |s.queues| && s.at != Counting(t) && BusyAt(s.queues[t], i) && !Leaves(s.queues[t], i)
      && PossibleRun(s, own)
    requires Own(t, own) && |own| >= 25
    ensures n <= 25 && PossibleRun(Initial(threads), es + own[..n])
    ensures var s, r := Run(Initial(threads), es), Run(Initial(threads), es + own[..n]);
      && t < |s.queues| == |r.queues| && WorksOn(r.queues[t], i) && BusyAt(r.queues[t], i)
      && |r.queues[t].heads| == |s.queues[t].heads| == QUEUE_SIZE && r.queues[t].heads[i] == s.queues[t].heads[i]
  {
    InitiallyFine(threads);
    RunKeeps(Initial(threads), es);
    var s := Run(Initial(threads), es);
    assert QueueOk(s.queues[t], 0);
    StepsBound(s.queues[t], i);
    n := ComesRound(s, t, i, own);
    RunJoin(Initial(threads), es, own[..n]);
  }

  /** From every reachable state a busy slot can be worked on: the scheduler ends what it has begun,
      and the thread is left to itself. */
  lemma {:induction false} SlotReached(threads: nat, es: seq<Event>, t: nat, i: nat)
      returns (pending: seq<Event>, own: seq<Event>)
    requires PossibleRun(Initial(threads), es)
    requires var s := Run(Initial(threads), es);
      t < |s.queues| && BusyAt(s.queues[t], i) && !Leaves(s.queues[t], i)
    ensures Unfinished(pending) && Own(t, own) && PossibleRun(Initial(threads), es + (pending + own))
    ensures var s, r := Run(Initial(threads), es), Run(Initial(threads), es + (pending + own));
      && t < |s.queues| == |r.queues| && WorksOn(r.queues[t], i) && BusyAt(r.queues[t], i)
      && |r.queues[t].heads| == |s.queues[t].heads| == QUEUE_SIZE && r.queues[t].heads[i] == s.queues[t].heads[i]
  {
    InitiallyFine(threads);
    RunKeeps(Initial(threads), es);
    var s := Run(Initial(threads), es);
    pending := SchedulerDone(s);
    SchedulerLeaves(s, pending, t, i);
    own := ComesToWork(Run(s, pending), t, i);
    RunJoin(s, pending, own);
    RunJoin(Initial(threads), es, pending + own);
  }

  /** The thread stands where it did, and the job in a busy slot is the same. */
  ghost predicate SlotStays(s: State, r: State, t: nat, i: nat)
    requires t < |s.queues|
  {
    && |r.queues| == |s.queues| && BusyAt(r.queues[t], i)
    && r.queues[t].at == s.queues[t].at && r.queues[t].head == s.queues[t].head
    && |r.queues[t].heads| == |s.queues[t].heads| == QUEUE_SIZE && r.queues[t].heads[i] == s.queues[t].heads[i]
  }

  lemma PendingLeaves(s: State, e: Event, t: nat, i: nat)
    requires Fine(s) && Possible(s, e) && t < |s.queues| && BusyAt(s.queues[t], i)
    requires e.PopTask? || e.Place? || e.Publish? || e.Increment?
    ensures SlotStays(s, Step(s, e), t, i)
  {
    assert QueueOk(s.queues[t], Owed(s.at, t));
  }

  /** The scheduler's own steps leave busy slots alone, and where the thread stands. */
  lemma {:induction false} SchedulerLeaves(s: State, es: seq<Event>, t: nat, i: nat)
    requires Fine(s) && PossibleRun(s, es) && Unfinished(es) && t < |s.queues| && BusyAt(s.queues[t], i)
    ensures Fine(Run(s, es)) && SlotStays(s, Run(s, es), t, i)
    decreases |es|
  {
    if es == [] {
      assert QueueOk(s.queues[t], Owed(s.at, t));
    } else {
      StepKeeps(s, es[0]);
      PendingLeaves(s, es[0], t, i);
      SchedulerLeaves(Step(s, es[0]), es[1..], t, i);
    }
  }

  /** However a run went, with at least one thread it can be continued, without new tasks, so that
      every task accepted so far is finished. */
  lemma EveryTaskFinished(threads: nat, es: seq<Event>) returns (more: seq<Event>)
    requires PossibleRun(Initial(threads), es) && Run(Initial(threads), es).queues != []
    ensures PossibleRun(Initial(threads), es + more)
    ensures var s, r := Run(Initial(threads), es), Run(Initial(threads), es + more);
      r.accepted == s.accepted && multiset(TasksOf(r.finished)) == multiset(s.accepted)
  {
    InitiallyFine(threads);
    RunKeeps(Initial(threads), es);
    var s := Run(Initial(threads), es);
    more := SchedulerDone(s);
    var rest := PoolEmptied(Run(s, more));
    RunJoin(s, more, rest);
    more := more + rest;
    RunJoin(Initial(threads), es, more);
    var r := Run(s, more);
    NoTasks(r.queues);
    assert multiset(r.pool) == multiset{} && InHand(r.at) == multiset{};
  }

  /** The queue after its thread has read a number of flags. */
  function Read(q: Queue, t: nat, n: nat): Queue
    decreases n
  {
    if n == 0 then q else Read(QueueStep(q, ReadFlag(t)), t, n - 1)
  }

  lemma FlagRead(q: Queue, t: nat)
    requires QueueOk(q, 0) && q.at.Looking? && AllFree(q)
    ensures var r := QueueStep(q, ReadFlag(t));
      QueueOk(r, 0) && r == q.(head := if q.head + 1 < QUEUE_SIZE then q.head + 1 else 0)
  {
    ReadOk(q, ReadFlag(t), 0);
  }

  lemma {:induction false} ReadAhead(q: Queue, t: nat, n: nat)
    requires QueueOk(q, 0) && q.at.Looking? && AllFree(q) && n <= QUEUE_SIZE
    ensures var r := Read(q, t, n);
      r == q.(head := r.head) && r.head == if q.head + n < QUEUE_SIZE then q.head + n else q.head + n - QUEUE_SIZE
    decreases n
  {
    if n > 0 {
      FlagRead(q, t);
      ReadAhead(QueueStep(q, ReadFlag(t)), t, n - 1);
    }
  }

  /** A looking thread that finds every flag free has looked at each of the four slots after four
      reads, and is back where it was. */
  lemma {:induction false} LooksEverywhere(q: Queue, t: nat)
    requires QueueOk(q, 0) && q.at.Looking? && AllFree(q)
    ensures Read(q, t, 4) == q
    ensures forall i | 0 <= i < 4 :: Ahead(q, i) < 4 && Read(q, t, Ahead(q, i)) == q.(head := i)
  {
    ReadAhead(q, t, QUEUE_SIZE);
    forall i | 0 <= i < 4 ensures Ahead(q, i) < 4 && Read(q, t, Ahead(q, i)) == q.(head := i) {
      ReadAhead(q, t, Ahead(q, i));
    }
  }
}
