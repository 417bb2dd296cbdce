/** The pool of tasks waiting to be scheduled: a linked list with a counter, and what its
    callers can do to it together. */

module TaskPool {
  import opened Wrappers

  const MAX_TASK_POOL_SIZE := 20

  datatype Priority = NonPreemptable | High | Medium | Low
  datatype Task = Task(item: nat, priority: Priority)

  class TaskPoolNode {
    var task: Task
    var next: TaskPoolNode?

    constructor (task: Task)
      ensures this.task == task && next == null
    {
      this.task, next := task, null;
    }
  }

  class TaskPool {
    var headNode: TaskPoolNode?
    var taskPoolCount: nat
    ghost var list: seq<TaskPoolNode>

    ghost predicate Valid()
      reads this, list
    {
      && taskPoolCount == |list|
      && (headNode == if list == [] then null else list[0])
      && (forall i, j | 0 <= i < j < |list| :: list[i] != list[j])
      && (forall i {:trigger list[i]} | 0 <= i < |list| :: list[i].next == if i + 1 < |list| then list[i + 1] else null)
    }

    /** The waiting tasks, oldest first. */
    ghost function Contents(): seq<Task>
      reads this, list
    {
      seq(|list|, i requires 0 <= i < |list| reads this, list => list[i].task)
    }

    constructor ()
      ensures Valid() && Contents() == []
    {
      headNode, taskPoolCount, list := null, 0, [];
    }

    /** `addTask`: at the end, unless the pool is full. */
    method AddTask(task: Task) returns (rc: int)
      requires Valid()
      modifies this, list
      ensures Valid() && rc == if |old(Contents())| >= MAX_TASK_POOL_SIZE then -1 else 0
      ensures Contents() == if rc == 0 then old(Contents()) + [task] else old(Contents())
      ensures forall n | n in list :: n in old(list) || fresh(n)
    {
      if taskPoolCount >= MAX_TASK_POOL_SIZE {
        return -1;
      }
      var tailNode := new TaskPoolNode(task);
      if headNode == null {
        headNode := tailNode;
      } else {
        var node := headNode;
        ghost var i := 0;
        while node.next != null
          invariant 0 <= i < |list| && node == list[i]
          decreases |list| - i
        {
          node := node.next;
          i := i + 1;
        }
        node.next := tailNode;
      }
      taskPoolCount := taskPoolCount + 1;
      list := list + [tailNode];
      return 0;
    }

    /** `popTask`: the oldest task; an empty pool gives nothing. */
    method PopTask() returns (task: Option<Task>)
      requires Valid()
      modifies this
      ensures Valid() && (forall n | n in list :: n in old(list))
      ensures task == if old(Contents()) == [] then None else Some(old(Contents())[0])
      ensures Contents() == if task.None? then old(Contents()) else old(Contents())[1..]
    {
      if taskPoolCount <= 0 {
        return None;
      }
      var temp := headNode;
      headNode := temp.next;
      task := Some(temp.task);
      taskPoolCount := taskPoolCount - 1;
      list := list[1..];
    }
  }

  // ---------------------------------------------------------------- many callers, one consumer

  /** Producers test the limit before they take the lock; the consumer pops under the lock. */
  datatype State = State(
    pool: seq<Task>,
    admitted: seq<Option<Task>>,  // by producer: a task that has passed the test
    accepted: seq<Task>,          // all tasks that came in, in order
    popped: seq<Task>)

  datatype Event = Test(producer: nat, task: Task) | Append(producer: nat) | Pop

  predicate Possible(s: State, e: Event) {
    match e
    case Test(p, _) => p < |s.admitted| && s.admitted[p].None? && |s.pool| < MAX_TASK_POOL_SIZE
    case Append(p) => p < |s.admitted| && s.admitted[p].Some?
    case Pop => s.pool != []
  }

  function Step(s: State, e: Event): State
    requires Possible(s, e)
  {
    match e
    case Test(p, task) => s.(admitted := s.admitted[p := Some(task)])
    case Append(p) =>
      var task := s.admitted[p].value;
      s.(pool := s.pool + [task], admitted := s.admitted[p := None], accepted := s.accepted + [task])
    case Pop => s.(pool := s.pool[1..], popped := s.popped + [s.pool[0]])
  }

  predicate PossibleRun(s: State, es: seq<Event>)
    decreases |es|
  {
    es == [] || (Possible(s, es[0]) && PossibleRun(Step(s, es[0]), es[1..]))
  }

  function Run(s: State, es: seq<Event>): State
    requires PossibleRun(s, es)
    decreases |es|
  {
    if es == [] then s else Run(Step(s, es[0]), es[1..])
  }

  function Start(producers: nat): State {
    State([], seq(producers, i => None), [], [])
  }

  function Pending(admitted: seq<Option<Task>>): nat {
    if admitted == [] then 0 else (if admitted[0].Some? then 1 else 0) + Pending(admitted[1..])
  }

  lemma {:induction false} PendingUpdate(a: seq<Option<Task>>, p: nat, o: Option<Task>)
    requires p < |a|
    ensures Pending(a[p := o]) == Pending(a) - (if a[p].Some? then 1 else 0) + (if o.Some? then 1 else 0)
    ensures Pending(a) <= |a|
  {
    PendingBound(a);
    if p == 0 {
      assert a[p := o][1..] == a[1..];
    } else {
      assert a[p := o][1..] == a[1..][p - 1 := o];
      PendingUpdate(a[1..], p - 1, o);
    }
  }

  lemma {:induction false} PendingBound(a: seq<Option<Task>>)
    ensures Pending(a) <= |a|
  {
    if a != [] { PendingBound(a[1..]); }
  }

  /** First in, first out, and never more than the limit plus one task for each further producer. */
  ghost predicate Fine(s: State) {
    && s.accepted == s.popped + s.pool
    && (s.pool == [] || |s.pool| + Pending(s.admitted) <= MAX_TASK_POOL_SIZE + |s.admitted| - 1)
  }

  lemma StepKeeps(s: State, e: Event)
    requires Fine(s) && Possible(s, e)
    ensures Fine(Step(s, e)) && |Step(s, e).admitted| == |s.admitted|
  {
    match e
    case Test(p, task) =>
      PendingUpdate(s.admitted, p, Some(task));
      PendingBound(s.admitted[p := Some(task)]);
    case Append(p) =>
      PendingUpdate(s.admitted, p, None);
    case Pop =>
  }

  lemma {:induction false} RunKeeps(s: State, es: seq<Event>)
    requires Fine(s) && PossibleRun(s, es)
    ensures Fine(Run(s, es)) && |Run(s, es).admitted| == |s.admitted|
    decreases |es|
  {
    if es != [] {
      StepKeeps(s, es[0]);
      RunKeeps(Step(s, es[0]), es[1..]);
    }
  }

  /** From the empty pool, with any number of producers and one consumer. */
  lemma {:induction false} PoolBound(producers: nat, es: seq<Event>)
    requires producers > 0 && PossibleRun(Start(producers), es)
    ensures var s := Run(Start(producers), es);
      |s.pool| <= 20 + producers - 1 && s.accepted == s.popped + s.pool
  {
    RunKeeps(Start(producers), es);
  }

  // ---- the bound is reached

  lemma {:induction false} RunAppend(s: State, a: seq<Event>, b: seq<Event>)
    requires PossibleRun(s, a) && PossibleRun(Run(s, a), b)
    ensures PossibleRun(s, a + b) && Run(s, a + b) == Run(Run(s, a), b)
    decreases |a|
  {
    if a == [] {
      assert a + b == b;
    } else {
      assert (a + b)[1..] == a[1..] + b;
      RunAppend(Step(s, a[0]), a[1..], b);
    }
  }

  /** One producer fills the pool up to k tasks. */
  lemma {:induction false} Fill(producers: nat, k: nat) returns (es: seq<Event>)
    requires producers > 0 && k < MAX_TASK_POOL_SIZE
    ensures PossibleRun(Start(producers), es)
    ensures var s := Run(Start(producers), es); |s.pool| == k && s.admitted == Start(producers).admitted
  {
    if k == 0 {
      es := [];
    } else {
      var first := Fill(producers, k - 1);
      var s := Run(Start(producers), first);
      var task := Task(0, Low);
      var more := [Test(0, task), Append(0)];
      var t := Step(s, Test(0, task));
      assert more[1..] == [Append(0)] && [Append(0)][1..] == [];
      assert PossibleRun(t, more[1..]) && Run(t, more[1..]) == Step(t, Append(0));
      assert PossibleRun(s, more) && Run(s, more) == Step(t, Append(0));
      RunAppend(Start(producers), first, more);
      es := first + more;
      assert Step(t, Append(0)).admitted == s.admitted;
    }
  }

  ghost predicate AllTested(s: State, n: nat) {
    n <= |s.admitted| && forall i | 0 <= i < |s.admitted| :: s.admitted[i].Some? <==> i < n
  }

  /** All producers pass the test before any of them appends. */
  lemma {:induction false} TestAll(s: State, n: nat) returns (es: seq<Event>)
    requires |s.pool| < MAX_TASK_POOL_SIZE && AllTested(s, n)
    ensures PossibleRun(s, es)
    ensures Run(s, es).pool == s.pool && |Run(s, es).admitted| == |s.admitted| && AllTested(Run(s, es), |s.admitted|)
    decreases |s.admitted| - n
  {
    if n == |s.admitted| {
      es := [];
    } else {
      var e := Test(n, Task(n, Low));
      assert Possible(s, e);
      var rest := TestAll(Step(s, e), n + 1);
      es := [e] + rest;
      assert es[1..] == rest;
    }
  }

  lemma {:induction false} AppendAll(s: State, n: nat) returns (es: seq<Event>)
    requires n <= |s.admitted| && forall i | n <= i < |s.admitted| :: s.admitted[i].Some?
    ensures PossibleRun(s, es) && |Run(s, es).pool| == |s.pool| + |s.admitted| - n
    decreases |s.admitted| - n
  {
    if n == |s.admitted| {
      es := [];
    } else {
      var e := Append(n);
      assert Possible(s, e);
      var rest := AppendAll(Step(s, e), n + 1);
      es := [e] + rest;
      assert es[1..] == rest;
    }
  }

  /** The test outside the lock does let the pool grow that far. */
  lemma PoolBoundReached(producers: nat)
    requires producers > 0
    ensures exists es ::
      PossibleRun(Start(producers), es) && |Run(Start(producers), es).pool| == 20 + producers - 1
  {
    var s := Start(producers);
    var a := Fill(producers, MAX_TASK_POOL_SIZE - 1);
    var b := TestAll(Run(s, a), 0);
    var c := AppendAll(Run(Run(s, a), b), 0);
    RunAppend(s, a, b);
    RunAppend(s, a + b, c);
  }
}
