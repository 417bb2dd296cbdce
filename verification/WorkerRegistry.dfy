/** The registry of workers, their identifiers, and the choice of the worker for a packet. */

module WorkerRegistry {
  import opened Wrappers
  import W = Worker

  /** What the sender knows of a worker. */
  datatype Stats = Stats(threads: int, taskQueue: seq<int>, avgQueueTime: real)

  datatype Entry = Entry(uid: string, ready: bool, stats: Stats, queued: nat, pending: nat)

  // ---------------------------------------------------------------- identifiers

  /** Live and dead workers never share an identifier. */
  ghost predicate UidsDistinct(current: seq<string>, dead: seq<string>) {
    && (forall i, j | 0 <= i < j < |current| :: current[i] != current[j])
    && (forall i, j | 0 <= i < j < |dead| :: dead[i] != dead[j])
    && (forall u | u in current :: u !in dead)
  }

  function Uids(workers: seq<Entry>): seq<string> {
    seq(|workers|, i requires 0 <= i < |workers| => workers[i].uid)
  }

  /** Whether the draws let `generateWorkerUid` return: only a first draw that is new does, as
      the flag of a failure is never taken back. */
  predicate Returns(current: seq<string>, dead: seq<string>, draws: seq<string>) {
    draws != [] && draws[0] !in current && draws[0] !in dead
  }

  class WorkerRegistry {
    var currentWorkerList: seq<Entry>
    var deadWorkerList: seq<string>

    ghost predicate Valid()
      reads this
    {
      UidsDistinct(Uids(currentWorkerList), deadWorkerList)
    }

    constructor ()
      ensures Valid() && currentWorkerList == [] && deadWorkerList == []
    {
      currentWorkerList, deadWorkerList := [], [];
    }

    /** `generateWorkerUid` on a stretch of draws; None while it has not returned. */
    method GenerateWorkerUid(draws: seq<string>, stats: Stats) returns (uid: Option<string>)
      requires Valid()
      modifies this
      ensures Valid() && deadWorkerList == old(deadWorkerList)
      ensures uid.Some? <==> Returns(old(Uids(currentWorkerList)), old(deadWorkerList), draws)
      ensures uid.None? ==> currentWorkerList == old(currentWorkerList)
      ensures uid.Some? ==>
        && uid.value == draws[0]
        && currentWorkerList == [Entry(draws[0], false, stats, 0, 0)] + old(currentWorkerList)
    {
      var exit, failed := false, true;
      var i := 0;
      while !exit && i < |draws|
        invariant 0 <= i <= |draws| && currentWorkerList == old(currentWorkerList)
        invariant deadWorkerList == old(deadWorkerList)
        invariant i == 0 ==> failed && !exit
        invariant i > 0 ==> (exit <==> failed) && (failed <==> Returns(Uids(currentWorkerList), deadWorkerList, draws))
        invariant exit ==> i == 1
      {
        var taken := Registered(draws[i]);
        if taken {
          failed := false;
        }
        if failed {
          exit := true;
        }
        i := i + 1;
      }
      if !exit { return None; }
      NewUid(currentWorkerList, deadWorkerList, Entry(draws[0], false, stats, 0, 0));
      currentWorkerList := [Entry(draws[0], false, stats, 0, 0)] + currentWorkerList;
      return Some(draws[0]);
    }

    /** The two searches of a draw. */
    method Registered(uid: string) returns (taken: bool)
      ensures taken <==> uid in Uids(currentWorkerList) || uid in deadWorkerList
    {
      taken := false;
      for i := 0 to |currentWorkerList|
        invariant !taken && forall h | 0 <= h < i :: Uids(currentWorkerList)[h] != uid
      {
        if currentWorkerList[i].uid == uid {
          assert Uids(currentWorkerList)[i] == uid;
          return true;
        }
      }
      for i := 0 to |deadWorkerList|
        invariant !taken && forall h | 0 <= h < i :: deadWorkerList[h] != uid
      {
        if deadWorkerList[i] == uid { return true; }
      }
    }

    /** `deleteWorker`: the identifier of a removed worker is never given out again. */
    method DeleteWorker(k: nat)
      requires Valid() && k < |currentWorkerList|
      modifies this
      ensures Valid()
      ensures currentWorkerList == old(currentWorkerList[..k] + currentWorkerList[k + 1..])
      ensures deadWorkerList == [old(currentWorkerList[k].uid)] + old(deadWorkerList)
    {
      GoneUid(currentWorkerList, deadWorkerList, k);
      deadWorkerList := [currentWorkerList[k].uid] + deadWorkerList;
      currentWorkerList := currentWorkerList[..k] + currentWorkerList[k + 1..];
    }

    /** `getWorkerFromUid`: the one worker with this identifier. */
    method GetWorkerFromUid(uid: string) returns (k: Option<nat>)
      requires Valid()
      ensures k.Some? ==> k.value < |currentWorkerList| && currentWorkerList[k.value].uid == uid
      ensures forall i | 0 <= i < |currentWorkerList| && currentWorkerList[i].uid == uid :: k == Some(i)
    {
      for i := 0 to |currentWorkerList|
        invariant forall h | 0 <= h < i :: currentWorkerList[h].uid != uid
      {
        if currentWorkerList[i].uid == uid {
          forall h | 0 <= h < |currentWorkerList| && currentWorkerList[h].uid == uid ensures h == i {
            assert Uids(currentWorkerList)[h] == Uids(currentWorkerList)[i];
          }
          return Some(i);
        }
      }
      return None;
    }

    /** `findIdealWorker`: a ready worker with statistics that no other beats in points, then in
        `getQueueSize`; the last one among equals. */
    method FindIdealWorker(priority: nat) returns (result: Option<nat>)
      requires Valid() && priority < 4
      requires forall i | 0 <= i < |currentWorkerList| && Eligible(currentWorkerList[i]) ::
        priority < |currentWorkerList[i].stats.taskQueue|
      requires forall i | 0 <= i < |currentWorkerList| :: currentWorkerList[i].uid != ""
      ensures result.None? <==> forall i | 0 <= i < |currentWorkerList| :: !Eligible(currentWorkerList[i])
      ensures result.Some? ==>
        && result.value < |currentWorkerList| && Eligible(currentWorkerList[result.value])
        && forall i | 0 <= i < |currentWorkerList| && Eligible(currentWorkerList[i]) ::
             && NotBetter(currentWorkerList[i], currentWorkerList[result.value], priority)
             && (i > result.value ==> !NotBetter(currentWorkerList[result.value], currentWorkerList[i], priority))
    {
      var list := currentWorkerList;
      var firstElement := false;
      var finalQueueSize: int, finalUid, finalPoints := 0, "", Finite(0.0);
      ghost var best: nat := 0;
      for i := 0 to |list|
        invariant firstElement <==> finalUid != ""
        invariant !firstElement ==> forall h | 0 <= h < i :: !Eligible(list[h])
        invariant firstElement ==>
          && best < i && Eligible(list[best]) && finalUid == list[best].uid
          && finalPoints == PointsOf(list[best].stats, priority) && finalQueueSize == QueueSize(list[best])
        invariant firstElement ==> forall h | 0 <= h < i && Eligible(list[h]) ::
          NotBetter(list[h], list[best], priority) && (h > best ==> !NotBetter(list[best], list[h], priority))
      {
        var worker := list[i];
        if worker.ready {
          if |worker.stats.taskQueue| == 0 { continue; }
          var avgTime := AverageTime(worker.stats, priority);
          var tempPoints := Ratio(avgTime, worker.stats.threads);
          if firstElement {
            if !AtMost(tempPoints, finalPoints) { continue; }
            if tempPoints == finalPoints && QueueSize(worker) > finalQueueSize { continue; }
          }
          firstElement := true;
          finalQueueSize, finalUid, finalPoints := QueueSize(worker), worker.uid, tempPoints;
          best := i;
        }
      }
      if finalUid == "" { return None; }
      result := GetWorkerFromUid(finalUid);
    }
  }

  lemma NewUid(workers: seq<Entry>, dead: seq<string>, e: Entry)
    requires UidsDistinct(Uids(workers), dead) && e.uid !in Uids(workers) && e.uid !in dead
    ensures UidsDistinct(Uids([e] + workers), dead)
  {
    assert Uids([e] + workers) == [e.uid] + Uids(workers);
  }

  lemma GoneUid(workers: seq<Entry>, dead: seq<string>, k: nat)
    requires UidsDistinct(Uids(workers), dead) && k < |workers|
    ensures UidsDistinct(Uids(workers[..k] + workers[k + 1..]), [workers[k].uid] + dead)
  {
    var us, rest := Uids(workers), Uids(workers[..k] + workers[k + 1..]);
    assert rest == us[..k] + us[k + 1..];
    assert us[k] == workers[k].uid && us[k] in us;
    forall u | u in rest ensures u in us && u != us[k] {
      var i :| 0 <= i < |rest| && rest[i] == u;
      assert u == us[if i < k then i else i + 1];
    }
  }

  // ---------------------------------------------------------------- points

  /** A quotient of doubles without the invalid ones. */
  datatype Points = Least | Finite(value: real) | Most

  predicate AtMost(a: Points, b: Points) {
    a.Least? || b.Most? || (a.Finite? && b.Finite? && a.value <= b.value)
  }

  function Ratio(time: real, threads: int): Points {
    if time == 0.0 then Finite(0.0)
    else if threads == 0 then if time > 0.0 then Most else Least
    else Finite(time / threads as real)
  }

  predicate Eligible(e: Entry) { e.ready && e.stats.taskQueue != [] }

  /** Time the tasks of this and the higher priorities take. */
  function QueueTime(stats: Stats, priority: nat): real
    requires priority < |stats.taskQueue|
  {
    stats.avgQueueTime * stats.taskQueue[priority] as real +
      (if priority == 0 then 0.0 else QueueTime(stats, priority - 1))
  }

  function PointsOf(stats: Stats, priority: nat): Points {
    if priority < |stats.taskQueue| then Ratio(QueueTime(stats, priority), stats.threads) else Most
  }

  method AverageTime(stats: Stats, priority: nat) returns (avgTime: real)
    requires priority < |stats.taskQueue|
    ensures avgTime == QueueTime(stats, priority)
  {
    avgTime := 0.0;
    var i: int := priority;
    while i >= 0
      invariant -1 <= i <= priority
      invariant avgTime + (if i >= 0 then QueueTime(stats, i) else 0.0) == QueueTime(stats, priority)
    {
      if stats.taskQueue[i] != 0 {
        avgTime := avgTime + stats.avgQueueTime * stats.taskQueue[i] as real;
      }
      i := i - 1;
    }
  }

  /** The tasks waiting at this and the higher priorities. */
  function Waiting(taskQueue: seq<int>, priority: nat): int
    requires priority < |taskQueue|
  {
    Sum(taskQueue[..priority + 1])
  }

  function Sum(ns: seq<int>): int {
    if ns == [] then 0 else ns[0] + Sum(ns[1..])
  }

  lemma {:induction false} SumSnoc(ns: seq<int>, n: int)
    ensures Sum(ns + [n]) == Sum(ns) + n
  {
    if ns == [] {
      assert [] + [n] == [n] && [n][1..] == [];
    } else {
      assert (ns + [n])[1..] == ns[1..] + [n];
      SumSnoc(ns[1..], n);
    }
  }

  /** The queue time is the average time of one task, as often as tasks wait. */
  lemma {:induction false} TimeOfTasks(stats: Stats, priority: nat)
    requires priority < |stats.taskQueue|
    ensures QueueTime(stats, priority) == stats.avgQueueTime * Waiting(stats.taskQueue, priority) as real
  {
    var q := stats.taskQueue;
    SumSnoc(q[..priority], q[priority]);
    assert q[..priority + 1] == q[..priority] + [q[priority]];
    if priority > 0 {
      TimeOfTasks(stats, priority - 1);
      Distribute(stats.avgQueueTime, Sum(q[..priority]), q[priority]);
    }
  }

  lemma Distribute(x: real, a: int, b: int)
    ensures x * a as real + x * b as real == x * (a + b) as real
  {
    assert (a + b) as real == a as real + b as real;
  }

  /** Of two workers with threads the one is no worse in points whose tasks per thread take no
      longer, compared without dividing. */
  lemma PointsCompared(a: Stats, b: Stats, priority: nat)
    requires priority < |a.taskQueue| && priority < |b.taskQueue| && a.threads > 0 && b.threads > 0
    ensures AtMost(PointsOf(a, priority), PointsOf(b, priority)) <==>
      a.avgQueueTime * Waiting(a.taskQueue, priority) as real * b.threads as real
        <= b.avgQueueTime * Waiting(b.taskQueue, priority) as real * a.threads as real
  {
    TimeOfTasks(a, priority);
    TimeOfTasks(b, priority);
    Quotients(QueueTime(a, priority), a.threads as real, QueueTime(b, priority), b.threads as real);
  }

  /** A worker none of whose tasks take time has no points, with threads or without; without threads
      any other one is as bad as can be. */
  lemma IdlePoints(stats: Stats, priority: nat)
    requires priority < |stats.taskQueue|
    ensures var time := stats.avgQueueTime * Waiting(stats.taskQueue, priority) as real;
      && (time == 0.0 ==> PointsOf(stats, priority) == Finite(0.0))
      && (time > 0.0 && stats.threads == 0 ==> forall other :: AtMost(other, PointsOf(stats, priority)))
  {
    TimeOfTasks(stats, priority);
  }

  lemma Quotients(x: real, m: real, y: real, n: real)
    requires m > 0.0 && n > 0.0
    ensures x / m <= y / n <==> x * n <= y * m
  {
    var p, q := x / m, y / n;
    assert x == p * m && y == q * n;
    assert x * n == p * (m * n) && y * m == q * (m * n);
    assert p <= q <==> p * (m * n) <= q * (m * n);
  }

  /** `getQueueSize`: the half of WORKER_QUEUE_SIZE is computed in integers and comes out 0. */
  function QueueSize(e: Entry): int {
    W.WORKER_QUEUE_SIZE * (1 / 2) - (e.queued + e.pending)
  }

  /** b is at least as good as a: fewer points, or as many and no larger queue size. */
  predicate NotBetter(a: Entry, b: Entry, priority: nat) {
    var x, y := PointsOf(a.stats, priority), PointsOf(b.stats, priority);
    AtMost(y, x) && (x == y ==> QueueSize(b) <= QueueSize(a))
  }

  /** So among workers with equal points the one with the most packets waiting is taken. */
  lemma FullestOfEquals(a: Entry, b: Entry, priority: nat)
    requires PointsOf(a.stats, priority) == PointsOf(b.stats, priority)
    ensures NotBetter(a, b, priority) <==> b.queued + b.pending >= a.queued + a.pending
  {
  }
}
