/** The send queue of a worker: packets wait, are fetched, and those that want an
    acknowledgement stay in a window until it comes. */

module Worker {
  import opened Wrappers

  const WORKER_QUEUE_SIZE := 20

  /** A packet in flight; the serial number is its identity, the id that of its data. */
  datatype Packet = Packet(serial: nat, id: string, ackable: bool)

  /** The state of a worker's queues, and what has happened to the packets it accepted. */
  datatype Window = Window(
    senderQueue: seq<Packet>, ackPendingQueue: seq<Packet>, ackPacketPop: bool,
    accepted: seq<Packet>,   // in the order of acceptance
    sent: seq<Packet>,       // ackable packets in the order of their first transmission
    plain: seq<Packet>,      // other packets in the order of their transmission
    acked: seq<Packet>)

  const Fresh := Window([], [], false, [], [], [], [])

  // ---------------------------------------------------------------- operations, on values

  function Queued(w: Window, p: Packet): Window {
    if |w.senderQueue| > WORKER_QUEUE_SIZE then w
    else w.(senderQueue := w.senderQueue + [p], accepted := w.accepted + [p])
  }

  /** Position of the first packet that wants no acknowledgement, or the length. */
  function FirstPlain(q: seq<Packet>): (i: nat)
    ensures i <= |q| && (i < |q| ==> !q[i].ackable) && forall h | 0 <= h < i :: q[h].ackable
  {
    if q == [] || !q[0].ackable then 0 else 1 + FirstPlain(q[1..])
  }

  function WindowFull(w: Window): bool { |w.ackPendingQueue| > WORKER_QUEUE_SIZE / 2 }

  /** What a fetch gives, and the state after it. A packet to be sent again goes first. */
  function Fetched(w: Window): (Window, Option<Packet>) {
    if w.ackPacketPop && w.ackPendingQueue != [] then (w.(ackPacketPop := false), Some(w.ackPendingQueue[0]))
    else FetchedNew(w.(ackPacketPop := false))
  }

  function FetchedNew(w: Window): (Window, Option<Packet>) {
    if w.senderQueue == [] then (w, None)
    else
      var p, rest := w.senderQueue[0], w.senderQueue[1..];
      if !p.ackable then (w.(senderQueue := rest, plain := w.plain + [p]), Some(p))
      else if !WindowFull(w) then
        (w.(senderQueue := rest, ackPendingQueue := w.ackPendingQueue + [p], sent := w.sent + [p]), Some(p))
      else
        var i := FirstPlain(w.senderQueue);
        if i == |w.senderQueue| then (w, None)
        else (w.(senderQueue := w.senderQueue[..i] + w.senderQueue[i + 1..], plain := w.plain + [w.senderQueue[i]]),
          Some(w.senderQueue[i]))
  }

  /** Position of the first packet about the data with this id, or the length. */
  function FirstAbout(q: seq<Packet>, id: string): (i: nat)
    ensures i <= |q| && (i < |q| ==> q[i].id == id) && forall h | 0 <= h < i :: q[h].id != id
  {
    if q == [] || q[0].id == id then 0 else 1 + FirstAbout(q[1..], id)
  }

  function Acknowledged(w: Window, id: string): Window {
    var i := FirstAbout(w.ackPendingQueue, id);
    if i == |w.ackPendingQueue| then w
    else
      w.(ackPendingQueue := w.ackPendingQueue[..i] + w.ackPendingQueue[i + 1..],
         acked := w.acked + [w.ackPendingQueue[i]])
  }

  function Removed(q: seq<Packet>, p: Packet): seq<Packet> {
    if q == [] then [] else (if q[0] == p then [] else [q[0]]) + Removed(q[1..], p)
  }

  function Resent(w: Window, p: Packet): Window {
    w.(ackPendingQueue := [p] + Removed(w.ackPendingQueue, p), ackPacketPop := true)
  }

  // ---------------------------------------------------------------- runs

  datatype Operation = Queue(p: Packet) | Fetch | Acknowledge(id: string) | Resend(p: Packet)

  /** A packet is offered once, and only a pending one is sent again. */
  predicate Allowed(w: Window, op: Operation) {
    match op
    case Queue(p) => p !in w.accepted
    case Resend(p) => p in w.ackPendingQueue
    case _ => true
  }

  function Apply(w: Window, op: Operation): Window {
    match op
    case Queue(p) => Queued(w, p)
    case Fetch => Fetched(w).0
    case Acknowledge(id) => Acknowledged(w, id)
    case Resend(p) => Resent(w, p)
  }

  predicate AllowedRun(w: Window, ops: seq<Operation>)
    decreases |ops|
  {
    ops == [] || (Allowed(w, ops[0]) && AllowedRun(Apply(w, ops[0]), ops[1..]))
  }

  function Run(w: Window, ops: seq<Operation>): Window
    decreases |ops|
  {
    if ops == [] then w else Run(Apply(w, ops[0]), ops[1..])
  }

  // ---------------------------------------------------------------- what every operation keeps

  function Ackables(q: seq<Packet>): seq<Packet> {
    if q == [] then [] else (if q[0].ackable then [q[0]] else []) + Ackables(q[1..])
  }

  function Plains(q: seq<Packet>): seq<Packet> {
    if q == [] then [] else (if q[0].ackable then [] else [q[0]]) + Plains(q[1..])
  }

  /** First transmissions and the queue together are the accepted packets in order, for either
      kind; what was sent and wants an acknowledgement is pending or acknowledged. */
  ghost predicate Fine(w: Window) {
    && NoRepeats(w.accepted)
    && Ackables(w.accepted) == w.sent + Ackables(w.senderQueue)
    && Plains(w.accepted) == w.plain + Plains(w.senderQueue)
    && multiset(w.sent) == multiset(w.ackPendingQueue) + multiset(w.acked)
    && |w.ackPendingQueue| <= WORKER_QUEUE_SIZE / 2 + 1
    && |w.senderQueue| <= WORKER_QUEUE_SIZE + 1
  }

  lemma {:induction false} KindsAppend(a: seq<Packet>, b: seq<Packet>)
    ensures Ackables(a + b) == Ackables(a) + Ackables(b) && Plains(a + b) == Plains(a) + Plains(b)
  {
    AckablesAppend(a, b);
    PlainsAppend(a, b);
  }

  lemma {:induction false} AckablesAppend(a: seq<Packet>, b: seq<Packet>)
    ensures Ackables(a + b) == Ackables(a) + Ackables(b)
  {
    if a == [] {
      assert a + b == b;
    } else {
      assert (a + b)[0] == a[0] && (a + b)[1..] == a[1..] + b;
      AckablesAppend(a[1..], b);
      Associates(if a[0].ackable then [a[0]] else [], Ackables(a[1..]), Ackables(b));
    }
  }

  lemma {:induction false} PlainsAppend(a: seq<Packet>, b: seq<Packet>)
    ensures Plains(a + b) == Plains(a) + Plains(b)
  {
    if a == [] {
      assert a + b == b;
    } else {
      assert (a + b)[0] == a[0] && (a + b)[1..] == a[1..] + b;
      PlainsAppend(a[1..], b);
      Associates(if a[0].ackable then [] else [a[0]], Plains(a[1..]), Plains(b));
    }
  }

  lemma Associates(x: seq<Packet>, y: seq<Packet>, z: seq<Packet>)
    ensures (x + y) + z == x + (y + z)
  {
  }

  lemma KindsOne(p: Packet)
    ensures Ackables([p]) == (if p.ackable then [p] else []) && Plains([p]) == (if p.ackable then [] else [p])
  {
    assert [p][1..] == [];
  }

  lemma {:induction false} AckablesOnly(q: seq<Packet>)
    requires forall h | 0 <= h < |q| :: q[h].ackable
    ensures Plains(q) == [] && Ackables(q) == q
  {
    if q != [] { AckablesOnly(q[1..]); }
  }

  lemma {:induction false} KindsTogether(q: seq<Packet>)
    ensures multiset(q) == multiset(Ackables(q)) + multiset(Plains(q))
  {
    if q != [] {
      KindsTogether(q[1..]);
      assert q == [q[0]] + q[1..];
    }
  }

  lemma QueueKeeps(w: Window, p: Packet)
    requires Fine(w) && p !in w.accepted
    ensures Fine(Queued(w, p))
  {
    if |w.senderQueue| <= WORKER_QUEUE_SIZE {
      KindsAppend(w.accepted, [p]);
      KindsAppend(w.senderQueue, [p]);
      KindsOne(p);
      var r := Queued(w, p);
      Associates(w.sent, Ackables(w.senderQueue), Ackables([p]));
      Associates(w.plain, Plains(w.senderQueue), Plains([p]));
      forall i, j | 0 <= i < j < |r.accepted| ensures r.accepted[i] != r.accepted[j] {
        assert r.accepted[i] == w.accepted[i];
      }
    }
  }

  lemma FetchFirstKeeps(w: Window)
    requires Fine(w) && w.senderQueue != [] && (w.senderQueue[0].ackable ==> !WindowFull(w))
    ensures Fine(FetchedNew(w).0)
  {
    var p, rest := w.senderQueue[0], w.senderQueue[1..];
    if p.ackable {
      assert w.sent + ([p] + Ackables(rest)) == (w.sent + [p]) + Ackables(rest);
    } else {
      assert w.plain + ([p] + Plains(rest)) == (w.plain + [p]) + Plains(rest);
      assert [] + Ackables(rest) == Ackables(rest);
    }
  }

  lemma FetchPlainKeeps(w: Window)
    requires Fine(w) && w.senderQueue != [] && w.senderQueue[0].ackable && WindowFull(w)
    ensures Fine(FetchedNew(w).0)
  {
    var q, i := w.senderQueue, FirstPlain(w.senderQueue);
    if i < |q| {
      var front, p, back := q[..i], q[i], q[i + 1..];
      assert q == front + ([p] + back);
      KindsAppend(front, [p] + back);
      KindsAppend([p], back);
      KindsAppend(front, back);
      KindsOne(p);
      AckablesOnly(front);
      assert w.plain + ([] + ([p] + Plains(back))) == (w.plain + [p]) + ([] + Plains(back));
      assert front + ([] + Ackables(back)) == front + Ackables(back);
    }
  }

  lemma FetchKeeps(w: Window)
    requires Fine(w)
    ensures Fine(Fetched(w).0)
  {
    var u := w.(ackPacketPop := false);
    if !(w.ackPacketPop && w.ackPendingQueue != []) && u.senderQueue != [] {
      if u.senderQueue[0].ackable && WindowFull(u) { FetchPlainKeeps(u); } else { FetchFirstKeeps(u); }
    }
  }

  lemma TakenOut(q: seq<Packet>, i: nat)
    requires i < |q|
    ensures multiset(q) == multiset(q[..i] + q[i + 1..]) + multiset{q[i]}
  {
    assert q == q[..i] + [q[i]] + q[i + 1..];
  }

  lemma AcknowledgeKeeps(w: Window, id: string)
    requires Fine(w)
    ensures Fine(Acknowledged(w, id))
  {
    var i := FirstAbout(w.ackPendingQueue, id);
    if i < |w.ackPendingQueue| { AcknowledgedOne(w, id, i, Acknowledged(w, id)); }
  }

  lemma {:induction false} AcknowledgedOne(w: Window, id: string, i: nat, v: Window)
    requires Fine(w) && i == FirstAbout(w.ackPendingQueue, id) < |w.ackPendingQueue| && v == Acknowledged(w, id)
    ensures Fine(v)
  {
    Moved(w.ackPendingQueue, w.acked, i);
    assert v.accepted == w.accepted && v.sent == w.sent && v.senderQueue == w.senderQueue && v.plain == w.plain;
    assert NoRepeats(v.accepted);
    assert Ackables(v.accepted) == v.sent + Ackables(v.senderQueue);
    assert Plains(v.accepted) == v.plain + Plains(v.senderQueue);
    assert v.ackPendingQueue == w.ackPendingQueue[..i] + w.ackPendingQueue[i + 1..]
        && v.acked == w.acked + [w.ackPendingQueue[i]];
    assert multiset(v.sent) == multiset(v.ackPendingQueue) + multiset(v.acked);
    assert |v.ackPendingQueue| <= WORKER_QUEUE_SIZE / 2 + 1 && |v.senderQueue| <= WORKER_QUEUE_SIZE + 1;
  }

  lemma Moved(q: seq<Packet>, acked: seq<Packet>, i: nat)
    requires i < |q|
    ensures multiset(q[..i] + q[i + 1..]) + multiset(acked + [q[i]]) == multiset(q) + multiset(acked)
    ensures |q[..i] + q[i + 1..]| <= |q|
  {
    TakenOut(q, i);
    assert multiset(acked + [q[i]]) == multiset(acked) + multiset{q[i]};
  }

  lemma {:induction false} RemovedRest(q: seq<Packet>, p: Packet)
    ensures multiset(Removed(q, p)) == multiset(q)[p := 0]
  {
    if q != [] {
      RemovedRest(q[1..], p);
      assert q == [q[0]] + q[1..];
    }
  }

  /** Every accepted packet is in exactly one of the sender queue, the pending queue, the
      acknowledged and the plainly sent ones. */
  lemma Conserved(w: Window)
    requires Fine(w)
    ensures multiset(w.accepted) ==
      multiset(w.senderQueue) + multiset(w.ackPendingQueue) + multiset(w.acked) + multiset(w.plain)
  {
    KindsTogether(w.accepted);
    KindsTogether(w.senderQueue);
    var a, b := multiset(Ackables(w.senderQueue)), multiset(Plains(w.senderQueue));
    assert multiset(w.accepted) == (multiset(w.sent) + a) + (multiset(w.plain) + b);
  }

  lemma PendingOnce(w: Window, p: Packet)
    requires Fine(w)
    ensures multiset(w.ackPendingQueue)[p] <= 1
  {
    Conserved(w);
    CountedOnce(w.accepted, p);
  }

  lemma ResendKeeps(w: Window, p: Packet)
    requires Fine(w) && p in w.ackPendingQueue
    ensures Fine(Resent(w, p))
  {
    PendingOnce(w, p);
    RemovedRest(w.ackPendingQueue, p);
    var q := w.ackPendingQueue;
    assert multiset([p] + Removed(q, p)) == multiset{p} + multiset(q)[p := 0] == multiset(q);
    assert |multiset([p] + Removed(q, p))| == |[p] + Removed(q, p)| && |multiset(q)| == |q|;
  }

  lemma StepKeeps(w: Window, op: Operation)
    requires Fine(w) && Allowed(w, op)
    ensures Fine(Apply(w, op))
  {
    match op
    case Queue(p) => QueueKeeps(w, p);
    case Fetch => FetchKeeps(w);
    case Acknowledge(id) => AcknowledgeKeeps(w, id);
    case Resend(p) => ResendKeeps(w, p);
  }

  lemma {:induction false} RunKeeps(w: Window, ops: seq<Operation>)
    requires Fine(w) && AllowedRun(w, ops)
    ensures Fine(Run(w, ops))
    decreases |ops|
  {
    if ops != [] {
      StepKeeps(w, ops[0]);
      RunKeeps(Apply(w, ops[0]), ops[1..]);
    }
  }

  /** After any run from a new worker: each packet in exactly one place, the window bounded,
      both kinds of packets sent for the first time in the order they were queued. */
  lemma {:induction false} RunSafety(ops: seq<Operation>)
    requires AllowedRun(Fresh, ops)
    ensures var w := Run(Fresh, ops);
      && (forall p ::
        multiset(w.senderQueue)[p] + multiset(w.ackPendingQueue)[p] + multiset(w.acked)[p] + multiset(w.plain)[p]
            == if p in w.accepted then 1 else 0)
      && |w.ackPendingQueue| <= 11 && |w.senderQueue| <= 21
      && w.sent <= Ackables(w.accepted) && w.plain <= Plains(w.accepted)
  {
    RunKeeps(Fresh, ops);
    var w := Run(Fresh, ops);
    Conserved(w);
    forall p ensures multiset(w.senderQueue)[p] + multiset(w.ackPendingQueue)[p] + multiset(w.acked)[p] +
      multiset(w.plain)[p]
        == if p in w.accepted then 1 else 0 {
      CountedOnce(w.accepted, p);
    }
  }

  /** What `shutDown` hands back is exactly what was accepted and not delivered. */
  lemma Undelivered(w: Window)
    requires Fine(w)
    ensures multiset(w.ackPendingQueue + w.senderQueue) == multiset(w.accepted) - multiset(w.acked) - multiset(w.plain)
  {
    Conserved(w);
    var rest := multiset(w.acked) + multiset(w.plain);
    assert multiset(w.accepted) == multiset(w.ackPendingQueue + w.senderQueue) + rest;
  }

  // ---------------------------------------------------------------- the object

  class Worker {
    const workerUID: string
    var senderQueue: seq<Packet>
    var ackPendingQueue: seq<Packet>
    var ackPacketPop: bool
    var permits: nat   // of the semaphore that guards the queues
    ghost var accepted: seq<Packet>
    ghost var sent: seq<Packet>
    ghost var plain: seq<Packet>
    ghost var acked: seq<Packet>

    ghost function View(): Window
      reads this
    {
      Window(senderQueue, ackPendingQueue, ackPacketPop, accepted, sent, plain, acked)
    }

    ghost predicate Valid()
      reads this
    {
      Fine(View()) && permits >= 1
    }

    constructor (workerUID: string)
      ensures Valid() && View() == Fresh && permits == 1 && this.workerUID == workerUID
    {
      this.workerUID := workerUID;
      senderQueue, ackPendingQueue, ackPacketPop, permits := [], [], false, 1;
      accepted, sent, plain, acked := [], [], [], [];
    }

    method QueuePacket(packet: Packet) returns (rc: int)
      requires Valid() && packet !in accepted
      modifies this
      ensures Valid() && View() == Queued(old(View()), packet) && permits == old(permits)
      ensures rc == if |old(senderQueue)| > WORKER_QUEUE_SIZE then 1 else 0
    {
      QueueKeeps(View(), packet);
      if |senderQueue| > WORKER_QUEUE_SIZE {
        return 1;
      }
      permits := permits - 1;
      senderQueue := senderQueue + [packet];
      accepted := accepted + [packet];
      permits := permits + 1;
      return 0;
    }

    /** `getQueuedPacket`; None stands for the empty object. The semaphore is posted twice when
        a resend is due and nothing is pending any more. */
    method GetQueuedPacket() returns (packet: Option<Packet>)
      requires Valid()
      modifies this
      ensures Valid() && View() == Fetched(old(View())).0 && packet == Fetched(old(View())).1
      ensures permits == old(permits) + if old(ackPacketPop) && old(ackPendingQueue) == [] then 1 else 0
    {
      FetchKeeps(View());
      packet := TakePacket();
    }

    method TakePacket() returns (packet: Option<Packet>)
      requires permits >= 1
      modifies this
      ensures View() == Fetched(old(View())).0 && packet == Fetched(old(View())).1
      ensures permits == old(permits) + if old(ackPacketPop) && old(ackPendingQueue) == [] then 1 else 0
    {
      permits := permits - 1;
      if ackPacketPop {
        ackPacketPop := false;
        permits := permits + 1;
        if |ackPendingQueue| > 0 {
          return Some(ackPendingQueue[0]);
        }
      }
      packet := PopNext();
      permits := permits + 1;
    }

    /** The rest of the fetch: the first packet, if it may be sent, else one that may. */
    method PopNext() returns (packet: Option<Packet>)
      modifies `senderQueue, `ackPendingQueue, `sent, `plain
      ensures View() == FetchedNew(old(View())).0 && packet == FetchedNew(old(View())).1
    {
      if |senderQueue| == 0 {
        return None;
      }
      var outPacket := senderQueue[0];
      if outPacket.ackable {
        if |ackPendingQueue| > WORKER_QUEUE_SIZE / 2 {
          packet := PopPlain();
          return;
        }
        ackPendingQueue := ackPendingQueue + [outPacket];
        sent := sent + [outPacket];
      } else {
        plain := plain + [outPacket];
      }
      senderQueue := senderQueue[1..];
      return Some(outPacket);
    }

    /** The search for a packet that may be sent although the window is full. */
    method PopPlain() returns (packet: Option<Packet>)
      modifies `senderQueue, `plain
      ensures var i := FirstPlain(old(senderQueue));
        if i == |old(senderQueue)| then packet == None && View() == old(View())
        else
          && packet == Some(old(senderQueue)[i]) && plain == old(plain) + [old(senderQueue)[i]]
          && senderQueue == old(senderQueue)[..i] + old(senderQueue)[i + 1..]
    {
      for i := 0 to |senderQueue|
        invariant View() == old(View()) && forall h | 0 <= h < i :: senderQueue[h].ackable
      {
        if !senderQueue[i].ackable {
          var outPacket := senderQueue[i];
          senderQueue := senderQueue[..i] + senderQueue[i + 1..];
          plain := plain + [outPacket];
          return Some(outPacket);
        }
      }
      return None;
    }

    method MatchAckablePacket(id: string) returns (found: bool)
      requires Valid()
      modifies this
      ensures Valid() && View() == Acknowledged(old(View()), id) && permits == old(permits)
      ensures found <==> FirstAbout(old(ackPendingQueue), id) < |old(ackPendingQueue)|
    {
      AcknowledgeKeeps(View(), id);
      permits := permits - 1;
      found := PopAbout(id);
      permits := permits + 1;
    }

    /** The search for the acknowledged packet. */
    method PopAbout(id: string) returns (found: bool)
      modifies `ackPendingQueue, `acked
      ensures View() == Acknowledged(old(View()), id)
      ensures found <==> FirstAbout(old(ackPendingQueue), id) < |old(ackPendingQueue)|
    {
      for i := 0 to |ackPendingQueue|
        invariant View() == old(View()) && forall h | 0 <= h < i :: ackPendingQueue[h].id != id
      {
        if ackPendingQueue[i].id == id {
          acked := acked + [ackPendingQueue[i]];
          ackPendingQueue := ackPendingQueue[..i] + ackPendingQueue[i + 1..];
          return true;
        }
      }
      return false;
    }

    method PushToFront(outPacket: Packet)
      requires Valid() && outPacket in ackPendingQueue
      modifies this
      ensures Valid() && View() == Resent(old(View()), outPacket) && permits == old(permits)
    {
      ResendKeeps(View(), outPacket);
      permits := permits - 1;
      ackPendingQueue := [outPacket] + Removed(ackPendingQueue, outPacket);
      ackPacketPop := true;
      permits := permits + 1;
    }

    method ShutDown() returns (packets: seq<Packet>)
      requires Valid()
      ensures packets == ackPendingQueue + senderQueue
      ensures multiset(packets) == multiset(accepted) - multiset(acked) - multiset(plain)
    {
      packets := Listed(ackPendingQueue, []);
      packets := Listed(senderQueue, packets);
      Undelivered(View());
    }

    /** Appends a list, packet by packet. */
    static method Listed(list: seq<Packet>, before: seq<Packet>) returns (packets: seq<Packet>)
      ensures packets == before + list
    {
      packets := before;
      for i := 0 to |list|
        invariant packets == before + list[..i]
      {
        packets := packets + [list[i]];
      }
    }
  }
}
