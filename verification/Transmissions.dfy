/** What a worker is handed over a whole run: a packet that is to be sent again is what the next
    fetch gives, and any other fetch gives the first packet that may be sent. */

module Transmissions {
  import opened Wrappers
  import opened Worker

  // ---------------------------------------------------------------- one fetch

  /** Any plain packet may be sent, and one that wants an acknowledgement while at most ten others
      wait for theirs. */
  ghost predicate MaySend(w: Window, p: Packet) { !p.ackable || |w.ackPendingQueue| <= 10 }

  /** The packet is the first in the queue that may be sent. */
  ghost predicate FirstToSend(w: Window, i: nat) {
    i < |w.senderQueue| && MaySend(w, w.senderQueue[i]) && forall h | 0 <= h < i :: !MaySend(w, w.senderQueue[h])
  }

  /** With no packet to be sent again, a fetch takes the first packet that may be sent out of the
      queue; it gives nothing exactly when there is none. */
  lemma FetchTakesFirst(w: Window, i: nat)
    requires !w.ackPacketPop || w.ackPendingQueue == []
    requires FirstToSend(w, i) || (i == |w.senderQueue| && forall p | p in w.senderQueue :: !MaySend(w, p))
    ensures var (v, packet) := Fetched(w);
      && !v.ackPacketPop && v.accepted == w.accepted && v.acked == w.acked
      && if i == |w.senderQueue| then packet == None && v == w.(ackPacketPop := false)
         else
           var p := w.senderQueue[i];
           && packet == Some(p) && v.senderQueue == w.senderQueue[..i] + w.senderQueue[i + 1..]
           && v.ackPendingQueue == (if p.ackable then w.ackPendingQueue + [p] else w.ackPendingQueue)
           && v.sent == (if p.ackable then w.sent + [p] else w.sent)
           && v.plain == (if p.ackable then w.plain else w.plain + [p])
  {
    var q := w.senderQueue;
    if i < |q| {
      assert forall h | 0 <= h < i :: q[h].ackable;
      if i == 0 { assert q[..0] + q[1..] == q[1..]; }
    } else {
      assert forall h | 0 <= h < |q| :: q[h] in q;
    }
  }

  /** A packet pushed to the front comes before the other pending ones, which keep their order. */
  lemma {:induction false} RemovedOnce(q: seq<Packet>, i: nat)
    requires i < |q| && NoRepeats(q)
    ensures Removed(q, q[i]) == q[..i] + q[i + 1..]
  {
    var p, rest := q[i], q[1..];
    assert forall h, k | 0 <= h < k < |rest| :: rest[h] == q[h + 1] && rest[k] == q[k + 1];
    if i == 0 {
      NotThere(rest, p);
      assert q[..0] + q[1..] == rest;
    } else {
      RemovedOnce(rest, i - 1);
      assert q[0] != p;
      assert [q[0]] + (rest[..i - 1] + rest[i..]) == q[..i] + q[i + 1..];
    }
  }

  lemma {:induction false} NotThere(q: seq<Packet>, p: Packet)
    requires p !in q
    ensures Removed(q, p) == q
  {
    if q != [] { NotThere(q[1..], p); }
  }

  lemma PendingDistinct(w: Window)
    requires Fine(w)
    ensures NoRepeats(w.ackPendingQueue)
  {
    var q := w.ackPendingQueue;
    forall i, j | 0 <= i < j < |q| ensures q[i] != q[j] {
      PendingOnce(w, q[i]);
      assert q == q[..j] + [q[j]] + q[j + 1..] && q[i] in q[..j];
    }
  }

  /** A fetch right after a packet was pushed to the front hands out that packet, and changes
      nothing but the flag. */
  lemma ResendAnswered(w: Window, i: nat)
    requires Fine(w) && i < |w.ackPendingQueue|
    ensures var p, v := w.ackPendingQueue[i], Resent(w, w.ackPendingQueue[i]);
      && v == w.(ackPacketPop := true, ackPendingQueue := [p] + (w.ackPendingQueue[..i] + w.ackPendingQueue[i + 1..]))
      && Fetched(v) == (v.(ackPacketPop := false), Some(p))
  {
    PendingDistinct(w);
    RemovedOnce(w.ackPendingQueue, i);
  }

  // ---------------------------------------------------------------- runs

  /** What the operations of a run hand out, one entry for each operation. */
  function Handed(w: Window, ops: seq<Operation>): (h: seq<Option<Packet>>)
    ensures |h| == |ops|
    decreases |ops|
  {
    if ops == [] then []
    else [if ops[0].Fetch? then Fetched(w).1 else None] + Handed(Apply(w, ops[0]), ops[1..])
  }

  lemma {:induction false} RunSplit(w: Window, a: seq<Operation>, b: seq<Operation>)
    ensures Run(w, a + b) == Run(Run(w, a), b)
    ensures AllowedRun(w, a + b) <==> AllowedRun(w, a) && AllowedRun(Run(w, a), b)
    ensures Handed(w, a + b) == Handed(w, a) + Handed(Run(w, a), b)
    decreases |a|
  {
    if a == [] {
      assert a + b == b;
    } else {
      RunSplit(Apply(w, a[0]), a[1..], b);
      assert (a + b)[1..] == a[1..] + b;
    }
  }

  /** A fetch in a run hands out what a fetch in the state it finds hands out. */
  lemma {:induction false} HandedAt(ops: seq<Operation>, j: nat)
    requires j < |ops| && AllowedRun(Fresh, ops)
    ensures var w := Run(Fresh, ops[..j]);
      Fine(w) && Allowed(w, ops[j]) && Run(Fresh, ops[..j + 1]) == Apply(w, ops[j])
      && Handed(Fresh, ops)[j] == if ops[j].Fetch? then Fetched(w).1 else None
  {
    var w := Run(Fresh, ops[..j]);
    assert ops == ops[..j] + ops[j..] && ops[j..] == [ops[j]] + ops[j + 1..] && ops[..j + 1] == ops[..j] + [ops[j]];
    RunSplit(Fresh, ops[..j], ops[j..]);
    RunSplit(Fresh, ops[..j], [ops[j]]);
    RunKeeps(Fresh, ops[..j]);
    assert [ops[j]][1..] == [];
    assert Run(w, [ops[j]]) == Run(Apply(w, ops[j]), []);
  }

  /** Since the resend nothing was fetched and no other packet was pushed to the front. */
  ghost predicate Undisturbed(ops: seq<Operation>, i: nat, j: nat)
    requires j <= |ops|
  {
    forall h | i < h < j :: !ops[h].Fetch? && !ops[h].Resend?
  }

  lemma {:induction false} FrontStays(ops: seq<Operation>, i: nat, j: nat, p: Packet)
    requires AllowedRun(Fresh, ops) && i < j <= |ops| && ops[i] == Resend(p) && Undisturbed(ops, i, j)
    ensures InFront(Run(Fresh, ops[..j]), p)
    decreases j
  {
    HandedAt(ops, j - 1);
    if i + 1 < j {
      FrontStays(ops, i, j - 1, p);
      FrontKept(Run(Fresh, ops[..j - 1]), ops[j - 1], p);
    }
  }

  /** The flag is set, and the packet comes first if it is pending. */
  ghost predicate InFront(w: Window, p: Packet) {
    w.ackPacketPop && (p in w.ackPendingQueue ==> w.ackPendingQueue[0] == p)
  }

  lemma FrontKept(w: Window, op: Operation, p: Packet)
    requires Fine(w) && Allowed(w, op) && !op.Fetch? && !op.Resend? && InFront(w, p)
    ensures InFront(Apply(w, op), p)
  {
    PendingDistinct(w);
  }

  /** In every run, a resend of a packet is answered with it by the next fetch, unless it was
      acknowledged or another packet pushed to the front in between. */
  lemma {:induction false} ResendHandedOut(ops: seq<Operation>, i: nat, j: nat, p: Packet)
    requires AllowedRun(Fresh, ops) && i < j < |ops| && ops[i] == Resend(p) && ops[j] == Fetch
    requires Undisturbed(ops, i, j) && p in Run(Fresh, ops[..j]).ackPendingQueue
    ensures Handed(Fresh, ops)[j] == Some(p)
  {
    FrontStays(ops, i, j, p);
    HandedAt(ops, j);
  }

  /** Some packet was pushed to the front, and nothing fetched since. */
  ghost predicate ResendDue(ops: seq<Operation>, j: nat)
    requires j <= |ops|
  {
    exists i | 0 <= i < j :: ops[i].Resend? && forall h | i < h < j :: !ops[h].Fetch?
  }

  lemma {:induction false} FlagSet(ops: seq<Operation>, j: nat)
    requires AllowedRun(Fresh, ops) && j <= |ops|
    ensures Run(Fresh, ops[..j]).ackPacketPop <==> ResendDue(ops, j)
    decreases j
  {
    if j > 0 {
      FlagSet(ops, j - 1);
      HandedAt(ops, j - 1);
      DueNext(ops, j - 1);
    }
  }

  lemma DueNext(ops: seq<Operation>, j: nat)
    requires j < |ops|
    ensures ResendDue(ops, j + 1) <==> ops[j].Resend? || (ResendDue(ops, j) && !ops[j].Fetch?)
  {
    if ResendDue(ops, j) && !ops[j].Fetch? {
      var i :| 0 <= i < j && ops[i].Resend? && forall h | i < h < j :: !ops[h].Fetch?;
      assert ops[i].Resend? && forall h | i < h < j + 1 :: !ops[h].Fetch?;
    }
    if ops[j].Resend? { assert ResendDue(ops, j + 1); }
  }

  /** What a fetch of a run hands out, told by the history: with a resend due, the first pending
      packet, and nothing moves; otherwise the first packet in the queue that may be sent, for the
      first time. A packet is never transmitted again but after a resend. */
  lemma {:induction false} EveryFetch(ops: seq<Operation>, j: nat)
    requires AllowedRun(Fresh, ops) && j < |ops| && ops[j] == Fetch
    ensures var w, v := Run(Fresh, ops[..j]), Run(Fresh, ops[..j + 1]);
      if ResendDue(ops, j) && w.ackPendingQueue != [] then
        Handed(Fresh, ops)[j] == Some(w.ackPendingQueue[0]) && v == w.(ackPacketPop := false)
      else match Handed(Fresh, ops)[j]
        case None => v == w.(ackPacketPop := false) && forall p | p in w.senderQueue :: !MaySend(w, p)
        case Some(p) =>
          && p !in w.sent && p !in w.plain && (exists i: nat :: FirstToSend(w, i) && w.senderQueue[i] == p)
          && p in if p.ackable then v.sent else v.plain
  {
    FlagSet(ops, j);
    HandedAt(ops, j);
    var w := Run(Fresh, ops[..j]);
    if !(w.ackPacketPop && w.ackPendingQueue != []) {
      var i := NextToSend(w, 0);
      FetchTakesFirst(w, i);
      if i < |w.senderQueue| { NotSentBefore(w, i); }
    }
  }

  function NextToSend(w: Window, from: nat): (i: nat)
    requires from <= |w.senderQueue|
    requires forall h | 0 <= h < from :: !MaySend(w, w.senderQueue[h])
    ensures FirstToSend(w, i) || (i == |w.senderQueue| && forall p | p in w.senderQueue :: !MaySend(w, p))
    decreases |w.senderQueue| - from
  {
    if from == |w.senderQueue| || !w.senderQueue[from].ackable || |w.ackPendingQueue| <= 10 then from
    else NextToSend(w, from + 1)
  }

  lemma NotSentBefore(w: Window, i: nat)
    requires Fine(w) && i < |w.senderQueue|
    ensures w.senderQueue[i] !in w.sent && w.senderQueue[i] !in w.plain
  {
    var p := w.senderQueue[i];
    Conserved(w);
    CountedOnce(w.accepted, p);
    assert multiset(w.senderQueue)[p] >= 1;
    assert p in w.sent ==> p in multiset(w.sent);
    assert p in w.plain ==> multiset(w.plain)[p] >= 1;
  }

  // ---------------------------------------------------------------- progress

  /** Fetching and acknowledging empties both queues. */
  lemma {:induction false} Emptied(w: Window) returns (more: seq<Operation>)
    requires Fine(w)
    ensures AllowedRun(w, more) && (forall h | 0 <= h < |more| :: more[h].Fetch? || more[h].Acknowledge?)
    ensures var v := Run(w, more);
      Fine(v) && v.senderQueue == [] && v.ackPendingQueue == [] && v.accepted == w.accepted
    decreases 2 * |w.senderQueue| + |w.ackPendingQueue|
  {
    if w.senderQueue == [] && w.ackPendingQueue == [] {
      return [];
    }
    var op := EmptyingStep(w);
    var rest := Emptied(Apply(w, op));
    more := [op] + rest;
    assert more[1..] == rest;
  }

  lemma EmptyingStep(w: Window) returns (op: Operation)
    requires Fine(w) && (w.senderQueue != [] || w.ackPendingQueue != [])
    ensures (op.Fetch? || op.Acknowledge?) && Allowed(w, op)
    ensures var v := Apply(w, op);
      && Fine(v) && v.accepted == w.accepted
      && 2 * |v.senderQueue| + |v.ackPendingQueue| < 2 * |w.senderQueue| + |w.ackPendingQueue|
  {
    if w.ackPendingQueue != [] {
      op := Acknowledge(w.ackPendingQueue[0].id);
    } else {
      op := Fetch;
      FetchTakesFirst(w, 0);
    }
    StepKeeps(w, op);
  }

  /** However a run went, it can be continued so that every accepted packet is acknowledged, or was
      sent and wanted no acknowledgement. */
  lemma AllDeliverable(ops: seq<Operation>) returns (more: seq<Operation>)
    requires AllowedRun(Fresh, ops)
    ensures AllowedRun(Fresh, ops + more) && (forall h | 0 <= h < |more| :: more[h].Fetch? || more[h].Acknowledge?)
    ensures var v := Run(Fresh, ops + more);
      && v.accepted == Run(Fresh, ops).accepted
      && multiset(v.acked) + multiset(v.plain) == multiset(v.accepted)
  {
    RunKeeps(Fresh, ops);
    more := Emptied(Run(Fresh, ops));
    RunSplit(Fresh, ops, more);
    Conserved(Run(Fresh, ops + more));
  }
}
