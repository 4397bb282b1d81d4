/**
 * One registration per mailbox: each installed schedule yields exactly the wakeup
 * it owes, a queued wakeup carries the current Head, and the outcome of a visit does
 * not depend on the order in which the clients are visited.
 */
module Schedules {
  import opened Delivery
  import opened Mailbox
  import opened Maps
  import opened Publication
  import opened Registry

  /** The ordinary wakeups a schedule has produced since it was installed: one once it has
      been sent, none if it was installed as already sent. */
  function Owed(wakeSent: bool, mark: Mark): nat { if wakeSent && !mark.startedSent then 1 else 0 }

  predicate QueuedCurrent(q: seq<Item>, p: nat, head: nat) {
    forall i :: 0 <= i < |q| && q[i].GraphWakeup? ==> q[i].publication == p && q[i].revision == head
  }

  predicate ClientExact(b: Box, wakeSent: bool, mark: Mark, p: nat, head: nat) {
    && (mark.startedSent ==> wakeSent)
    && mark.base <= Wakeups(b.delivered, p)
    && Wakeups(b.delivered, p) + Wakeups(b.queue, p) == mark.base + Owed(wakeSent, mark)
    && QueuedCurrent(b.queue, p, head)
  }

  predicate NoWakeups(q: seq<Item>) { forall i :: 0 <= i < |q| ==> !q[i].GraphWakeup? }

  lemma {:induction false} WakeupsJoin(a: seq<Item>, c: seq<Item>, p: nat)
    ensures Wakeups(a + c, p) == Wakeups(a, p) + Wakeups(c, p)
    decreases |c|
  {
    if c == [] {
      assert a + c == a;
    } else {
      assert (a + c)[..|a + c| - 1] == a + c[..|c| - 1];
      WakeupsJoin(a, c[..|c| - 1], p);
    }
  }

  lemma {:induction false} WakeupsNone(q: seq<Item>, p: nat)
    ensures Wakeups(q, p) == 0 <==> forall i :: 0 <= i < |q| ==> !IsWakeup(q[i], p)
    decreases |q|
  {
    if q != [] {
      WakeupsNone(q[..|q| - 1], p);
      assert forall i :: 0 <= i < |q| - 1 ==> q[..|q| - 1][i] == q[i];
    }
  }

  lemma WakeupsLast(q: seq<Item>, i: Item, p: nat)
    ensures Wakeups(q + [i], p) == Wakeups(q, p) + if IsWakeup(i, p) then 1 else 0
  {
    assert (q + [i])[..|q|] == q;
  }

  lemma WakeupsAround(a: seq<Item>, i: Item, c: seq<Item>, p: nat)
    requires IsWakeup(i, p) && Wakeups(a, p) == 0 && Wakeups(c, p) == 0
    ensures Wakeups(a + [i] + c, p) == 1
  {
    WakeupsJoin(a + [i], c, p);
    WakeupsLast(a, i, p);
  }

  lemma WakeupsSplit(q: seq<Item>, k: nat, p: nat)
    requires k < |q| && OneWakeupEach(q) && IsWakeup(q[k], p)
    ensures Wakeups(q[..k], p) == 0 && Wakeups(q[k + 1..], p) == 0
  {
    WakeupsNone(q[..k], p);
    WakeupsNone(q[k + 1..], p);
  }

  lemma WakeupsWithout(q: seq<Item>, p: nat)
    requires OneWakeupEach(q)
    ensures Wakeups(Without(q, p), p) == 0
    ensures Wakeups(q, p) == if Position(q, p) < |q| then 1 else 0
  {
    hide Wakeups, Without, OneWakeupEach;
    WithoutClears(q, p);
    WakeupsNone(Without(q, p), p);
    var k := Position(q, p);
    if k < |q| {
      WakeupsSplit(q, k, p);
      WakeupsAround(q[..k], q[k], q[k + 1..], p);
      assert q == q[..k] + [q[k]] + q[k + 1..];
    } else {
      WakeupsNone(q, p);
    }
  }

  lemma QueueEmptyOf(q: seq<Item>, p: nat, head: nat)
    requires QueuedCurrent(q, p, head) && Wakeups(q, p) == 0
    ensures NoWakeups(q)
  {
    WakeupsNone(q, p);
  }

  lemma ClearedQueue(q: seq<Item>, p: nat, head: nat)
    requires QueuedCurrent(q, p, head) && OneWakeupEach(q)
    ensures NoWakeups(Without(q, p))
  {
    WithoutClears(q, p);
    var c := Without(q, p);
    forall i | 0 <= i < |c| ensures !c[i].GraphWakeup? {
      var k := Position(q, p);
      assert c[i] == q[if i < k then i else i + 1];
    }
  }

  lemma PushedQueue(q: seq<Item>, p: nat, head: nat)
    requires NoWakeups(q)
    ensures Wakeups(q + [GraphWakeup(p, head)], p) == 1
    ensures QueuedCurrent(q + [GraphWakeup(p, head)], p, head)
  {
    WakeupsNone(q, p);
    WakeupsLast(q, GraphWakeup(p, head), p);
  }

  lemma AnnounceExact(b: Box, wakeSent: bool, mark: Mark, p: nat, head: nat, ms: seq<Message>)
    requires ClientExact(b, wakeSent, mark, p, head)
    ensures ClientExact(AdmitRequired(b, ms).1, wakeSent, mark, p, head)
  {
    var more := RequiredItems(ms);
    WakeupsJoin(b.queue, more, p);
    WakeupsNone(more, p);
  }

  lemma CoalesceExact(b: Box, mark: Mark, p: nat, head: nat, r: nat)
    requires ClientExact(b, true, mark, p, head) && OneWakeupEach(b.queue)
    ensures ClientExact(Coalesced(b, p, r), true, mark, p, r)
  {
    hide OneWakeupEach, Without;
    WakeupsWithout(b.queue, p);
    if Position(b.queue, p) < |b.queue| {
      ClearedQueue(b.queue, p, head);
      PushedQueue(Without(b.queue, p), p, r);
    } else {
      QueueEmptyOf(b.queue, p, head);
    }
  }

  lemma AdmitExact(b: Box, mark: Mark, p: nat, head: nat, r: nat)
    requires ClientExact(b, false, mark, p, head)
    requires AdmitWakeup(b, p, r).0.Admitted?
    ensures ClientExact(AdmitWakeup(b, p, r).1, true, mark, p, r)
  {
    QueueEmptyOf(b.queue, p, head);
    PushedQueue(b.queue, p, r);
  }

  lemma AdvanceExact(b: Box, wakeAt: nat, wakeSent: bool, mark: Mark, p: nat, head: nat, r: nat)
    requires ClientExact(b, wakeSent, mark, p, head) && OneWakeupEach(b.queue)
    requires Notified(b, wakeAt, wakeSent, Advance(p, r)).Some?
    ensures var (after, sent) := Notified(b, wakeAt, wakeSent, Advance(p, r)).value;
            ClientExact(after, sent, mark, p, r)
  {
    hide OneWakeupEach, ClientExact, Coalesced, AdmitWakeup;
    if wakeSent {
      CoalesceExact(b, mark, p, head, r);
    } else if r >= wakeAt {
      AdmitExact(b, mark, p, head, r);
    } else {
      UnsentExact(b, mark, p, head, r);
    }
  }

  lemma UnsentExact(b: Box, mark: Mark, p: nat, head: nat, r: nat)
    requires ClientExact(b, false, mark, p, head)
    ensures ClientExact(b, false, mark, p, r)
  {
    QueueEmptyOf(b.queue, p, head);
  }

  lemma ReceiveExact(b: Box, wakeSent: bool, mark: Mark, p: nat, head: nat)
    requires ClientExact(b, wakeSent, mark, p, head) && b.queue != []
    ensures ClientExact(Receive(b), wakeSent, mark, p, head)
  {
    assert b.queue == [b.queue[0]] + b.queue[1..];
    WakeupsJoin([b.queue[0]], b.queue[1..], p);
    WakeupsLast(b.delivered, b.queue[0], p);
    WakeupsLast([], b.queue[0], p);
    assert [] + [b.queue[0]] == [b.queue[0]];
  }

  /** A schedule installed on a queue without wakeups owes nothing yet. */
  lemma InstallExact(b: Box, wakeSent: bool, p: nat, head: nat)
    requires NoWakeups(b.queue)
    ensures ClientExact(b, wakeSent, Mark(Wakeups(b.delivered, p), wakeSent), p, head)
  {
    WakeupsNone(b.queue, p);
  }

  // ---- Visiting ----

  ghost predicate Distinct<M>(clients: Clients<M>) {
    forall id, other :: id in clients && other in clients && clients[id].mailbox == clients[other].mailbox ==> id == other
  }

  /** Two results agree on one client and its mailbox. */
  ghost predicate AgreeAt<M>(s: Shared<M>, t: Shared<M>, id: nat, m: M) {
    Get(s.clients, id) == Get(t.clients, id) && Get(s.boxes, m) == Get(t.boxes, m)
  }

  lemma VisitElsewhere<M>(s: Shared<M>, id: nat, n: Notice, other: nat, m: M)
    requires id != other && (id in s.clients ==> s.clients[id].mailbox != m)
    ensures AgreeAt(Visit(s, id, n), s, other, m)
  {
    hide Notified;
  }

  lemma VisitLocal<M>(s: Shared<M>, t: Shared<M>, id: nat, n: Notice, m: M)
    requires AgreeAt(s, t, id, m) && id in s.clients && s.clients[id].mailbox == m
    ensures AgreeAt(Visit(s, id, n), Visit(t, id, n), id, m)
  {
    hide Notified;
    assert Some(s.clients[id]) == Some(t.clients[id]);
    assert Owned(s.boxes, m) ==> Some(s.boxes[m]) == Some(t.boxes[m]);
  }

  lemma {:induction false} VisitedMailbox<M>(s: Shared<M>, order: seq<nat>, n: Notice, id: nat)
    requires id in VisitAll(s, order, n).clients
    ensures id in s.clients && VisitAll(s, order, n).clients[id].mailbox == s.clients[id].mailbox
  {
    VisitAllWakes(s, order, n, id);
  }

  /** With one registration per mailbox, a client's outcome is that of its own visit alone. */
  lemma {:induction false} VisitAllAt<M>(s: Shared<M>, order: seq<nat>, n: Notice, id: nat)
    requires Distinct(s.clients) && id in s.clients
    requires forall i, j :: 0 <= i < j < |order| ==> order[i] != order[j]
    ensures AgreeAt(VisitAll(s, order, n), if id in order then Visit(s, id, n) else s, id, s.clients[id].mailbox)
    decreases |order|
  {
    hide Visit;
    if order != [] {
      var rest, last := order[..|order| - 1], order[|order| - 1];
      var before, m := VisitAll(s, rest, n), s.clients[id].mailbox;
      VisitAllAt(s, rest, n, id);
      if last == id {
        assert id !in rest;
        VisitLocal(before, s, id, n, m);
      } else {
        if last in before.clients {
          VisitedMailbox(s, rest, n, last);
        }
        VisitElsewhere(before, last, n, id, m);
        assert id in order <==> id in rest;
      }
    }
  }

  /** Mailboxes no client holds are left alone. */
  lemma {:induction false} VisitAllApart<M>(s: Shared<M>, order: seq<nat>, n: Notice, m: M)
    requires forall id :: id in s.clients ==> s.clients[id].mailbox != m
    ensures Get(VisitAll(s, order, n).boxes, m) == Get(s.boxes, m)
    decreases |order|
  {
    hide Visit;
    if order != [] {
      var rest, last := order[..|order| - 1], order[|order| - 1];
      var before := VisitAll(s, rest, n);
      VisitAllApart(s, rest, n, m);
      if last in before.clients {
        VisitedMailbox(s, rest, n, last);
      }
      VisitElsewhere(before, last, n, last + 1, m);
    }
  }

  lemma {:induction false} VisitAllClients<M>(s: Shared<M>, order: seq<nat>, n: Notice, id: nat)
    requires id !in s.clients
    ensures id !in VisitAll(s, order, n).clients
  {
    if id in VisitAll(s, order, n).clients {
      VisitAllWakes(s, order, n, id);
    }
  }

  /** The outcome of a visit does not depend on the hash map's iteration order. */
  lemma OrderIrrelevant<M(!new)>(s: Shared<M>, order: seq<nat>, other: seq<nat>, n: Notice)
    requires Distinct(s.clients) && Lists(order, s.clients.Keys) && Lists(other, s.clients.Keys)
    ensures VisitAll(s, order, n) == VisitAll(s, other, n)
  {
    hide Visit, VisitAll;
    var a, b := VisitAll(s, order, n), VisitAll(s, other, n);
    forall id ensures Get(a.clients, id) == Get(b.clients, id) {
      if id in s.clients {
        VisitAllAt(s, order, n, id);
        VisitAllAt(s, other, n, id);
      } else {
        VisitAllClients(s, order, n, id);
        VisitAllClients(s, other, n, id);
      }
    }
    MapsEqual(a.clients, b.clients);
    forall m ensures Get(a.boxes, m) == Get(b.boxes, m) {
      if id :| id in s.clients && s.clients[id].mailbox == m {
        VisitAllAt(s, order, n, id);
        VisitAllAt(s, other, n, id);
      } else {
        VisitAllApart(s, order, n, m);
        VisitAllApart(s, other, n, m);
      }
    }
    MapsEqual(a.boxes, b.boxes);
  }
}
