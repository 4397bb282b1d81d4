/**
 * Runs in which a connection is registered once: over every such run each client's
 * mailbox holds exactly what its installed schedule owes, and a connection is in at
 * most one registry.
 */
module Exactness {
  import opened Delivery
  import opened Mailbox
  import opened Maps
  import opened Publication
  import opened Registry
  import opened Schedules

  predicate Joined(w: World, p: nat, id: nat) { p in w.regs && id in w.regs[p].clients }

  function ClientOf(w: World, p: nat, id: nat): Registration<nat>
    requires Joined(w, p, id)
  {
    w.regs[p].clients[id]
  }

  /** A connection is registered at most once, with one publication. */
  ghost predicate Solo(w: World) {
    forall p: nat, id: nat, q: nat, other: nat :: Joined(w, p, id) && Joined(w, q, other) && ClientOf(w, p, id).mailbox == ClientOf(w, q, other).mailbox
                              ==> p == q && id == other
  }

  predicate ExactAt(w: World, p: nat, id: nat)
    requires Joined(w, p, id)
  {
    var c := ClientOf(w, p, id);
    && (p, id) in w.marks && c.mailbox in w.boxes
    && w.boxes[c.mailbox].admitted != []
    && ClientExact(w.boxes[c.mailbox], c.wakeSent, w.marks[(p, id)], p, w.regs[p].head)
  }

  predicate Unused(b: Box) { b.admitted == [] ==> b.queue == [] && b.delivered == [] }

  ghost predicate Exact(w: World) {
    && Solo(w)
    && (forall p: nat, id: nat :: Joined(w, p, id) ==> ExactAt(w, p, id))
    && forall m :: m in w.boxes ==> Unused(w.boxes[m])
  }

  /** A mailbox is handed to `register` only before anything was admitted to it. */
  predicate RegistersOnce(w: World, step: Step) {
    step.Register? && step.m in w.boxes ==> w.boxes[step.m].admitted == []
  }

  ghost predicate Apart(w: World, m: nat) {
    forall p: nat, id: nat :: Joined(w, p, id) ==> ClientOf(w, p, id).mailbox != m
  }

  lemma BoxExact(w: World, m: nat, b: Box)
    requires Exact(w) && Unused(b)
    requires forall p: nat, id: nat :: Joined(w, p, id) && ClientOf(w, p, id).mailbox == m ==>
                             b.admitted != [] && (p, id) in w.marks &&
                             ClientExact(b, ClientOf(w, p, id).wakeSent, w.marks[(p, id)], p, w.regs[p].head)
    ensures Exact(w.(boxes := w.boxes[m := b]))
  {
    hide ClientExact, Unused;
    var t := w.(boxes := w.boxes[m := b]);
    forall p: nat, id: nat | Joined(t, p, id) ensures ExactAt(t, p, id) {
      assert Joined(w, p, id) && ExactAt(w, p, id);
    }
    forall p: nat, id: nat, q: nat, other: nat | Joined(t, p, id) && Joined(t, q, other) && ClientOf(t, p, id).mailbox == ClientOf(t, q, other).mailbox
      ensures p == q && id == other
    {
      assert Joined(w, p, id) && Joined(w, q, other);
    }
  }

  lemma ReceiveStepExact(w: World, m: nat)
    requires Exact(w) && m in w.boxes && w.boxes[m].queue != []
    ensures Exact(w.(boxes := w.boxes[m := Receive(w.boxes[m])]))
  {
    hide ClientExact;
    var b := Receive(w.boxes[m]);
    assert Unused(w.boxes[m]);
    forall p: nat, id: nat | Joined(w, p, id) && ClientOf(w, p, id).mailbox == m
      ensures b.admitted != [] && (p, id) in w.marks
      ensures ClientExact(b, ClientOf(w, p, id).wakeSent, w.marks[(p, id)], p, w.regs[p].head)
    {
      assert ExactAt(w, p, id);
      ReceiveExact(w.boxes[m], ClientOf(w, p, id).wakeSent, w.marks[(p, id)], p, w.regs[p].head);
    }
    BoxExact(w, m, b);
  }

  lemma FlagExact(w: World, m: nat, b: Box)
    requires Exact(w) && m in w.boxes
    requires b == w.boxes[m].(closed := b.closed, alive := b.alive)
    ensures Exact(w.(boxes := w.boxes[m := b]))
  {
    assert Unused(w.boxes[m]);
    forall p: nat, id: nat | Joined(w, p, id) && ClientOf(w, p, id).mailbox == m
      ensures b.admitted != [] && (p, id) in w.marks
      ensures ClientExact(b, ClientOf(w, p, id).wakeSent, w.marks[(p, id)], p, w.regs[p].head)
    {
      assert ExactAt(w, p, id);
    }
    BoxExact(w, m, b);
  }

  /** The mailbox of no client may change freely. */
  lemma ApartExact(w: World, m: nat, b: Box)
    requires Exact(w) && Unused(b) && Apart(w, m)
    ensures Exact(w.(boxes := w.boxes[m := b]))
  {
    BoxExact(w, m, b);
  }

  lemma OpenExact(w: World, p: nat, state: PublicationState, head: nat)
    requires Exact(w) && p !in w.regs
    ensures Exact(w.(regs := w.regs[p := Reg(state, head, map[])]))
  {
    hide ClientExact, Unused;
    var t := w.(regs := w.regs[p := Reg(state, head, map[])]);
    forall q: nat, id: nat | Joined(t, q, id) ensures Joined(w, q, id) && ExactAt(t, q, id) {
      assert ExactAt(w, q, id);
    }
    SoloFewer(w, t);
  }

  lemma SoloFewer(w: World, t: World)
    requires Solo(w)
    requires forall p: nat, id: nat :: Joined(t, p, id) ==> Joined(w, p, id) && ClientOf(t, p, id).mailbox == ClientOf(w, p, id).mailbox
    ensures Solo(t)
  {
  }

  /** Dropping clients keeps the others exact. */
  lemma FewerExact(w: World, p: nat, fewer: Clients<nat>)
    requires Exact(w) && p in w.regs
    requires forall id :: id in fewer ==> id in w.regs[p].clients && fewer[id] == w.regs[p].clients[id]
    ensures Exact(Put(w, p, Shared(w.boxes, fewer)))
  {
    hide ClientExact, Unused;
    var t := Put(w, p, Shared(w.boxes, fewer));
    forall q: nat, id: nat | Joined(t, q, id)
      ensures Joined(w, q, id) && ClientOf(t, q, id) == ClientOf(w, q, id) && ExactAt(t, q, id)
    {
      assert ExactAt(w, q, id);
    }
    SoloFewer(w, t);
  }

  lemma RemovedApart(w: World, p: nat, id: nat)
    requires Exact(w) && Joined(w, p, id)
    ensures Apart(Put(w, p, Shared(w.boxes, w.regs[p].clients - {id})), ClientOf(w, p, id).mailbox)
  {
    hide ExactAt, Unused;
    var t := Put(w, p, Shared(w.boxes, w.regs[p].clients - {id}));
    forall q: nat, other: nat | Joined(t, q, other) ensures ClientOf(t, q, other).mailbox != ClientOf(w, p, id).mailbox {
      assert Joined(w, q, other) && ClientOf(w, q, other) == ClientOf(t, q, other);
    }
  }

  /** Adding one client whose mailbox no other client holds. */
  lemma JoinExact(w: World, p: nat, id: nat, c: Registration<nat>, mark: Mark)
    requires Exact(w) && p in w.regs && id !in w.regs[p].clients && Apart(w, c.mailbox)
    requires c.mailbox in w.boxes && w.boxes[c.mailbox].admitted != []
    requires ClientExact(w.boxes[c.mailbox], c.wakeSent, mark, p, w.regs[p].head)
    ensures Exact(Put(w, p, Shared(w.boxes, w.regs[p].clients[id := c])).(marks := w.marks[(p, id) := mark]))
  {
    hide ClientExact, Unused;
    var t := Put(w, p, Shared(w.boxes, w.regs[p].clients[id := c])).(marks := w.marks[(p, id) := mark]);
    forall q: nat, other: nat | Joined(t, q, other) ensures ExactAt(t, q, other) {
      if (q, other) != (p, id) {
        assert Joined(w, q, other) && ExactAt(w, q, other);
      }
    }
    forall q: nat, other: nat, r: nat, third: nat | Joined(t, q, other) && Joined(t, r, third) && ClientOf(t, q, other).mailbox == ClientOf(t, r, third).mailbox
      ensures q == r && other == third
    {
      assert (q, other) == (p, id) || (Joined(w, q, other) && ClientOf(t, q, other) == ClientOf(w, q, other));
      assert (r, third) == (p, id) || (Joined(w, r, third) && ClientOf(t, r, third) == ClientOf(w, r, third));
    }
  }

  // ---- The steps ----

  lemma RegisteringExact(w: World, p: nat, revision: nat, m: nat, id: nat)
    requires Exact(w) && p in w.regs && m in w.boxes && id !in Purged(SharedOf(w, p))
    requires Apart(w, m) && NoWakeups(w.boxes[m].queue)
    ensures Exact(Registering(w, p, revision, m, id))
  {
    hide Exact, ClientExact, Purged, AdmitRequired, Welcome, Apart, Wakeups;
    var live := Purged(SharedOf(w, p));
    PurgedShrinks(SharedOf(w, p));
    FewerExact(w, p, live);
    var v := Put(w, p, Shared(w.boxes, live));
    FewerApart(w, p, live, m);
    var batch := Welcome(id, p, w.regs[p].head, w.regs[p].state);
    var (a, b) := AdmitRequired(w.boxes[m], batch);
    if |live| != MAX_SSE_CLIENTS && a.Admitted? {
      WelcomeSize(id, p, w.regs[p].head, w.regs[p].state);
      var mark := Mark(Wakeups(w.boxes[m].delivered, p), true);
      WelcomedExact(w.boxes[m], batch, p, w.regs[p].head);
      ApartExact(v, m, b);
      var z := v.(boxes := v.boxes[m := b]);
      BoxApart(v, m, b);
      JoinExact(z, p, id, Registration(revision, true, m), mark);
      assert Registering(w, p, revision, m, id).regs == Put(z, p, Shared(z.boxes, live[id := Registration(revision, true, m)])).regs;
    } else {
      assert Registering(w, p, revision, m, id) == v;
    }
  }

  lemma FewerApart(w: World, p: nat, fewer: Clients<nat>, m: nat)
    requires p in w.regs && Apart(w, m)
    requires forall id :: id in fewer ==> id in w.regs[p].clients && fewer[id] == w.regs[p].clients[id]
    ensures Apart(Put(w, p, Shared(w.boxes, fewer)), m)
  {
    var t := Put(w, p, Shared(w.boxes, fewer));
    forall q: nat, id: nat | Joined(t, q, id) ensures ClientOf(t, q, id).mailbox != m {
      assert Joined(w, q, id);
    }
  }

  lemma BoxApart(w: World, m: nat, b: Box)
    requires Apart(w, m)
    ensures Apart(w.(boxes := w.boxes[m := b]), m)
  {
    var t := w.(boxes := w.boxes[m := b]);
    forall q: nat, id: nat | Joined(t, q, id) ensures ClientOf(t, q, id).mailbox != m {
      assert Joined(w, q, id);
    }
  }

  lemma WelcomedExact(b: Box, batch: seq<Message>, p: nat, head: nat)
    requires NoWakeups(b.queue) && batch != []
    requires AdmitRequired(b, batch).0.Admitted?
    ensures AdmitRequired(b, batch).1.admitted != [] && Unused(AdmitRequired(b, batch).1)
    ensures ClientExact(AdmitRequired(b, batch).1, true, Mark(Wakeups(b.delivered, p), true), p, head)
  {
    InstallExact(b, true, p, head);
    AnnounceExact(b, true, Mark(Wakeups(b.delivered, p), true), p, head, batch);
  }

  lemma NotifiedAdmitted(b: Box, wakeAt: nat, wakeSent: bool, n: Notice)
    ensures Notified(b, wakeAt, wakeSent, n).Some? ==> b.admitted <= Notified(b, wakeAt, wakeSent, n).value.0.admitted
  {
  }

  predicate Reports(n: Notice, p: nat, before: nat, after: nat) {
    match n
    case Announce(_) => after == before
    case Advance(q, r) => q == p && after == r
  }

  /** A visit leaves its client exact for the Head it reports. */
  lemma VisitExact(b: Box, wakeAt: nat, wakeSent: bool, n: Notice, mark: Mark, p: nat, before: nat, after: nat)
    requires ClientExact(b, wakeSent, mark, p, before) && OneWakeupEach(b.queue) && Reports(n, p, before, after)
    requires Notified(b, wakeAt, wakeSent, n).Some?
    ensures var (c, sent) := Notified(b, wakeAt, wakeSent, n).value; ClientExact(c, sent, mark, p, after)
  {
    hide ClientExact, OneWakeupEach;
    match n
    case Announce(message) => AnnounceExact(b, wakeSent, mark, p, before, [message]);
    case Advance(q, r) => AdvanceExact(b, wakeAt, wakeSent, mark, p, before, r);
  }

  lemma VisitedAt(s: Shared<nat>, order: seq<nat>, n: Notice, id: nat)
    requires Distinct(s.clients) && Lists(order, s.clients.Keys) && id in VisitAll(s, order, n).clients
    requires id in s.clients ==> s.clients[id].mailbox in s.boxes
    ensures id in s.clients
    ensures var c, after := s.clients[id], VisitAll(s, order, n);
            var outcome := Notified(s.boxes[c.mailbox], c.wakeAt, c.wakeSent, n);
            outcome.Some? && after.clients[id] == c.(wakeSent := outcome.value.1)
            && c.mailbox in after.boxes && after.boxes[c.mailbox] == outcome.value.0
  {
    hide Notified, VisitAll;
    VisitAllWakes(s, order, n, id);
    VisitAllAt(s, order, n, id);
    var after, one := VisitAll(s, order, n), Visit(s, id, n);
    assert Some(after.clients[id]) == Get(one.clients, id);
    assert Some(one.boxes[s.clients[id].mailbox]) == Get(after.boxes, s.clients[id].mailbox);
  }

  lemma SoloDistinct(w: World, p: nat)
    requires Solo(w) && p in w.regs
    ensures Distinct(w.regs[p].clients)
  {
    var clients := w.regs[p].clients;
    forall id, other | id in clients && other in clients && clients[id].mailbox == clients[other].mailbox
      ensures id == other
    {
      assert Joined(w, p, id) && Joined(w, p, other);
    }
  }

  /** One publication's clients are visited in some order and its Head or state changes. */
  lemma VisitingExact(w: World, p: nat, reg: Reg, order: seq<nat>, n: Notice)
    requires Exact(w) && Sound(w) && p in w.regs && Lists(order, w.regs[p].clients.Keys)
    requires reg.clients == w.regs[p].clients && Reports(n, p, w.regs[p].head, reg.head)
    ensures Exact(Put(w.(regs := w.regs[p := reg]), p, VisitAll(SharedOf(w, p), order, n)))
  {
    hide VisitAll, ClientExact, BoxOk, Notified, Lists, Unused;
    var s := SharedOf(w, p);
    var after := VisitAll(s, order, n);
    var t := Put(w.(regs := w.regs[p := reg]), p, after);
    forall q: nat, id: nat | Joined(t, q, id)
      ensures Joined(w, q, id) && ClientOf(t, q, id).mailbox == ClientOf(w, q, id).mailbox && ExactAt(t, q, id)
    {
      if q == p {
        VisitAllWakes(s, order, n, id);
        VisitedClientExact(w, p, reg, order, n, id);
      } else {
        VisitedOtherExact(w, p, order, n, q, id);
      }
    }
    SoloFewer(w, t);
    forall m | m in t.boxes ensures Unused(t.boxes[m]) {
      VisitedUnused(w, p, order, n, m);
    }
  }

  lemma VisitedClientExact(w: World, p: nat, reg: Reg, order: seq<nat>, n: Notice, id: nat)
    requires Exact(w) && Sound(w) && p in w.regs && Lists(order, w.regs[p].clients.Keys)
    requires reg.clients == w.regs[p].clients && Reports(n, p, w.regs[p].head, reg.head)
    requires id in VisitAll(SharedOf(w, p), order, n).clients
    ensures ExactAt(Put(w.(regs := w.regs[p := reg]), p, VisitAll(SharedOf(w, p), order, n)), p, id)
  {
    hide VisitAll, ClientExact, Notified, Lists, Unused;
    var s := SharedOf(w, p);
    SoloDistinct(w, p);
    VisitAllWakes(s, order, n, id);
    assert Joined(w, p, id) && ExactAt(w, p, id);
    var c := s.clients[id];
    var b := s.boxes[c.mailbox];
    VisitedAt(s, order, n, id);
    BoxSound(w, c.mailbox);
    VisitExact(b, c.wakeAt, c.wakeSent, n, w.marks[(p, id)], p, w.regs[p].head, reg.head);
    NotifiedAdmitted(b, c.wakeAt, c.wakeSent, n);
  }

  lemma VisitedOtherExact(w: World, p: nat, order: seq<nat>, n: Notice, q: nat, id: nat)
    requires Exact(w) && p in w.regs && Joined(w, q, id) && q != p
    ensures var m := ClientOf(w, q, id).mailbox;
            ExactAt(w, q, id) && Get(VisitAll(SharedOf(w, p), order, n).boxes, m) == Some(w.boxes[m])
  {
    hide VisitAll, ClientExact, Unused;
    var m := ClientOf(w, q, id).mailbox;
    assert ExactAt(w, q, id);
    forall other | other in w.regs[p].clients ensures w.regs[p].clients[other].mailbox != m {
      assert Joined(w, p, other);
    }
    VisitAllApart(SharedOf(w, p), order, n, m);
  }

  lemma VisitedUnused(w: World, p: nat, order: seq<nat>, n: Notice, m: nat)
    requires Exact(w) && p in w.regs && Lists(order, w.regs[p].clients.Keys)
    requires m in VisitAll(SharedOf(w, p), order, n).boxes
    ensures Unused(VisitAll(SharedOf(w, p), order, n).boxes[m])
  {
    hide VisitAll, ClientExact, Notified;
    var s := SharedOf(w, p);
    var after := VisitAll(s, order, n);
    if id :| id in s.clients && s.clients[id].mailbox == m {
      SoloDistinct(w, p);
      assert Joined(w, p, id) && ExactAt(w, p, id);
      VisitAllAt(s, order, n, id);
      VisitAdmitted(s, id, n, m);
      assert Some(after.boxes[m]) == Get(Visit(s, id, n).boxes, m);
    } else {
      VisitAllApart(s, order, n, m);
      assert Some(after.boxes[m]) == Get(s.boxes, m);
    }
  }

  lemma VisitAdmitted<M>(s: Shared<M>, id: nat, n: Notice, m: M)
    requires m in s.boxes
    ensures m in Visit(s, id, n).boxes && s.boxes[m].admitted <= Visit(s, id, n).boxes[m].admitted
  {
    hide Notified;
    if id in s.clients && Owned(s.boxes, s.clients[id].mailbox) {
      var c := s.clients[id];
      NotifiedAdmitted(s.boxes[c.mailbox], c.wakeAt, c.wakeSent, n);
    }
  }

  lemma CompleteBoxExact(b: Box, p: nat, head: nat, wakeAt: nat, wakeSent: bool)
    requires OneWakeupEach(b.queue) && QueuedCurrent(b.queue, p, head)
    ensures var c, mark := RemoveWakeup(b, p), Mark(Wakeups(b.delivered, p), wakeSent);
            && NoWakeups(c.queue)
            && ClientExact(c, wakeSent, mark, p, head)
            && (!wakeSent && AdmitWakeup(c, p, head).0.Admitted? ==> ClientExact(AdmitWakeup(c, p, head).1, true, mark, p, head))
  {
    hide OneWakeupEach, ClientExact, AdmitWakeup, QueuedCurrent;
    var c, mark := RemoveWakeup(b, p), Mark(Wakeups(b.delivered, p), wakeSent);
    ClearedQueue(b.queue, p, head);
    InstallExact(c, wakeSent, p, head);
    if !wakeSent && AdmitWakeup(c, p, head).0.Admitted? {
      AdmitExact(c, mark, p, head, head);
    }
  }

  /** Completing is a removal, followed by a change of the mailbox and a fresh join. */
  lemma CompletingExact(w: World, p: nat, id: nat, action: ScheduleAction)
    requires Exact(w) && Sound(w) && p in w.regs
    ensures Exact(Completing(w, p, id, action))
  {
    hide Exact, ClientExact, AdmitWakeup, RemoveWakeup, Apart, BoxOk, Wakeups;
    var t := Completing(w, p, id, action);
    var left := w.regs[p].clients - {id};
    FewerExact(w, p, left);
    var v := Put(w, p, Shared(w.boxes, left));
    if !Joined(w, p, id) {
      assert t.regs == w.regs;
    } else if !Owned(w.boxes, ClientOf(w, p, id).mailbox) || w.boxes[ClientOf(w, p, id).mailbox].closed {
      assert t == v;
    } else if action.ValidateOnly? {
      assert t.regs == w.regs;
    } else {
      ReschedulingExact(w, p, id, action.wakeAt, action.wakeSent);
    }
  }

  lemma ReschedulingExact(w: World, p: nat, id: nat, wakeAt: nat, wakeSent: bool)
    requires Exact(w) && Sound(w) && Joined(w, p, id)
    requires var m := ClientOf(w, p, id).mailbox; Owned(w.boxes, m) && !w.boxes[m].closed
    ensures Exact(Completing(w, p, id, Replace(wakeAt, wakeSent)))
  {
    hide Exact, ClientExact, AdmitWakeup, RemoveWakeup, Apart, BoxOk, Wakeups, Unused;
    var m, head := ClientOf(w, p, id).mailbox, w.regs[p].head;
    var t := Completing(w, p, id, Replace(wakeAt, wakeSent));
    var left := w.regs[p].clients - {id};
    var v := Put(w, p, Shared(w.boxes, left));
    FewerExact(w, p, left);
    RemovedApart(w, p, id);
    BoxSound(w, m);
    QueueOf(w, p, id);
    RescheduledBox(w.boxes[m], p, head, wakeAt, wakeSent);
    var b := t.boxes[m];
    ApartExact(v, m, b);
    var z := v.(boxes := v.boxes[m := b]);
    BoxApart(v, m, b);
    if id in t.regs[p].clients {
      var c := t.regs[p].clients[id];
      var mark := Mark(Wakeups(w.boxes[m].delivered, p), wakeSent);
      JoinExact(z, p, id, c, mark);
      assert t.regs[p].clients == w.regs[p].clients[id := c];
      assert left[id := c] == w.regs[p].clients[id := c];
      assert t.regs == Put(z, p, Shared(z.boxes, left[id := c])).regs;
    } else {
      assert t == z;
    }
  }

  /** What the mailbox of a live client becomes when its schedule is replaced. */
  function Rescheduled(b: Box, p: nat, head: nat, wakeAt: nat, wakeSent: bool): Box {
    var c := RemoveWakeup(b, p);
    if !wakeSent && head >= wakeAt && AdmitWakeup(c, p, head).0.Admitted? then AdmitWakeup(c, p, head).1 else c
  }

  lemma RescheduledBox(b: Box, p: nat, head: nat, wakeAt: nat, wakeSent: bool)
    requires OneWakeupEach(b.queue) && QueuedCurrent(b.queue, p, head) && b.admitted != []
    ensures var c := Rescheduled(b, p, head, wakeAt, wakeSent);
            && c.admitted == b.admitted && Unused(c)
            && (wakeSent || head < wakeAt || AdmitWakeup(RemoveWakeup(b, p), p, head).0.Admitted? ==>
                ClientExact(c, wakeSent || head >= wakeAt, Mark(Wakeups(b.delivered, p), wakeSent), p, head))
  {
    hide OneWakeupEach, ClientExact, QueuedCurrent;
    CompleteBoxExact(b, p, head, wakeAt, wakeSent);
  }

  lemma QueueOf(w: World, p: nat, id: nat)
    requires Exact(w) && Joined(w, p, id)
    ensures var m := ClientOf(w, p, id).mailbox;
            m in w.boxes && w.boxes[m].admitted != [] && QueuedCurrent(w.boxes[m].queue, p, w.regs[p].head)
  {
    assert ExactAt(w, p, id);
  }

  lemma ReplacingExact(w: World, p: nat, id: nat, q: nat, newId: nat)
    requires Exact(w) && Sound(w) && p in w.regs && q in w.regs && p != q
    requires newId !in Purged(SharedOf(w, q))
    ensures Exact(Replacing(w, p, id, q, newId))
  {
    hide Exact, Sound, BoxOk, Apart, Replacing, Registering, Unused, OneWakeupEach, QueuedCurrent;
    var left := w.regs[p].clients - {id};
    FewerExact(w, p, left);
    var v := Put(w, p, Shared(w.boxes, left));
    if Joined(w, p, id) && Owned(w.boxes, ClientOf(w, p, id).mailbox) {
      var m := ClientOf(w, p, id).mailbox;
      var b := RemoveWakeup(w.boxes[m], p);
      RemovedApart(w, p, id);
      QueueOf(w, p, id);
      BoxSound(w, m);
      QueuedOnce(w.boxes[m], Heads(w.regs));
      ClearedQueue(w.boxes[m].queue, p, w.regs[p].head);
      AdmittedUsed(b);
      ApartExact(v, m, b);
      BoxApart(v, m, b);
      var z := v.(boxes := v.boxes[m := b]);
      PurgedSame(w, z, q, m);
      RegisteringExact(z, q, w.regs[q].head, m, newId);
      ReplacingIs(w, p, id, q, newId);
    } else {
      ReplacingMisses(w, p, id, q, newId);
    }
  }

  lemma AdmittedUsed(b: Box)
    requires b.admitted != []
    ensures Unused(b)
  {
  }

  lemma QueuedOnce(b: Box, heads: map<nat, nat>)
    requires BoxOk(b, heads)
    ensures OneWakeupEach(b.queue)
  {
  }

  lemma PurgedSame(w: World, z: World, q: nat, m: nat)
    requires q in w.regs && q in z.regs && w.regs[q] == z.regs[q] && m in w.boxes && m in z.boxes
    requires z.boxes == w.boxes[m := z.boxes[m]] && z.boxes[m].alive == w.boxes[m].alive
    ensures Purged(SharedOf(w, q)) == Purged(SharedOf(z, q))
  {
  }

  lemma StepKeepsExact(w: World, step: Step)
    requires Exact(w) && Sound(w) && Allowed(w, step) && RegistersOnce(w, step)
    ensures Exact(Next(w, step))
  {
    hide Exact, Sound, Registering, Completing, Replacing, VisitAll, Lists, Purged, Apart;
    match step
    case Connect(m) => NewApart(w, m); ApartExact(w, m, EMPTY_BOX);
    case Deliver(m) => ReceiveStepExact(w, m);
    case CloseMailbox(m) => FlagExact(w, m, w.boxes[m].(closed := true));
    case Disconnect(m) => FlagExact(w, m, w.boxes[m].(alive := false));
    case Open(p, state, head) => OpenExact(w, p, state, head);
    case Register(p, revision, m, id) => UnusedApart(w, m); RegisteringExact(w, p, revision, m, id);
    case Remove(p, id) => FewerExact(w, p, w.regs[p].clients - {id});
    case PublishState(p, state, order) =>
      VisitingExact(w, p, w.regs[p].(state := state), order, Announce(StateMessage(p, w.regs[p].head, state)));
    case AdvanceHead(p, revision, order) =>
      VisitingExact(w, p, w.regs[p].(head := revision), order, Advance(p, revision));
    case CompleteDelta(p, id, action) => CompletingExact(w, p, id, action);
    case ReplaceInto(p, id, q, newId) => ReplacingExact(w, p, id, q, newId);
  }

  lemma NewApart(w: World, m: nat)
    requires Exact(w) && m !in w.boxes
    ensures Apart(w, m)
  {
    forall p: nat, id: nat | Joined(w, p, id) ensures ClientOf(w, p, id).mailbox != m {
      assert ExactAt(w, p, id);
    }
  }

  lemma UnusedApart(w: World, m: nat)
    requires Exact(w) && m in w.boxes && w.boxes[m].admitted == []
    ensures Apart(w, m) && NoWakeups(w.boxes[m].queue)
  {
    assert Unused(w.boxes[m]);
    forall p: nat, id: nat | Joined(w, p, id) ensures ClientOf(w, p, id).mailbox != m {
      assert ExactAt(w, p, id);
    }
  }

  /** What was admitted or delivered is never taken back. */
  predicate Extends(a: Box, b: Box) { a.admitted <= b.admitted && a.delivered <= b.delivered }

  lemma NotifiedExtends(b: Box, wakeAt: nat, wakeSent: bool, n: Notice)
    ensures Notified(b, wakeAt, wakeSent, n).Some? ==> Extends(b, Notified(b, wakeAt, wakeSent, n).value.0)
  {
  }

  lemma {:induction false} VisitAllExtends<M>(s: Shared<M>, order: seq<nat>, n: Notice, m: M)
    requires m in s.boxes
    ensures m in VisitAll(s, order, n).boxes && Extends(s.boxes[m], VisitAll(s, order, n).boxes[m])
    decreases |order|
  {
    hide Notified;
    if order != [] {
      var before, id := VisitAll(s, order[..|order| - 1], n), order[|order| - 1];
      VisitAllExtends(s, order[..|order| - 1], n, m);
      if id in before.clients && Owned(before.boxes, before.clients[id].mailbox) {
        var c := before.clients[id];
        NotifiedExtends(before.boxes[c.mailbox], c.wakeAt, c.wakeSent, n);
      }
    }
  }

  lemma AdmitExtends(b: Box, ms: seq<Message>, p: nat, r: nat)
    ensures Extends(b, AdmitRequired(b, ms).1) && Extends(b, AdmitWakeup(b, p, r).1) && Extends(b, RemoveWakeup(b, p))
  {
  }

  lemma EnrolExtends<M>(s: Shared<M>, p: nat, head: nat, state: PublicationState, revision: nat, m: M, id: nat, other: M)
    requires m in s.boxes && other in s.boxes
    ensures var t := Enrol(s, p, head, state, revision, m, id).1;
            other in t.boxes && Extends(s.boxes[other], t.boxes[other])
  {
    hide AdmitRequired, Purged, Welcome;
    AdmitExtends(s.boxes[m], Welcome(id, p, head, state), p, head);
  }

  lemma CompleteExtends<M>(s: Shared<M>, id: nat, p: nat, head: nat, action: ScheduleAction, other: M)
    requires other in s.boxes
    ensures var t := Complete(s, id, p, head, action).1;
            other in t.boxes && Extends(s.boxes[other], t.boxes[other])
  {
    hide AdmitWakeup, RemoveWakeup;
    if id in s.clients && Owned(s.boxes, s.clients[id].mailbox) {
      var b := s.boxes[s.clients[id].mailbox];
      AdmitExtends(b, [], p, head);
      AdmitExtends(RemoveWakeup(b, p), [], p, head);
    }
  }

  lemma ReplaceExtends(w: World, p: nat, id: nat, q: nat, newId: nat, m: nat)
    requires p in w.regs && q in w.regs && p != q && m in w.boxes
    ensures m in Replacing(w, p, id, q, newId).boxes && Extends(w.boxes[m], Replacing(w, p, id, q, newId).boxes[m])
  {
    hide Enrol, RemoveWakeup, Wakeups;
    if Joined(w, p, id) && Owned(w.boxes, ClientOf(w, p, id).mailbox) {
      var x, to := ClientOf(w, p, id).mailbox, w.regs[q];
      AdmitExtends(w.boxes[x], [], p, 0);
      var boxes := w.boxes[x := RemoveWakeup(w.boxes[x], p)];
      EnrolExtends(Shared(boxes, to.clients), q, to.head, to.state, to.head, x, newId, m);
    }
  }

  /** Every step, a replacement included, leaves earlier messages of a mailbox intact. */
  lemma StepExtends(w: World, step: Step, m: nat)
    requires Allowed(w, step) && m in w.boxes
    ensures m in Next(w, step).boxes && Extends(w.boxes[m], Next(w, step).boxes[m])
  {
    hide VisitAll, Lists, Purged, Complete, Enrol, Replacing, Wakeups;
    match step
    case PublishState(p, state, order) =>
      VisitAllExtends(SharedOf(w, p), order, Announce(StateMessage(p, w.regs[p].head, state)), m);
    case AdvanceHead(p, revision, order) =>
      VisitAllExtends(SharedOf(w, p), order, Advance(p, revision), m);
    case Register(p, revision, x, id) =>
      EnrolExtends(SharedOf(w, p), p, w.regs[p].head, w.regs[p].state, revision, x, id, m);
    case CompleteDelta(p, id, action) => CompleteExtends(SharedOf(w, p), id, p, w.regs[p].head, action, m);
    case ReplaceInto(p, id, q, newId) => ReplaceExtends(w, p, id, q, newId, m);
    case _ =>
  }

  // ---- Whole runs ----

  const NOTHING := World(map[], map[], map[])

  ghost predicate Runs(w: World, steps: seq<Step>)
    decreases |steps|
  {
    steps == [] || (Allowed(w, steps[0]) && Runs(Next(w, steps[0]), steps[1..]))
  }

  ghost function RunAll(w: World, steps: seq<Step>): World
    requires Runs(w, steps)
    decreases |steps|
  {
    if steps == [] then w else RunAll(Next(w, steps[0]), steps[1..])
  }

  ghost predicate RunRegistersOnce(w: World, steps: seq<Step>)
    requires Runs(w, steps)
    decreases |steps|
  {
    steps == [] || (RegistersOnce(w, steps[0]) && RunRegistersOnce(Next(w, steps[0]), steps[1..]))
  }

  lemma NothingHolds()
    ensures Sound(NOTHING) && Exact(NOTHING)
  {
  }

  lemma {:induction false} RunKeepsSound(w: World, steps: seq<Step>)
    requires Sound(w) && Runs(w, steps)
    ensures Sound(RunAll(w, steps))
    decreases |steps|
  {
    hide Sound, Next, Allowed;
    if steps != [] {
      StepKeepsSound(w, steps[0]);
      RunKeepsSound(Next(w, steps[0]), steps[1..]);
    }
  }

  lemma {:induction false} RunKeepsExact(w: World, steps: seq<Step>)
    requires Sound(w) && Exact(w) && Runs(w, steps) && RunRegistersOnce(w, steps)
    ensures Exact(RunAll(w, steps))
    decreases |steps|
  {
    hide Sound, Exact, Next, Allowed, RegistersOnce;
    if steps != [] {
      StepKeepsSound(w, steps[0]);
      StepKeepsExact(w, steps[0]);
      RunKeepsExact(Next(w, steps[0]), steps[1..]);
    }
  }

  /** Delivery order and conservation: in every run, a mailbox holds at most eight items,
      required messages are delivered and queued exactly as admitted, and the revisions
      reported for one publication never go backwards or beyond its Head. */
  lemma DeliveryOrder(steps: seq<Step>, m: nat)
    requires Runs(NOTHING, steps) && m in RunAll(NOTHING, steps).boxes
    ensures var w := RunAll(NOTHING, steps);
            var b := w.boxes[m];
            && |b.queue| <= SSE_CLIENT_BUFFER_CAPACITY
            && RequiredOf(b.delivered + b.queue) == b.admitted
            && Forward(b.delivered + b.queue)
            && Bounded(b.delivered + b.queue, Heads(w.regs))
  {
    NothingHolds();
    RunKeepsSound(NOTHING, steps);
    BoxSound(RunAll(NOTHING, steps), m);
  }

  /** No missed wakeup: in every run, each client has been sent its wakeup or Head is
      still below its boundary. */
  lemma NoMissedWakeup(steps: seq<Step>, p: nat, id: nat)
    requires Runs(NOTHING, steps) && Joined(RunAll(NOTHING, steps), p, id)
    ensures var w := RunAll(NOTHING, steps);
            ClientOf(w, p, id).wakeSent || w.regs[p].head < ClientOf(w, p, id).wakeAt
  {
    NothingHolds();
    RunKeepsSound(NOTHING, steps);
    var w := RunAll(NOTHING, steps);
    assert ClientsOk(w.regs[p].clients, w.boxes.Keys, w.regs[p].head);
    assert Woken(ClientOf(w, p, id), w.regs[p].head);
  }

  /** With one registration per mailbox, a queued ordinary wakeup belongs to the client's
      publication, means the schedule was sent and carries the current Head; and the
      wakeups since the schedule was installed number exactly what it owes, at most one. */
  lemma WakeupsExact(steps: seq<Step>, p: nat, id: nat)
    requires Runs(NOTHING, steps) && RunRegistersOnce(NOTHING, steps) && Joined(RunAll(NOTHING, steps), p, id)
    ensures var w := RunAll(NOTHING, steps);
            var c := ClientOf(w, p, id);
            && c.mailbox in w.boxes && (p, id) in w.marks
            && var b, mark := w.boxes[c.mailbox], w.marks[(p, id)];
            && Wakeups(b.delivered, p) + Wakeups(b.queue, p) - mark.base == Owed(c.wakeSent, mark) <= 1
            && (forall i :: 0 <= i < |b.queue| && b.queue[i].GraphWakeup? ==>
                c.wakeSent && b.queue[i] == GraphWakeup(p, w.regs[p].head))
  {
    hide Wakeups, Runs, RunAll, RunRegistersOnce;
    NothingHolds();
    RunKeepsExact(NOTHING, steps);
    var w := RunAll(NOTHING, steps);
    assert ExactAt(w, p, id);
    var c := ClientOf(w, p, id);
    WakeupsNone(w.boxes[c.mailbox].queue, p);
  }

  /** With one registration per mailbox, no connection is in two registries. */
  lemma OneRegistryEach(steps: seq<Step>, p: nat, id: nat, q: nat, other: nat)
    requires Runs(NOTHING, steps) && RunRegistersOnce(NOTHING, steps)
    requires Joined(RunAll(NOTHING, steps), p, id) && Joined(RunAll(NOTHING, steps), q, other)
    requires ClientOf(RunAll(NOTHING, steps), p, id).mailbox == ClientOf(RunAll(NOTHING, steps), q, other).mailbox
    ensures p == q && id == other
  {
    NothingHolds();
    RunKeepsExact(NOTHING, steps);
  }
}
