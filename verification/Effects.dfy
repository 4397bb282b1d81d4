/**
 * What a publication's operations do to the connections they address: who is
 * reached, with which message, and who is dropped instead.
 */
module Effects {
  import opened Delivery
  import opened Exactness
  import opened Mailbox
  import opened Maps
  import opened Publication
  import opened Registry
  import opened Schedules

  lemma VisitReaches(w: World, p: nat, order: seq<nat>, n: Notice, id: nat)
    requires Exact(w) && Joined(w, p, id) && Lists(order, w.regs[p].clients.Keys)
    ensures var s := SharedOf(w, p);
            AgreeAt(VisitAll(s, order, n), Visit(s, id, n), id, ClientOf(w, p, id).mailbox)
    ensures ClientOf(w, p, id).mailbox in w.boxes
  {
    hide Visit, VisitAll, ClientExact;
    SoloDistinct(w, p);
    assert ExactAt(w, p, id);
    VisitAllAt(SharedOf(w, p), order, n, id);
  }

  /** A lifecycle change reaches every client whose connection is alive, open and has room,
      as the last thing that connection is sent; every other client is dropped. */
  lemma StateReachesClients(w: World, p: nat, state: PublicationState, order: seq<nat>, id: nat)
    requires Exact(w) && Allowed(w, PublishState(p, state, order)) && Joined(w, p, id)
    ensures var t, c := Next(w, PublishState(p, state, order)), ClientOf(w, p, id);
            && c.mailbox in w.boxes && c.mailbox in t.boxes
            && var b, after := w.boxes[c.mailbox], t.boxes[c.mailbox];
            && (Joined(t, p, id) <==> b.alive && !b.closed && |b.queue| < SSE_CLIENT_BUFFER_CAPACITY)
            && (Joined(t, p, id) ==> ClientOf(t, p, id) == c)
            && (Joined(t, p, id) ==> after.Trace() == b.Trace() + [Required(StateMessage(p, w.regs[p].head, state))])
            && (!Joined(t, p, id) ==> after == b)
  {
    hide VisitAll, Lists, Exact;
    var n := Announce(StateMessage(p, w.regs[p].head, state));
    VisitReaches(w, p, order, n, id);
    var c := ClientOf(w, p, id);
    var s := SharedOf(w, p);
    var after, one := VisitAll(s, order, n), Visit(s, id, n);
    assert Get(after.clients, id) == Get(one.clients, id) && Get(after.boxes, c.mailbox) == Get(one.boxes, c.mailbox);
    assert c.mailbox in one.boxes;
    assert Some(after.boxes[c.mailbox]) == Some(one.boxes[c.mailbox]);
    AnnouncedTrace(w.boxes[c.mailbox], n.message);
  }

  lemma AnnouncedTrace(b: Box, m: Message)
    ensures var (a, after) := AdmitRequired(b, [m]);
            && (a.Admitted? <==> !b.closed && |b.queue| < SSE_CLIENT_BUFFER_CAPACITY)
            && (a.Admitted? ==> after.Trace() == b.Trace() + [Required(m)])
            && (!a.Admitted? ==> after == b)
  {
    assert b.Trace() + [Required(m)] == b.delivered + (b.queue + [Required(m)]);
  }

  predicate Due(c: Registration<nat>, revision: nat) { !c.wakeSent && revision >= c.wakeAt }

  /** A Head advance wakes exactly the clients it is due for, moves a wakeup still queued to
      the back with the new Head, and leaves every other mailbox as it was. */
  lemma HeadReachesClients(w: World, p: nat, revision: nat, order: seq<nat>, id: nat)
    requires Exact(w) && Allowed(w, AdvanceHead(p, revision, order)) && Joined(w, p, id)
    ensures var t, c := Next(w, AdvanceHead(p, revision, order)), ClientOf(w, p, id);
            && c.mailbox in w.boxes && c.mailbox in t.boxes
            && var b, after := w.boxes[c.mailbox], t.boxes[c.mailbox];
            && (Joined(t, p, id) <==>
                b.alive && (b.closed ==> !c.wakeSent && !Due(c, revision))
                && (Due(c, revision) ==> |b.queue| != SSE_CLIENT_BUFFER_CAPACITY))
            && (Joined(t, p, id) ==> ClientOf(t, p, id) == c.(wakeSent := c.wakeSent || Due(c, revision)))
            && (Joined(t, p, id) && (Due(c, revision) || !NoWakeups(b.queue)) ==>
                after == b.(queue := Without(b.queue, p) + [GraphWakeup(p, revision)]))
            && (Joined(t, p, id) && !Due(c, revision) && NoWakeups(b.queue) ==> after == b)
            && (!Joined(t, p, id) ==> after == b)
  {
    hide VisitAll, Lists, Exact, Without, Position, NoWakeups;
    var n := Advance(p, revision);
    VisitReaches(w, p, order, n, id);
    var c := ClientOf(w, p, id);
    var s := SharedOf(w, p);
    var after, one := VisitAll(s, order, n), Visit(s, id, n);
    assert Get(after.clients, id) == Get(one.clients, id) && Get(after.boxes, c.mailbox) == Get(one.boxes, c.mailbox);
    assert c.mailbox in one.boxes;
    assert Some(after.boxes[c.mailbox]) == Some(one.boxes[c.mailbox]);
    QueuedWhen(w, p, id);
  }

  /** In an exact world a wakeup is queued only for a sent schedule, and the search finds it. */
  lemma QueuedWhen(w: World, p: nat, id: nat)
    requires Exact(w) && Joined(w, p, id)
    ensures var c := ClientOf(w, p, id);
            && c.mailbox in w.boxes
            && var q := w.boxes[c.mailbox].queue;
            && (Position(q, p) < |q| <==> !NoWakeups(q))
            && (!c.wakeSent ==> NoWakeups(q))
            && (NoWakeups(q) ==> Without(q, p) == q)
  {
    assert ExactAt(w, p, id);
    var q := w.boxes[ClientOf(w, p, id).mailbox].queue;
    WakeupsNone(q, p);
    if Position(q, p) == |q| {
      WakeupsNone(q, p);
    }
  }

  /** The first three things a connection hears from a publication. */
  function Greeting(id: nat, p: nat, head: nat, state: PublicationState): seq<Item> {
    [Required(ClientRegistration(id)), Required(StateMessage(p, head, state)), Required(WakeupMessage(p, head))]
  }

  /** The clients of a publication whose connection is still there. */
  function LiveClients(w: World, p: nat): set<nat>
    requires p in w.regs
  {
    set id | id in w.regs[p].clients && w.regs[p].clients[id].mailbox in w.boxes && w.boxes[w.regs[p].clients[id].mailbox].alive
  }

  lemma PurgedAre(w: World, p: nat)
    requires p in w.regs
    ensures Purged(SharedOf(w, p)).Keys == LiveClients(w, p) && |Purged(SharedOf(w, p))| == |LiveClients(w, p)|
  {
    var purged := Purged(SharedOf(w, p));
    assert purged.Keys == LiveClients(w, p);
    assert |purged| == |purged.Keys|;
  }

  /** Registration succeeds exactly when the live clients leave room and the mailbox is open
      with room for three messages, which then arrive together: the identifier, the state
      and the Head; otherwise the mailbox is untouched. Either way the clients whose
      connection is gone are dropped and no others. */
  lemma RegistrationGreets(w: World, p: nat, revision: nat, m: nat, id: nat)
    requires Allowed(w, Register(p, revision, m, id))
    ensures var t, reg := Next(w, Register(p, revision, m, id)), w.regs[p];
            && m in t.boxes
            && (Joined(t, p, id) <==> |LiveClients(w, p)| != 1024 && !w.boxes[m].closed && |w.boxes[m].queue| + 3 <= 8)
            && (Joined(t, p, id) ==> ClientOf(t, p, id) == Registration(revision, true, m))
            && (Joined(t, p, id) ==> t.boxes[m].Trace() == w.boxes[m].Trace() + Greeting(id, p, reg.head, reg.state))
            && (!Joined(t, p, id) ==> t.boxes[m] == w.boxes[m])
            && (forall other :: other != id ==> (Joined(t, p, other) <==> other in LiveClients(w, p)))
            && (forall other :: other != id && other in LiveClients(w, p) ==> ClientOf(t, p, other) == ClientOf(w, p, other))
  {
    PurgedAre(w, p);
    hide Purged, LiveClients, Registering, Greeting;
    Greeted(w, p, revision, m, id);
  }

  lemma Greeted(w: World, p: nat, revision: nat, m: nat, id: nat)
    requires p in w.regs && m in w.boxes && id !in LiveClients(w, p)
    ensures var t, reg := Registering(w, p, revision, m, id), w.regs[p];
            && m in t.boxes
            && (Joined(t, p, id) <==> |LiveClients(w, p)| != 1024 && !w.boxes[m].closed && |w.boxes[m].queue| + 3 <= 8)
            && (Joined(t, p, id) ==> ClientOf(t, p, id) == Registration(revision, true, m))
            && (Joined(t, p, id) ==> t.boxes[m].Trace() == w.boxes[m].Trace() + Greeting(id, p, reg.head, reg.state))
            && (!Joined(t, p, id) ==> t.boxes[m] == w.boxes[m])
            && (forall other :: other != id ==> (Joined(t, p, other) <==> other in LiveClients(w, p)))
            && (forall other :: other in LiveClients(w, p) ==> Joined(w, p, other))
            && (forall other :: other != id && other in LiveClients(w, p) ==> ClientOf(t, p, other) == ClientOf(w, p, other))
  {
    PurgedAre(w, p);
    PurgedShrinks(SharedOf(w, p));
    hide Purged, Wakeups, LiveClients;
    var b, batch := w.boxes[m], Welcome(id, p, w.regs[p].head, w.regs[p].state);
    assert RequiredItems(batch) == Greeting(id, p, w.regs[p].head, w.regs[p].state);
    assert b.Trace() + RequiredItems(batch) == b.delivered + (b.queue + RequiredItems(batch));
  }

  /** Replacement takes the connection out of its old registry and its queued wakeup with it.
      It succeeds exactly when the new publication has room and the mailbox is open with room
      for the greeting; the same mailbox is then registered at the new Head and greeted after
      all it was owed before. */
  lemma ReplacementMoves(w: World, p: nat, id: nat, q: nat, newId: nat)
    requires Exact(w) && Sound(w) && p in w.regs && q in w.regs && p != q && newId !in LiveClients(w, q)
    requires Joined(w, p, id) && Owned(w.boxes, ClientOf(w, p, id).mailbox)
    ensures Moved(w, p, id, q, newId, ClientOf(w, p, id).mailbox, Replacing(w, p, id, q, newId))
  {
    hide *;
    var m := OwnedMailbox(w, p, id);
    QueueOf(w, p, id);
    BoxSound(w, m);
    QueuedOnce(w.boxes[m], Heads(w.regs));
    ClearedQueue(w.boxes[m].queue, p, w.regs[p].head);
    ReplacingIs(w, p, id, q, newId);
    ClearedMoves(w, p, id, q, newId, m);
  }

  lemma OwnedMailbox(w: World, p: nat, id: nat) returns (m: nat)
    requires Joined(w, p, id) && Owned(w.boxes, ClientOf(w, p, id).mailbox)
    ensures m == ClientOf(w, p, id).mailbox == w.regs[p].clients[id].mailbox
    ensures m in w.boxes && id in w.regs[p].clients && w.boxes[m].alive
  {
    m := ClientOf(w, p, id).mailbox;
  }

  /** Where a replacement leaves the connection that owns the mailbox `m`. */
  predicate Moved(w: World, p: nat, id: nat, q: nat, newId: nat, m: nat, t: World) {
    && m in w.boxes && m in t.boxes && q in w.regs
    && var kept := Without(w.boxes[m].queue, p);
    && !Joined(t, p, id) && NoWakeups(kept)
    && (Joined(t, q, newId) <==> |LiveClients(w, q)| != 1024 && !w.boxes[m].closed && |kept| + 3 <= 8)
    && (Joined(t, q, newId) ==> ClientOf(t, q, newId) == Registration(w.regs[q].head, true, m))
    && t.boxes[m].Trace() == w.boxes[m].delivered + kept
                             + (if Joined(t, q, newId) then Greeting(newId, q, w.regs[q].head, w.regs[q].state) else [])
  }

  lemma ClearedMoves(w: World, p: nat, id: nat, q: nat, newId: nat, m: nat)
    requires p in w.regs && q in w.regs && p != q && m in w.boxes && w.boxes[m].alive && newId !in LiveClients(w, q)
    requires NoWakeups(Without(w.boxes[m].queue, p))
    ensures var u := Put(w, p, Shared(w.boxes, w.regs[p].clients - {id}));
            Moved(w, p, id, q, newId, m, Registering(u.(boxes := u.boxes[m := RemoveWakeup(u.boxes[m], p)]), q, w.regs[q].head, m, newId))
  {
    var u := Put(w, p, Shared(w.boxes, w.regs[p].clients - {id}));
    var z := u.(boxes := u.boxes[m := RemoveWakeup(u.boxes[m], p)]);
    LiveClientsAfter(w, p, id, q, m);
    hide LiveClients, Registering, Without, NoWakeups, Greeting;
    Greeted(z, q, w.regs[q].head, m, newId);
    LeftBehind(z, p, id, q, w.regs[q].head, m, newId);
    assert z.boxes[m].Trace() == w.boxes[m].delivered + Without(w.boxes[m].queue, p);
    assert z.regs[q] == w.regs[q];
  }

  lemma LiveClientsAfter(w: World, p: nat, id: nat, q: nat, m: nat)
    requires p in w.regs && q in w.regs && p != q && m in w.boxes
    ensures var u := Put(w, p, Shared(w.boxes, w.regs[p].clients - {id}));
            LiveClients(u.(boxes := u.boxes[m := RemoveWakeup(u.boxes[m], p)]), q) == LiveClients(w, q)
  {
    hide Without;
  }

  lemma LeftBehind(z: World, p: nat, id: nat, q: nat, revision: nat, m: nat, newId: nat)
    requires p in z.regs && q in z.regs && p != q && m in z.boxes && !Joined(z, p, id)
    ensures !Joined(Registering(z, q, revision, m, newId), p, id)
  {
    hide Enrol, Wakeups;
  }

  /** A completed delta is refused exactly when its registration is missing, its connection
      gone or closed, or a wakeup due at once does not fit; it then leaves no registration.
      An accepted schedule is the one asked for, already sent if Head has reached it, and the
      only ordinary wakeup left in the mailbox is the one it sends. */
  lemma CompletionInstalls(w: World, p: nat, id: nat, wakeAt: nat, wakeSent: bool)
    requires Exact(w) && Sound(w) && p in w.regs
    ensures var head := w.regs[p].head;
            var due := !wakeSent && head >= wakeAt;
            var (accepted, s) := Complete(SharedOf(w, p), id, p, head, Replace(wakeAt, wakeSent));
            && (accepted ==> Joined(w, p, id))
            && (id in s.clients <==> accepted)
            && (accepted ==>
                && var m := ClientOf(w, p, id).mailbox;
                && s.clients[id] == Registration(wakeAt, wakeSent || due, m)
                && m in s.boxes && m in w.boxes
                && NoWakeups(Without(w.boxes[m].queue, p))
                && s.boxes[m].queue == Without(w.boxes[m].queue, p) + (if due then [GraphWakeup(p, head)] else []))
            && (Joined(w, p, id) ==>
                && var m := ClientOf(w, p, id).mailbox;
                && m in w.boxes
                && (accepted <==> w.boxes[m].alive && !w.boxes[m].closed
                                  && (due ==> |Without(w.boxes[m].queue, p)| != SSE_CLIENT_BUFFER_CAPACITY)))
  {
    hide Exact, Sound, Without, Position, BoxOk, Heads, QueuedCurrent, OneWakeupEach;
    if Joined(w, p, id) {
      var m := ClientOf(w, p, id).mailbox;
      QueueOf(w, p, id);
      BoxSound(w, m);
      QueuedOnce(w.boxes[m], Heads(w.regs));
      ClearedQueue(w.boxes[m].queue, p, w.regs[p].head);
      NoneQueued(Without(w.boxes[m].queue, p), p);
    }
  }

  /** Validation accepts exactly a registration whose connection is there and open, and then
      changes nothing; otherwise it leaves no registration behind. */
  lemma ValidationLooks(w: World, p: nat, id: nat)
    requires p in w.regs
    ensures var (accepted, s) := Complete(SharedOf(w, p), id, p, w.regs[p].head, ValidateOnly);
            && (accepted <==> Joined(w, p, id) && ClientOf(w, p, id).mailbox in w.boxes
                              && w.boxes[ClientOf(w, p, id).mailbox].alive && !w.boxes[ClientOf(w, p, id).mailbox].closed)
            && s.boxes == w.boxes
            && s.clients == if accepted then w.regs[p].clients else w.regs[p].clients - {id}
  {
    if id !in w.regs[p].clients {
      assert w.regs[p].clients - {id} == w.regs[p].clients;
    }
  }

  lemma NoneQueued(q: seq<Item>, p: nat)
    requires NoWakeups(q)
    ensures Position(q, p) == |q|
  {
  }
}
