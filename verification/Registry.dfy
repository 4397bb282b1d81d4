/**
 * The publication-local client registry: wake schedules, the visit every live
 * client receives when Head advances or the lifecycle state changes, and the
 * transfer of a connection to a replacement publication. The operations are
 * given on values, for any kind of mailbox identity `M`, and by a class that
 * works in place on shared mailboxes.
 */
module Registry {
  import opened Mailbox
  import opened Maps
  import opened Publication

  const MAX_SSE_CLIENTS: nat := 1024

  datatype Registration<M> = Registration(wakeAt: nat, wakeSent: bool, mailbox: M)

  type Clients<M> = map<nat, Registration<M>>

  /** The mailboxes and the clients of one registry. */
  datatype Shared<M> = Shared(boxes: map<M, Box>, clients: Clients<M>)

  datatype Enrolment = Registered(identifier: nat) | RegistrationMissing | AtCapacity | Refused(reason: Admission)

  datatype Notice = Announce(message: Message) | Advance(publication: nat, revision: nat)

  predicate Owned<M>(boxes: map<M, Box>, m: M) { m in boxes && boxes[m].alive }

  /** What a notice does to one live client: its mailbox and its sent flag, or nothing
      if the client is dropped. */
  function Notified(b: Box, wakeAt: nat, wakeSent: bool, n: Notice): Option<(Box, bool)> {
    match n
    case Announce(message) =>
      var (a, after) := AdmitRequired(b, [message]);
      if a.Admitted? then Some((after, wakeSent)) else None
    case Advance(p, r) =>
      if wakeSent then
        var (a, after) := CoalesceWakeup(b, p, r);
        if a.Admitted? then Some((after, true)) else None
      else if r >= wakeAt then
        var (a, after) := AdmitWakeup(b, p, r);
        if a.Admitted? then Some((after, true)) else None
      else Some((b, false))
  }

  function Visit<M>(s: Shared<M>, id: nat, n: Notice): Shared<M> {
    if id !in s.clients then s
    else
      var c := s.clients[id];
      if !Owned(s.boxes, c.mailbox) then s.(clients := s.clients - {id})
      else
        var outcome := Notified(s.boxes[c.mailbox], c.wakeAt, c.wakeSent, n);
        if outcome.None? then s.(clients := s.clients - {id})
        else Shared(s.boxes[c.mailbox := outcome.value.0], s.clients[id := c.(wakeSent := outcome.value.1)])
  }

  /** Visits the clients in the order a hash map happens to yield them. */
  function VisitAll<M>(s: Shared<M>, order: seq<nat>, n: Notice): Shared<M> {
    if order == [] then s else Visit(VisitAll(s, order[..|order| - 1], n), order[|order| - 1], n)
  }

  ghost predicate Lists(order: seq<nat>, keys: set<nat>) {
    && (forall id :: id in keys <==> id in order)
    && forall i, j :: 0 <= i < j < |order| ==> order[i] != order[j]
  }

  function Purged<M>(s: Shared<M>): Clients<M> {
    map id | id in s.clients && Owned(s.boxes, s.clients[id].mailbox) :: s.clients[id]
  }

  function Welcome(identifier: nat, p: nat, head: nat, state: PublicationState): seq<Message> {
    [ClientRegistration(identifier), StateMessage(p, head, state), WakeupMessage(p, head)]
  }

  function Enrol<M>(s: Shared<M>, p: nat, head: nat, state: PublicationState, revision: nat, m: M, id: nat)
    : (Enrolment, Shared<M>)
    requires m in s.boxes
  {
    var live := Purged(s);
    if |live| == MAX_SSE_CLIENTS then (AtCapacity, s.(clients := live))
    else
      var (a, b) := AdmitRequired(s.boxes[m], Welcome(id, p, head, state));
      if a.Admitted? then (Registered(id), Shared(s.boxes[m := b], live[id := Registration(revision, true, m)]))
      else (Refused(a), s.(clients := live))
  }

  function Complete<M>(s: Shared<M>, id: nat, p: nat, head: nat, action: ScheduleAction): (bool, Shared<M>) {
    if id !in s.clients then (false, s)
    else
      var m := s.clients[id].mailbox;
      if !Owned(s.boxes, m) || s.boxes[m].closed then (false, s.(clients := s.clients - {id}))
      else
        match action
        case ValidateOnly => (true, s)
        case Replace(wakeAt, wakeSent) =>
          var cleared := RemoveWakeup(s.boxes[m], p);
          if !wakeSent && head >= wakeAt then
            var (a, b) := AdmitWakeup(cleared, p, head);
            if a.Admitted? then (true, Shared(s.boxes[m := b], s.clients[id := Registration(wakeAt, true, m)]))
            else (false, Shared(s.boxes[m := cleared], s.clients - {id}))
          else (true, Shared(s.boxes[m := cleared], s.clients[id := Registration(wakeAt, wakeSent, m)]))
  }

  /** Takes over the live mailbox `m` from publication `p`: its queued wakeup of `p` goes,
      and it is enrolled with `q` at that publication's Head. */
  function Accept<M>(s: Shared<M>, m: M, p: nat, q: nat, head: nat, state: PublicationState, newId: nat)
    : (Enrolment, Shared<M>)
    requires m in s.boxes
  {
    Enrol(s.(boxes := s.boxes[m := RemoveWakeup(s.boxes[m], p)]), q, head, state, head, m, newId)
  }

  /** Moves the registration `id` of publication `p` out of `from` into the clients `to`
      of publication `q`; returns the outcome, the mailboxes and both client maps. */
  function Transfer<M>(boxes: map<M, Box>, from: Clients<M>, id: nat, p: nat, to: Clients<M>, q: nat, head: nat,
                       state: PublicationState, newId: nat): (Enrolment, map<M, Box>, Clients<M>, Clients<M>)
  {
    if id !in from then (RegistrationMissing, boxes, from, to)
    else if !Owned(boxes, from[id].mailbox) then (RegistrationMissing, boxes, from - {id}, to)
    else
      var (r, s) := Accept(Shared(boxes, to), from[id].mailbox, p, q, head, state, newId);
      (r, s.boxes, from - {id}, s.clients)
  }

  ghost function Boxes(ms: set<SseMailbox>): map<SseMailbox, Box>
    reads ms
  {
    map m | m in ms :: m.Value()
  }

  ghost predicate AllFit(ms: set<SseMailbox>)
    reads ms
  {
    forall m :: m in ms ==> m.Fits()
  }

  class SseClientRegistry {
    const publication: nat
    var state: PublicationState
    var head: nat
    var clients: Clients<SseMailbox>

    ghost predicate Covers(ms: set<SseMailbox>)
      reads this
    {
      forall id :: id in clients ==> clients[id].mailbox in ms
    }

    ghost function View(ms: set<SseMailbox>): Shared<SseMailbox>
      reads this, ms
    {
      Shared(Boxes(ms), clients)
    }

    constructor (publication: nat, state: PublicationState, head: nat)
      ensures this.publication == publication && this.state == state && this.head == head && clients == map[]
    {
      this.publication, this.state, this.head, clients := publication, state, head, map[];
    }

    method AnnounceTo(id: nat, message: Message, ghost ms: set<SseMailbox>)
      requires id in clients && Covers(ms) && AllFit(ms)
      modifies this`clients, ms
      ensures View(ms) == Visit(old(View(ms)), id, Announce(message))
      ensures Covers(ms) && AllFit(ms)
    {
      hide AdmitRequired, AdmitWakeup, CoalesceWakeup, RemoveWakeup, Coalesced, Position, Without;
      var registration := clients[id];
      if !registration.mailbox.alive {
        clients := clients - {id};
        return;
      }
      var admission := registration.mailbox.AdmitBatch([message]);
      assert Boxes(ms) == old(Boxes(ms))[registration.mailbox := registration.mailbox.Value()];
      if !admission.Admitted? {
        clients := clients - {id};
      } else {
        assert clients == clients[id := registration];
      }
    }

    /** One client's share of a Head advance, under its mailbox lock. */
    method Wake(mailbox: SseMailbox, wakeAt: nat, wakeSent: bool, revision: nat) returns (kept: bool, sent: bool)
      requires mailbox.Fits()
      modifies mailbox
      ensures mailbox.Fits()
      ensures kept ==> Notified(old(mailbox.Value()), wakeAt, wakeSent, Advance(publication, revision)) == Some((mailbox.Value(), sent))
      ensures !kept ==> Notified(old(mailbox.Value()), wakeAt, wakeSent, Advance(publication, revision)) == None
      ensures !kept ==> mailbox.Value() == old(mailbox.Value())
    {
      hide AdmitWakeup, CoalesceWakeup, Coalesced, Position, Without;
      var admission, moved := Admitted, false;
      if wakeSent {
        admission, moved := mailbox.CoalesceGraphWakeup(publication, revision);
      } else if revision >= wakeAt {
        admission := mailbox.AdmitGraphWakeup(publication, revision);
      }
      kept := admission.Admitted?;
      sent := wakeSent || revision >= wakeAt;
    }

    method AdvanceTo(id: nat, revision: nat, ghost ms: set<SseMailbox>)
      requires id in clients && Covers(ms) && AllFit(ms)
      modifies this`clients, ms
      ensures View(ms) == Visit(old(View(ms)), id, Advance(publication, revision))
      ensures Covers(ms) && AllFit(ms)
    {
      hide Notified;
      var registration := clients[id];
      if !registration.mailbox.alive {
        clients := clients - {id};
        return;
      }
      var kept, sent := Wake(registration.mailbox, registration.wakeAt, registration.wakeSent, revision);
      assert Boxes(ms) == old(Boxes(ms))[registration.mailbox := registration.mailbox.Value()];
      if kept {
        clients := clients[id := registration.(wakeSent := sent)];
      } else {
        clients := clients - {id};
      }
    }

    /** `order` is the order in which the clients were visited. */
    method PublishState(newState: PublicationState, revision: nat, ghost ms: set<SseMailbox>)
      returns (ghost order: seq<nat>)
      requires head == revision && Covers(ms) && AllFit(ms)
      modifies this, ms
      ensures Lists(order, old(clients).Keys)
      ensures View(ms) == VisitAll(old(View(ms)), order, Announce(StateMessage(publication, revision, newState)))
      ensures state == newState && head == old(head)
      ensures Covers(ms) && AllFit(ms)
    {
      hide Visit, VisitAll, Lists, Boxes, AllFit;
      state := newState;
      var message := StateMessage(publication, revision, newState);
      order := [];
      var todo := clients.Keys;
      ghost var start, keys := View(ms), clients.Keys;
      ListsNone(keys);
      VisitNone(start, Announce(message));
      while todo != {}
        invariant todo <= clients.Keys
        invariant Lists(order, keys - todo) && todo <= keys
        invariant View(ms) == VisitAll(start, order, Announce(message))
        invariant state == newState && head == old(head)
        invariant Covers(ms) && AllFit(ms)
      {
        var id :| id in todo;
        VisitNext(start, order, id, Announce(message));
        ListsNext(order, keys - todo, id);
        VisitKeys(View(ms), id, Announce(message));
        AnnounceTo(id, message, ms);
        assert keys - (todo - {id}) == keys - todo + {id};
        todo, order := todo - {id}, order + [id];
      }
      assert keys - todo == keys;
    }

    method AdvanceHead(revision: nat, ghost ms: set<SseMailbox>) returns (ghost order: seq<nat>)
      requires revision >= head && Covers(ms) && AllFit(ms)
      modifies this, ms
      ensures Lists(order, old(clients).Keys)
      ensures View(ms) == VisitAll(old(View(ms)), order, Advance(publication, revision))
      ensures state == old(state) && head == revision
      ensures Covers(ms) && AllFit(ms)
    {
      hide Visit, VisitAll, Lists, Boxes, AllFit;
      head := revision;
      order := [];
      var todo := clients.Keys;
      ghost var start, keys := View(ms), clients.Keys;
      ListsNone(keys);
      VisitNone(start, Advance(publication, revision));
      while todo != {}
        invariant todo <= clients.Keys
        invariant Lists(order, keys - todo) && todo <= keys
        invariant View(ms) == VisitAll(start, order, Advance(publication, revision))
        invariant state == old(state) && head == revision
        invariant Covers(ms) && AllFit(ms)
      {
        var id :| id in todo;
        VisitNext(start, order, id, Advance(publication, revision));
        ListsNext(order, keys - todo, id);
        VisitKeys(View(ms), id, Advance(publication, revision));
        AdvanceTo(id, revision, ms);
        assert keys - (todo - {id}) == keys - todo + {id};
        todo, order := todo - {id}, order + [id];
      }
      assert keys - todo == keys;
    }

    method Remove(id: nat) returns (existed: bool)
      modifies this`clients
      ensures existed <==> id in old(clients)
      ensures clients == old(clients) - {id}
    {
      existed := id in clients;
      clients := clients - {id};
    }

    /** Drops the registrations whose connection is gone. */
    method Purge(ghost ms: set<SseMailbox>)
      requires Covers(ms)
      modifies this`clients
      ensures clients == Purged(old(View(ms)))
      ensures Covers(ms)
    {
      var todo := clients.Keys;
      while todo != {}
        invariant todo <= old(clients).Keys
        invariant clients == map id | id in old(clients) && (id in todo || old(clients)[id].mailbox.alive) :: old(clients)[id]
      {
        var id :| id in todo;
        if !clients[id].mailbox.alive {
          clients := clients - {id};
        }
        todo := todo - {id};
      }
    }

    /** `identifier` is the first sampled key that no live registration uses. */
    method Register(revision: nat, mailbox: SseMailbox, identifier: nat, ghost ms: set<SseMailbox>)
      returns (r: Enrolment)
      requires Covers(ms) && AllFit(ms) && mailbox in ms
      requires identifier !in Purged(View(ms))
      modifies this`clients, ms
      ensures (r, View(ms)) == Enrol(old(View(ms)), publication, head, state, revision, mailbox, identifier)
      ensures Covers(ms) && AllFit(ms)
    {
      hide AdmitRequired, AdmitWakeup, CoalesceWakeup, RemoveWakeup, Coalesced, Position, Without;
      Purge(ms);
      if |clients| == MAX_SSE_CLIENTS {
        return AtCapacity;
      }
      var admission := mailbox.AdmitBatch(Welcome(identifier, publication, head, state));
      assert Boxes(ms) == old(Boxes(ms))[mailbox := mailbox.Value()];
      if !admission.Admitted? {
        assert Boxes(ms) == old(Boxes(ms));
        return Refused(admission);
      }
      clients := clients[identifier := Registration(revision, true, mailbox)];
      r := Registered(identifier);
    }

    /** Clears the mailbox for a new schedule and sends its wakeup if Head is already there. */
    method Reschedule(mailbox: SseMailbox, wakeAt: nat, wakeSent: bool) returns (kept: bool, sent: bool)
      requires mailbox.Fits()
      modifies mailbox
      ensures mailbox.Fits()
      ensures var cleared := RemoveWakeup(old(mailbox.Value()), publication);
              if !wakeSent && head >= wakeAt then
                kept == AdmitWakeup(cleared, publication, head).0.Admitted? && sent
                && mailbox.Value() == if kept then AdmitWakeup(cleared, publication, head).1 else cleared
              else kept && sent == wakeSent && mailbox.Value() == cleared
    {
      hide AdmitWakeup, RemoveWakeup;
      var removed := mailbox.RemoveGraphWakeup(publication);
      if !wakeSent && head >= wakeAt {
        var admission := mailbox.AdmitGraphWakeup(publication, head);
        return admission.Admitted?, true;
      }
      return true, wakeSent;
    }

    method CompleteDelta(id: nat, action: ScheduleAction, ghost ms: set<SseMailbox>) returns (accepted: bool)
      requires Covers(ms) && AllFit(ms)
      modifies this`clients, ms
      ensures (accepted, View(ms)) == Complete(old(View(ms)), id, publication, head, action)
      ensures Covers(ms) && AllFit(ms)
    {
      hide AdmitWakeup, RemoveWakeup;
      if id !in clients {
        return false;
      }
      var mailbox := clients[id].mailbox;
      if !mailbox.alive || mailbox.closed {
        clients := clients - {id};
        return false;
      }
      if action.ValidateOnly? {
        return true;
      }
      var sent;
      accepted, sent := Reschedule(mailbox, action.wakeAt, action.wakeSent);
      assert Boxes(ms) == old(Boxes(ms))[mailbox := mailbox.Value()];
      if accepted {
        clients := clients[id := Registration(action.wakeAt, sent, mailbox)];
      } else {
        clients := clients - {id};
      }
    }

    /** Dropping dead registrations does not look at queues, so it may follow the removal. */
    method AcceptMailbox(mailbox: SseMailbox, previous: nat, newId: nat, ghost ms: set<SseMailbox>)
      returns (r: Enrolment)
      requires Covers(ms) && AllFit(ms) && mailbox in ms
      requires newId !in Purged(View(ms))
      modifies this`clients, ms
      ensures (r, View(ms)) == Accept(old(View(ms)), mailbox, previous, publication, head, state, newId)
      ensures Covers(ms) && AllFit(ms)
    {
      hide Enrol, Without;
      var removed := mailbox.RemoveGraphWakeup(previous);
      assert Boxes(ms) == old(Boxes(ms))[mailbox := mailbox.Value()];
      assert Purged(View(ms)) == Purged(old(View(ms)));
      r := Register(head, mailbox, newId, ms);
    }

    method ReplaceRegistrationInto(id: nat, replacement: SseClientRegistry, newId: nat, ghost ms: set<SseMailbox>)
      returns (r: Enrolment)
      requires this != replacement && publication != replacement.publication
      requires Covers(ms) && replacement.Covers(ms) && AllFit(ms)
      requires newId !in Purged(replacement.View(ms))
      modifies this`clients, replacement`clients, ms
      ensures (r, Boxes(ms), clients, replacement.clients) ==
              Transfer(old(Boxes(ms)), old(clients), id, publication, old(replacement.clients),
                       replacement.publication, replacement.head, replacement.state, newId)
      ensures Covers(ms) && replacement.Covers(ms) && AllFit(ms)
    {
      hide Accept;
      if id !in clients {
        return RegistrationMissing;
      }
      var mailbox := clients[id].mailbox;
      clients := clients - {id};
      if !mailbox.alive {
        return RegistrationMissing;
      }
      r := replacement.AcceptMailbox(mailbox, publication, newId, ms);
    }
  }

  lemma VisitNone<M>(s: Shared<M>, n: Notice)
    ensures VisitAll(s, [], n) == s
  {
  }

  lemma VisitNext<M>(s: Shared<M>, order: seq<nat>, id: nat, n: Notice)
    ensures VisitAll(s, order + [id], n) == Visit(VisitAll(s, order, n), id, n)
  {
    assert (order + [id])[..|order|] == order;
  }

  lemma VisitKeys<M>(s: Shared<M>, id: nat, n: Notice)
    ensures s.clients.Keys - {id} <= Visit(s, id, n).clients.Keys
    ensures Visit(s, id, n).clients.Keys <= s.clients.Keys
  {
  }

  lemma ListsNone(keys: set<nat>)
    ensures Lists([], keys - keys)
  {
  }

  lemma ListsNext(order: seq<nat>, keys: set<nat>, id: nat)
    requires Lists(order, keys) && id !in keys
    ensures Lists(order + [id], keys + {id})
  {
  }
}
