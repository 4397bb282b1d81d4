/**
 * Connections and publications together: every run of connecting, receiving,
 * registering, publishing, completing and replacing. What a connection is sent
 * stays ordered and complete, and no client misses a wakeup.
 */
module Delivery {
  import opened Mailbox
  import opened Maps
  import opened Publication
  import opened Registry

  datatype Reg = Reg(state: PublicationState, head: nat, clients: Clients<nat>)

  /** When a schedule was installed: the ordinary wakeups of its publication delivered
      until then, and whether the schedule started out as already sent. */
  datatype Mark = Mark(base: nat, startedSent: bool)

  /** Mailboxes by identity, registries by publication, and install marks. */
  datatype World = World(boxes: map<nat, Box>, regs: map<nat, Reg>, marks: map<(nat, nat), Mark>)

  datatype Step =
    | Connect(m: nat)
    | Deliver(m: nat)
    | CloseMailbox(m: nat)
    | Disconnect(m: nat)
    | Open(p: nat, state: PublicationState, head: nat)
    | Register(p: nat, revision: nat, m: nat, id: nat)
    | Remove(p: nat, id: nat)
    | PublishState(p: nat, state: PublicationState, order: seq<nat>)
    | AdvanceHead(p: nat, revision: nat, order: seq<nat>)
    | CompleteDelta(p: nat, id: nat, action: ScheduleAction)
    | ReplaceInto(p: nat, id: nat, q: nat, newId: nat)

  function Heads(regs: map<nat, Reg>): map<nat, nat> { map p | p in regs :: regs[p].head }

  function SharedOf(w: World, p: nat): Shared<nat>
    requires p in w.regs
  {
    Shared(w.boxes, w.regs[p].clients)
  }

  function Put(w: World, p: nat, s: Shared<nat>): World
    requires p in w.regs
  {
    w.(boxes := s.boxes, regs := w.regs[p := w.regs[p].(clients := s.clients)])
  }

  function Wakeups(s: seq<Item>, p: nat): nat {
    if s == [] then 0 else Wakeups(s[..|s| - 1], p) + if IsWakeup(s[|s| - 1], p) then 1 else 0
  }

  ghost predicate Allowed(w: World, step: Step) {
    match step
    case Connect(m) => m !in w.boxes
    case Deliver(m) => m in w.boxes && w.boxes[m].queue != []
    case CloseMailbox(m) => m in w.boxes
    case Disconnect(m) => m in w.boxes
    case Open(p, _, _) => p !in w.regs
    case Register(p, _, m, id) => p in w.regs && Owned(w.boxes, m) && id !in Purged(SharedOf(w, p))
    case Remove(p, _) => p in w.regs
    case PublishState(p, _, order) => p in w.regs && Lists(order, w.regs[p].clients.Keys)
    case AdvanceHead(p, revision, order) =>
      p in w.regs && revision >= w.regs[p].head && Lists(order, w.regs[p].clients.Keys)
    case CompleteDelta(p, _, _) => p in w.regs
    case ReplaceInto(p, _, q, newId) =>
      p in w.regs && q in w.regs && p != q && newId !in Purged(SharedOf(w, q))
  }

  function Registering(w: World, p: nat, revision: nat, m: nat, id: nat): World
    requires p in w.regs && m in w.boxes
  {
    var reg := w.regs[p];
    var (r, s) := Enrol(SharedOf(w, p), p, reg.head, reg.state, revision, m, id);
    var t := Put(w, p, s);
    if r.Registered? then t.(marks := t.marks[(p, id) := Mark(Wakeups(w.boxes[m].delivered, p), true)]) else t
  }

  function Advancing(w: World, p: nat, revision: nat, order: seq<nat>): World
    requires p in w.regs
  {
    var t := w.(regs := w.regs[p := w.regs[p].(head := revision)]);
    Put(t, p, VisitAll(SharedOf(t, p), order, Advance(p, revision)))
  }

  function Publishing(w: World, p: nat, state: PublicationState, order: seq<nat>): World
    requires p in w.regs
  {
    var t := w.(regs := w.regs[p := w.regs[p].(state := state)]);
    Put(t, p, VisitAll(SharedOf(t, p), order, Announce(StateMessage(p, t.regs[p].head, state))))
  }

  function Completing(w: World, p: nat, id: nat, action: ScheduleAction): World
    requires p in w.regs
  {
    var (accepted, s) := Complete(SharedOf(w, p), id, p, w.regs[p].head, action);
    var t := Put(w, p, s);
    if accepted && action.Replace? && id in s.clients && s.clients[id].mailbox in w.boxes then
      t.(marks := t.marks[(p, id) := Mark(Wakeups(w.boxes[s.clients[id].mailbox].delivered, p), action.wakeSent)])
    else t
  }

  function Replacing(w: World, p: nat, id: nat, q: nat, newId: nat): World
    requires p in w.regs && q in w.regs && p != q
  {
    var from, to := w.regs[p], w.regs[q];
    var (r, boxes, left, joined) := Transfer(w.boxes, from.clients, id, p, to.clients, q, to.head, to.state, newId);
    var t := w.(boxes := boxes, regs := w.regs[p := from.(clients := left)][q := to.(clients := joined)]);
    if r.Registered? && from.clients[id].mailbox in w.boxes then
      t.(marks := t.marks[(q, newId) := Mark(Wakeups(w.boxes[from.clients[id].mailbox].delivered, q), true)])
    else t
  }

  ghost function Next(w: World, step: Step): World
    requires Allowed(w, step)
  {
    match step
    case Connect(m) => w.(boxes := w.boxes[m := EMPTY_BOX])
    case Deliver(m) => w.(boxes := w.boxes[m := Receive(w.boxes[m])])
    case CloseMailbox(m) => w.(boxes := w.boxes[m := w.boxes[m].(closed := true)])
    case Disconnect(m) => w.(boxes := w.boxes[m := w.boxes[m].(alive := false)])
    case Open(p, state, head) => w.(regs := w.regs[p := Reg(state, head, map[])])
    case Register(p, revision, m, id) => Registering(w, p, revision, m, id)
    case Remove(p, id) => Put(w, p, Shared(w.boxes, w.regs[p].clients - {id}))
    case PublishState(p, state, order) => Publishing(w, p, state, order)
    case AdvanceHead(p, revision, order) => Advancing(w, p, revision, order)
    case CompleteDelta(p, id, action) => Completing(w, p, id, action)
    case ReplaceInto(p, id, q, newId) => Replacing(w, p, id, q, newId)
  }

  // ---- Order, conservation and no missed wakeup, for every run ----

  predicate Woken<M>(c: Registration<M>, head: nat) { c.wakeSent || head < c.wakeAt }

  predicate BoxesOk<M>(boxes: map<M, Box>, heads: map<nat, nat>) {
    forall m :: m in boxes ==> BoxOk(boxes[m], heads)
  }

  predicate ClientsOk<M>(clients: Clients<M>, known: set<M>, head: nat) {
    && |clients| <= MAX_SSE_CLIENTS
    && forall id :: id in clients ==> clients[id].mailbox in known && Woken(clients[id], head)
  }

  /** Every mailbox is in order and complete, and every client has been sent its wakeup
      or is still ahead of Head. */
  predicate Sound(w: World) {
    && BoxesOk(w.boxes, Heads(w.regs))
    && forall p :: p in w.regs ==> ClientsOk(w.regs[p].clients, w.boxes.Keys, w.regs[p].head)
  }

  predicate NoticeOk(n: Notice, heads: map<nat, nat>) {
    match n
    case Announce(message) => Current(AboutOf(Required(message)), heads)
    case Advance(p, r) => p in heads && heads[p] == r
  }

  lemma NotifiedKeeps(b: Box, wakeAt: nat, wakeSent: bool, n: Notice, heads: map<nat, nat>)
    requires BoxOk(b, heads) && NoticeOk(n, heads)
    ensures Notified(b, wakeAt, wakeSent, n).Some? ==> BoxOk(Notified(b, wakeAt, wakeSent, n).value.0, heads)
  {
    hide BoxOk;
    match n
    case Announce(message) => AdmitRequiredKeeps(b, [message], heads);
    case Advance(p, r) => CoalesceKeeps(b, p, r, heads); AdmitWakeupKeeps(b, p, r, heads);
  }

  lemma VisitKeeps<M>(s: Shared<M>, id: nat, n: Notice, heads: map<nat, nat>)
    requires BoxesOk(s.boxes, heads) && NoticeOk(n, heads)
    ensures BoxesOk(Visit(s, id, n).boxes, heads)
    ensures Visit(s, id, n).boxes.Keys == s.boxes.Keys
    ensures Visit(s, id, n).clients.Keys <= s.clients.Keys
  {
    hide BoxOk, Notified, NoticeOk;
    if id in s.clients && Owned(s.boxes, s.clients[id].mailbox) {
      var c := s.clients[id];
      NotifiedKeeps(s.boxes[c.mailbox], c.wakeAt, c.wakeSent, n, heads);
    }
  }

  /** A client survives a visit with the same mailbox and boundary; an advance leaves it woken. */
  lemma VisitWakes<M>(s: Shared<M>, id: nat, n: Notice, other: nat)
    requires other in Visit(s, id, n).clients
    ensures other in s.clients
    ensures Visit(s, id, n).clients[other] == s.clients[other].(wakeSent := Visit(s, id, n).clients[other].wakeSent)
    ensures s.clients[other].wakeSent ==> Visit(s, id, n).clients[other].wakeSent
    ensures n.Advance? && other == id ==> Woken(Visit(s, id, n).clients[other], n.revision)
  {
    hide AdmitRequired, AdmitWakeup, CoalesceWakeup;
  }

  lemma {:induction false} VisitAllKeeps<M>(s: Shared<M>, order: seq<nat>, n: Notice, heads: map<nat, nat>)
    requires BoxesOk(s.boxes, heads) && NoticeOk(n, heads)
    ensures BoxesOk(VisitAll(s, order, n).boxes, heads)
    ensures VisitAll(s, order, n).boxes.Keys == s.boxes.Keys
    ensures VisitAll(s, order, n).clients.Keys <= s.clients.Keys
    decreases |order|
  {
    hide Visit, BoxesOk, NoticeOk;
    if order != [] {
      VisitAllKeeps(s, order[..|order| - 1], n, heads);
      VisitKeeps(VisitAll(s, order[..|order| - 1], n), order[|order| - 1], n, heads);
    }
  }

  lemma {:induction false} VisitAllWakes<M>(s: Shared<M>, order: seq<nat>, n: Notice, id: nat)
    requires id in VisitAll(s, order, n).clients
    ensures id in s.clients
    ensures VisitAll(s, order, n).clients[id] == s.clients[id].(wakeSent := VisitAll(s, order, n).clients[id].wakeSent)
    ensures s.clients[id].wakeSent ==> VisitAll(s, order, n).clients[id].wakeSent
    ensures n.Advance? && id in order ==> Woken(VisitAll(s, order, n).clients[id], n.revision)
    decreases |order|
  {
    hide Visit;
    if order != [] {
      var last := order[|order| - 1];
      var before := VisitAll(s, order[..|order| - 1], n);
      VisitWakes(before, last, n, id);
      VisitAllWakes(s, order[..|order| - 1], n, id);
    }
  }

  lemma SubmapSize<K, V>(small: map<K, V>, big: map<K, V>)
    requires small.Keys <= big.Keys
    ensures |small| <= |big|
  {
    SubsetSize(small.Keys, big.Keys);
    assert |small| == |small.Keys| && |big| == |big.Keys|;
  }

  lemma {:induction false} SubsetSize<K>(small: set<K>, big: set<K>)
    requires small <= big
    ensures |small| <= |big|
  {
    if small != {} {
      var k :| k in small;
      SubsetSize(small - {k}, big - {k});
    }
  }

  lemma HeadsGrow<M>(boxes: map<M, Box>, before: map<nat, nat>, after: map<nat, nat>)
    requires BoxesOk(boxes, before)
    requires forall p :: p in before ==> p in after && before[p] <= after[p]
    ensures BoxesOk(boxes, after)
  {
    forall m | m in boxes ensures BoxOk(boxes[m], after) {
      var t := boxes[m].Trace();
      forall i | 0 <= i < |t| ensures Within(AboutOf(t[i]), after) {
        assert Within(AboutOf(t[i]), before);
      }
    }
  }

  /** One registry and the mailboxes change; every other registry stays as it is. */
  lemma SoundAfter(w: World, t: World, p: nat)
    requires Sound(w) && w.boxes.Keys <= t.boxes.Keys
    requires forall q :: q in t.regs && q != p ==> q in w.regs && t.regs[q] == w.regs[q]
    requires BoxesOk(t.boxes, Heads(t.regs))
    requires p in t.regs ==> ClientsOk(t.regs[p].clients, t.boxes.Keys, t.regs[p].head)
    ensures Sound(t)
  {
    hide BoxesOk, Heads;
    forall q | q in t.regs ensures ClientsOk(t.regs[q].clients, t.boxes.Keys, t.regs[q].head) {
      if q != p {
        assert ClientsOk(w.regs[q].clients, w.boxes.Keys, w.regs[q].head);
      }
    }
  }

  lemma BoxStepKeeps(w: World, m: nat, b: Box)
    requires Sound(w) && BoxOk(b, Heads(w.regs))
    ensures Sound(w.(boxes := w.boxes[m := b]))
  {
    hide BoxOk, Heads, ClientsOk;
    var t := w.(boxes := w.boxes[m := b]);
    forall q | q in t.regs ensures ClientsOk(t.regs[q].clients, t.boxes.Keys, t.regs[q].head) {
      ClientsGrow(w.regs[q].clients, w.boxes.Keys, t.boxes.Keys, t.regs[q].head);
    }
  }

  lemma ClientsGrow<M>(clients: Clients<M>, known: set<M>, more: set<M>, head: nat)
    requires ClientsOk(clients, known, head) && known <= more
    ensures ClientsOk(clients, more, head)
  {
  }

  lemma OpenKeeps(w: World, p: nat, state: PublicationState, head: nat)
    requires Sound(w) && p !in w.regs
    ensures Sound(w.(regs := w.regs[p := Reg(state, head, map[])]))
  {
    hide BoxOk, BoxesOk;
    var t := w.(regs := w.regs[p := Reg(state, head, map[])]);
    HeadsGrow(w.boxes, Heads(w.regs), Heads(t.regs));
    SoundAfter(w, t, p);
  }

  lemma ClientsShrink<M>(clients: Clients<M>, fewer: Clients<M>, known: set<M>, head: nat)
    requires ClientsOk(clients, known, head)
    requires forall id :: id in fewer ==> id in clients && fewer[id] == clients[id]
    ensures ClientsOk(fewer, known, head)
  {
    assert fewer.Keys <= clients.Keys;
    SubmapSize(fewer, clients);
  }

  lemma ClientsJoin<M>(clients: Clients<M>, id: nat, c: Registration<M>, known: set<M>, head: nat)
    requires ClientsOk(clients, known, head) && |clients| < MAX_SSE_CLIENTS
    requires c.mailbox in known && Woken(c, head)
    ensures ClientsOk(clients[id := c], known, head)
  {
    var joined := clients[id := c];
    assert joined.Keys == clients.Keys + {id};
  }

  lemma BoxesUpdate<M>(boxes: map<M, Box>, m: M, b: Box, heads: map<nat, nat>)
    requires BoxesOk(boxes, heads) && BoxOk(b, heads)
    ensures BoxesOk(boxes[m := b], heads)
  {
    hide BoxOk;
  }

  lemma RemoveSound(w: World, p: nat, id: nat)
    requires Sound(w) && p in w.regs
    ensures Sound(Put(w, p, Shared(w.boxes, w.regs[p].clients - {id})))
  {
    hide BoxOk, BoxesOk, ClientsOk;
    var t := Put(w, p, Shared(w.boxes, w.regs[p].clients - {id}));
    assert Heads(t.regs) == Heads(w.regs);
    ClientsShrink(w.regs[p].clients, t.regs[p].clients, w.boxes.Keys, w.regs[p].head);
    SoundAfter(w, t, p);
  }

  lemma WelcomeCurrent(id: nat, p: nat, head: nat, state: PublicationState, heads: map<nat, nat>)
    requires p in heads && heads[p] == head
    ensures forall i :: 0 <= i < 3 ==> Current(AboutOf(Required(Welcome(id, p, head, state)[i])), heads)
  {
  }

  lemma EnrolKeeps<M>(s: Shared<M>, p: nat, head: nat, state: PublicationState, revision: nat, m: M, id: nat,
                      heads: map<nat, nat>)
    requires m in s.boxes && BoxesOk(s.boxes, heads) && ClientsOk(s.clients, s.boxes.Keys, head)
    requires p in heads && heads[p] == head
    ensures var t := Enrol(s, p, head, state, revision, m, id).1;
            BoxesOk(t.boxes, heads) && t.boxes.Keys == s.boxes.Keys && ClientsOk(t.clients, t.boxes.Keys, head)
  {
    hide BoxOk, BoxesOk, ClientsOk, AdmitRequired, Welcome, Purged;
    var live := Purged(s);
    PurgedShrinks(s);
    ClientsShrink(s.clients, live, s.boxes.Keys, head);
    WelcomeCurrent(id, p, head, state, heads);
    WelcomeSize(id, p, head, state);
    var batch := Welcome(id, p, head, state);
    BoxesAt(s.boxes, m, heads);
    AdmitRequiredKeeps(s.boxes[m], batch, heads);
    BoxesUpdate(s.boxes, m, AdmitRequired(s.boxes[m], batch).1, heads);
    if |live| != MAX_SSE_CLIENTS {
      ClientsSize(live, s.boxes.Keys, head);
      ClientsJoin(live, id, Registration(revision, true, m), s.boxes.Keys, head);
    }
  }

  lemma PurgedShrinks<M>(s: Shared<M>)
    ensures forall id :: id in Purged(s) ==> id in s.clients && Purged(s)[id] == s.clients[id]
  {
  }

  lemma BoxesAt<M>(boxes: map<M, Box>, m: M, heads: map<nat, nat>)
    requires BoxesOk(boxes, heads) && m in boxes
    ensures BoxOk(boxes[m], heads)
  {
  }

  lemma ClientsSize<M>(clients: Clients<M>, known: set<M>, head: nat)
    requires ClientsOk(clients, known, head)
    ensures |clients| <= MAX_SSE_CLIENTS
  {
  }

  lemma WelcomeSize(id: nat, p: nat, head: nat, state: PublicationState)
    ensures |Welcome(id, p, head, state)| == 3
  {
  }

  lemma RegisteringKeeps(w: World, p: nat, revision: nat, m: nat, id: nat)
    requires Sound(w) && p in w.regs && m in w.boxes
    ensures Sound(Registering(w, p, revision, m, id))
  {
    hide BoxOk, BoxesOk, ClientsOk, Enrol;
    var t := Registering(w, p, revision, m, id);
    EnrolKeeps(SharedOf(w, p), p, w.regs[p].head, w.regs[p].state, revision, m, id, Heads(w.regs));
    assert Heads(t.regs) == Heads(w.regs);
    SoundAfter(w, t, p);
  }

  lemma CompleteKeeps<M>(s: Shared<M>, id: nat, p: nat, head: nat, action: ScheduleAction, heads: map<nat, nat>)
    requires BoxesOk(s.boxes, heads) && ClientsOk(s.clients, s.boxes.Keys, head)
    requires p in heads && heads[p] == head
    ensures var t := Complete(s, id, p, head, action).1;
            BoxesOk(t.boxes, heads) && t.boxes.Keys == s.boxes.Keys && ClientsOk(t.clients, t.boxes.Keys, head)
  {
    hide BoxOk, AdmitWakeup, RemoveWakeup;
    var t := Complete(s, id, p, head, action).1;
    SubmapSize(t.clients, s.clients);
    if id in s.clients && Owned(s.boxes, s.clients[id].mailbox) {
      var b := s.boxes[s.clients[id].mailbox];
      RemoveKeeps(b, p, heads);
      AdmitWakeupKeeps(RemoveWakeup(b, p), p, head, heads);
    }
  }

  lemma CompletingKeeps(w: World, p: nat, id: nat, action: ScheduleAction)
    requires Sound(w) && p in w.regs
    ensures Sound(Completing(w, p, id, action))
  {
    hide BoxOk, BoxesOk, ClientsOk, Complete;
    var t := Completing(w, p, id, action);
    CompleteKeeps(SharedOf(w, p), id, p, w.regs[p].head, action, Heads(w.regs));
    assert Heads(t.regs) == Heads(w.regs);
    SoundAfter(w, t, p);
  }

  lemma PublishingKeeps(w: World, p: nat, state: PublicationState, order: seq<nat>)
    requires Sound(w) && p in w.regs
    ensures Sound(Publishing(w, p, state, order))
  {
    hide BoxOk, BoxesOk, VisitAll;
    var t := Publishing(w, p, state, order);
    var s, n := SharedOf(w, p), Announce(StateMessage(p, w.regs[p].head, state));
    VisitAllKeeps(s, order, n, Heads(w.regs));
    assert Heads(t.regs) == Heads(w.regs);
    var after := VisitAll(s, order, n);
    SubmapSize(after.clients, s.clients);
    forall id | id in after.clients
      ensures after.clients[id].mailbox in t.boxes.Keys && Woken(after.clients[id], w.regs[p].head)
    {
      VisitAllWakes(s, order, n, id);
    }
    SoundAfter(w, t, p);
  }

  lemma AdvancingKeeps(w: World, p: nat, revision: nat, order: seq<nat>)
    requires Sound(w) && p in w.regs && revision >= w.regs[p].head
    requires Lists(order, w.regs[p].clients.Keys)
    ensures Sound(Advancing(w, p, revision, order))
  {
    hide BoxOk, BoxesOk, VisitAll;
    var t := Advancing(w, p, revision, order);
    var s, n := SharedOf(w, p), Advance(p, revision);
    HeadsGrow(w.boxes, Heads(w.regs), Heads(t.regs));
    VisitAllKeeps(s, order, n, Heads(t.regs));
    var after := VisitAll(s, order, n);
    SubmapSize(after.clients, s.clients);
    forall id | id in after.clients
      ensures after.clients[id].mailbox in t.boxes.Keys && Woken(after.clients[id], revision)
    {
      VisitAllWakes(s, order, n, id);
    }
    SoundAfter(w, t, p);
  }

  /** A replacement is a removal, a cleared wakeup and a registration. */
  lemma ReplacingIs(w: World, p: nat, id: nat, q: nat, newId: nat)
    requires p in w.regs && q in w.regs && p != q && id in w.regs[p].clients
    requires Owned(w.boxes, w.regs[p].clients[id].mailbox)
    ensures var m := w.regs[p].clients[id].mailbox;
            var u := Put(w, p, Shared(w.boxes, w.regs[p].clients - {id}));
            Replacing(w, p, id, q, newId)
            == Registering(u.(boxes := u.boxes[m := RemoveWakeup(u.boxes[m], p)]), q, w.regs[q].head, m, newId)
  {
    hide Enrol, Without, Wakeups;
  }

  lemma ReplacingMisses(w: World, p: nat, id: nat, q: nat, newId: nat)
    requires p in w.regs && q in w.regs && p != q
    requires id !in w.regs[p].clients || !Owned(w.boxes, w.regs[p].clients[id].mailbox)
    ensures Replacing(w, p, id, q, newId) == Put(w, p, Shared(w.boxes, w.regs[p].clients - {id}))
  {
    if id !in w.regs[p].clients {
      assert w.regs[p].clients - {id} == w.regs[p].clients;
    }
  }

  lemma ReplacingKeeps(w: World, p: nat, id: nat, q: nat, newId: nat)
    requires Sound(w) && p in w.regs && q in w.regs && p != q
    ensures Sound(Replacing(w, p, id, q, newId))
  {
    hide Sound, BoxOk, Replacing, Registering, RemoveWakeup;
    RemoveSound(w, p, id);
    var u := Put(w, p, Shared(w.boxes, w.regs[p].clients - {id}));
    if id in w.regs[p].clients && Owned(w.boxes, w.regs[p].clients[id].mailbox) {
      var m := w.regs[p].clients[id].mailbox;
      BoxSound(u, m);
      RemoveKeeps(u.boxes[m], p, Heads(u.regs));
      BoxStepKeeps(u, m, RemoveWakeup(u.boxes[m], p));
      RegisteringKeeps(u.(boxes := u.boxes[m := RemoveWakeup(u.boxes[m], p)]), q, w.regs[q].head, m, newId);
      ReplacingIs(w, p, id, q, newId);
    } else {
      ReplacingMisses(w, p, id, q, newId);
    }
  }

  lemma StepKeepsSound(w: World, step: Step)
    requires Sound(w) && Allowed(w, step)
    ensures Sound(Next(w, step))
  {
    hide Sound, Heads, Registering, Publishing, Advancing, Completing, Replacing;
    match step
    case Connect(m) => EmptyOk(Heads(w.regs)); BoxStepKeeps(w, m, EMPTY_BOX);
    case Deliver(m) => BoxSound(w, m); ReceiveKeeps(w.boxes[m], Heads(w.regs)); BoxStepKeeps(w, m, Receive(w.boxes[m]));
    case CloseMailbox(m) => BoxSound(w, m); BoxStepKeeps(w, m, w.boxes[m].(closed := true));
    case Disconnect(m) => BoxSound(w, m); BoxStepKeeps(w, m, w.boxes[m].(alive := false));
    case Open(p, state, head) => OpenKeeps(w, p, state, head);
    case Register(p, revision, m, id) => RegisteringKeeps(w, p, revision, m, id);
    case Remove(p, id) => RemoveSound(w, p, id);
    case PublishState(p, state, order) => PublishingKeeps(w, p, state, order);
    case AdvanceHead(p, revision, order) => AdvancingKeeps(w, p, revision, order);
    case CompleteDelta(p, id, action) => CompletingKeeps(w, p, id, action);
    case ReplaceInto(p, id, q, newId) => ReplacingKeeps(w, p, id, q, newId);
  }

  lemma EmptyOk(heads: map<nat, nat>)
    ensures BoxOk(EMPTY_BOX, heads)
  {
  }

  lemma BoxSound(w: World, m: nat)
    requires Sound(w) && m in w.boxes
    ensures BoxOk(w.boxes[m], Heads(w.regs))
  {
  }
}
