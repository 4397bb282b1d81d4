/**
 * The bounded SSE mailbox: required messages keep their place, and at most one
 * ordinary graph wakeup per publication is queued and may be coalesced.
 */
module Mailbox {
  import opened Publication

  const SSE_CLIENT_BUFFER_CAPACITY: nat := 8

  datatype Message =
    | ClientRegistration(identifier: nat)
    | StateMessage(publication: nat, revision: nat, state: PublicationState)
    | WakeupMessage(publication: nat, revision: nat)

  datatype Item = Required(message: Message) | GraphWakeup(publication: nat, revision: nat)

  datatype Admission = Admitted | Closed | Full

  datatype Received = Delivered(message: Message) | Finished | Pending

  /**
   * One mailbox together with its history: the items already delivered and the
   * required messages ever admitted. `alive` says whether the connection still
   * owns the mailbox, which is what upgrading a weak reference to it decides.
   */
  datatype Box = Box(alive: bool, closed: bool, queue: seq<Item>, delivered: seq<Item>, admitted: seq<Message>)
  {
    /** Everything the connection has been or will be sent, in order. */
    function Trace(): seq<Item> { delivered + queue }
  }

  const EMPTY_BOX := Box(true, false, [], [], [])

  predicate IsWakeup(i: Item, p: nat) { i.GraphWakeup? && i.publication == p }

  /** The index of the first queued wakeup of `p`, or the queue length. */
  function Position(q: seq<Item>, p: nat): (k: nat)
    ensures k <= |q|
    ensures forall j :: 0 <= j < k ==> !IsWakeup(q[j], p)
    ensures k < |q| ==> IsWakeup(q[k], p)
  {
    if q == [] || IsWakeup(q[0], p) then 0 else 1 + Position(q[1..], p)
  }

  function Cut(q: seq<Item>, k: nat): seq<Item>
    requires k < |q|
  {
    q[..k] + q[k + 1..]
  }

  function Without(q: seq<Item>, p: nat): seq<Item> {
    var k := Position(q, p);
    if k < |q| then Cut(q, k) else q
  }

  function RequiredItems(ms: seq<Message>): (r: seq<Item>)
    ensures |r| == |ms| && forall i :: 0 <= i < |r| ==> r[i] == Required(ms[i])
  {
    seq(|ms|, i requires 0 <= i < |ms| => Required(ms[i]))
  }

  function AdmitRequired(b: Box, ms: seq<Message>): (Admission, Box) {
    if b.closed then (Closed, b)
    else if |ms| > SSE_CLIENT_BUFFER_CAPACITY - |b.queue| then (Full, b)
    else (Admitted, b.(queue := b.queue + RequiredItems(ms), admitted := b.admitted + ms))
  }

  /** Moves the queued wakeup of `p`, if there is one, to the back with revision `r`. */
  function Coalesced(b: Box, p: nat, r: nat): Box {
    if Position(b.queue, p) < |b.queue| then b.(queue := Without(b.queue, p) + [GraphWakeup(p, r)]) else b
  }

  function CoalesceWakeup(b: Box, p: nat, r: nat): (Admission, Box) {
    if b.closed then (Closed, b) else (Admitted, Coalesced(b, p, r))
  }

  function AdmitWakeup(b: Box, p: nat, r: nat): (Admission, Box) {
    if b.closed then (Closed, b)
    else if Position(b.queue, p) < |b.queue| then (Admitted, Coalesced(b, p, r))
    else if |b.queue| == SSE_CLIENT_BUFFER_CAPACITY then (Full, b)
    else (Admitted, b.(queue := b.queue + [GraphWakeup(p, r)]))
  }

  function RemoveWakeup(b: Box, p: nat): Box { b.(queue := Without(b.queue, p)) }

  function Receive(b: Box): Box
    requires b.queue != []
  {
    b.(queue := b.queue[1..], delivered := b.delivered + [b.queue[0]])
  }

  function MessageOf(i: Item): Message {
    match i
    case Required(m) => m
    case GraphWakeup(p, r) => WakeupMessage(p, r)
  }

  /** The mailbox as the connection and the registries share it. */
  class SseMailbox {
    var alive: bool
    var closed: bool
    var queue: seq<Item>
    ghost var delivered: seq<Item>
    ghost var admitted: seq<Message>

    ghost function Value(): Box
      reads this
    {
      Box(alive, closed, queue, delivered, admitted)
    }

    predicate Fits()
      reads this
    {
      |queue| <= SSE_CLIENT_BUFFER_CAPACITY
    }

    constructor ()
      ensures Value() == EMPTY_BOX && Fits()
    {
      alive, closed, queue := true, false, [];
      delivered, admitted := [], [];
    }

    method FindWakeup(publication: nat) returns (k: nat)
      ensures k == Position(queue, publication)
    {
      k := 0;
      while k < |queue| && !IsWakeup(queue[k], publication)
        invariant k <= |queue|
        invariant Position(queue, publication) == k + Position(queue[k..], publication)
      {
        assert queue[k..][1..] == queue[k + 1..];
        k := k + 1;
      }
    }

    method AdmitBatch(messages: seq<Message>) returns (r: Admission)
      requires Fits()
      modifies this
      ensures Fits()
      ensures (r, Value()) == AdmitRequired(old(Value()), messages)
      ensures !r.Admitted? ==> Value() == old(Value())
    {
      if closed {
        return Closed;
      }
      if |messages| > SSE_CLIENT_BUFFER_CAPACITY - |queue| {
        return Full;
      }
      queue := queue + RequiredItems(messages);
      admitted := admitted + messages;
      r := Admitted;
    }

    method CoalesceQueued(publication: nat, revision: nat) returns (moved: bool)
      requires Fits()
      modifies this
      ensures Fits()
      ensures moved == (Position(old(queue), publication) < |old(queue)|)
      ensures Value() == Coalesced(old(Value()), publication, revision)
    {
      var k := FindWakeup(publication);
      if k == |queue| {
        return false;
      }
      queue := queue[..k] + queue[k + 1..];
      queue := queue + [GraphWakeup(publication, revision)];
      moved := true;
    }

    method AdmitGraphWakeup(publication: nat, revision: nat) returns (r: Admission)
      requires Fits()
      modifies this
      ensures Fits()
      ensures (r, Value()) == AdmitWakeup(old(Value()), publication, revision)
      ensures !r.Admitted? ==> Value() == old(Value())
    {
      if closed {
        return Closed;
      }
      var moved := CoalesceQueued(publication, revision);
      if !moved {
        if |queue| == SSE_CLIENT_BUFFER_CAPACITY {
          return Full;
        }
        queue := queue + [GraphWakeup(publication, revision)];
      }
      r := Admitted;
    }

    method CoalesceGraphWakeup(publication: nat, revision: nat) returns (r: Admission, moved: bool)
      requires Fits()
      modifies this
      ensures Fits()
      ensures (r, Value()) == CoalesceWakeup(old(Value()), publication, revision)
      ensures !r.Admitted? ==> Value() == old(Value())
      ensures moved <==> r.Admitted? && Position(old(queue), publication) < |old(queue)|
    {
      if closed {
        return Closed, false;
      }
      moved := CoalesceQueued(publication, revision);
      r := Admitted;
    }

    method RemoveGraphWakeup(publication: nat) returns (removed: bool)
      requires Fits()
      modifies this
      ensures Fits()
      ensures removed == (Position(old(queue), publication) < |old(queue)|)
      ensures Value() == RemoveWakeup(old(Value()), publication)
    {
      var k := FindWakeup(publication);
      if k == |queue| {
        return false;
      }
      queue := queue[..k] + queue[k + 1..];
      removed := true;
    }

    method Close()
      modifies this
      ensures Value() == old(Value()).(closed := true)
    {
      closed := true;
    }

    /** One poll of the receive loop. */
    method Poll() returns (r: Received)
      modifies this
      ensures old(queue) != [] ==> Value() == Receive(old(Value())) && r == Delivered(MessageOf(old(queue)[0]))
      ensures old(queue) == [] ==> Value() == old(Value()) && r == if closed then Finished else Pending
    {
      if queue != [] {
        r := Delivered(MessageOf(queue[0]));
        delivered := delivered + [queue[0]];
        queue := queue[1..];
      } else {
        r := if closed then Finished else Pending;
      }
    }
  }

  // ---- What a connection sees ----

  datatype About = Nothing | Revision(publication: nat, revision: nat)

  function AboutOf(i: Item): About {
    match i
    case Required(ClientRegistration(_)) => Nothing
    case Required(StateMessage(p, r, _)) => Revision(p, r)
    case Required(WakeupMessage(p, r)) => Revision(p, r)
    case GraphWakeup(p, r) => Revision(p, r)
  }

  predicate InOrder(a: About, b: About) {
    a.Revision? && b.Revision? && a.publication == b.publication ==> a.revision <= b.revision
  }

  /** The revisions seen for one publication never go backwards. */
  predicate Forward(s: seq<Item>) {
    forall i, j :: 0 <= i < j < |s| ==> InOrder(AboutOf(s[i]), AboutOf(s[j]))
  }

  predicate Within(a: About, heads: map<nat, nat>) {
    a.Revision? ==> a.publication in heads && a.revision <= heads[a.publication]
  }

  predicate Bounded(s: seq<Item>, heads: map<nat, nat>) {
    forall i :: 0 <= i < |s| ==> Within(AboutOf(s[i]), heads)
  }

  /** An item that reports the current Head of its publication. */
  predicate Current(a: About, heads: map<nat, nat>) {
    a.Revision? ==> a.publication in heads && a.revision == heads[a.publication]
  }

  function RequiredOf(s: seq<Item>): seq<Message> {
    if s == [] then [] else RequiredOf(s[..|s| - 1]) + if s[|s| - 1].Required? then [s[|s| - 1].message] else []
  }

  predicate OneWakeupEach(q: seq<Item>) {
    forall i, j :: 0 <= i < j < |q| && q[i].GraphWakeup? && q[j].GraphWakeup? ==> q[i].publication != q[j].publication
  }

  /**
   * A mailbox never holds more than its capacity, its delivered-then-queued
   * required messages are exactly those admitted, and what it reports about a
   * publication moves forward and never passes that publication's Head.
   */
  predicate BoxOk(b: Box, heads: map<nat, nat>) {
    && |b.queue| <= SSE_CLIENT_BUFFER_CAPACITY
    && OneWakeupEach(b.queue)
    && RequiredOf(b.Trace()) == b.admitted
    && Forward(b.Trace()) && Bounded(b.Trace(), heads)
  }

  lemma {:induction false} RequiredOfJoin(a: seq<Item>, c: seq<Item>)
    ensures RequiredOf(a + c) == RequiredOf(a) + RequiredOf(c)
    decreases |c|
  {
    if c == [] {
      assert a + c == a;
    } else {
      assert (a + c)[..|a + c| - 1] == a + c[..|c| - 1];
      RequiredOfJoin(a, c[..|c| - 1]);
    }
  }

  lemma {:induction false} RequiredOfBatch(ms: seq<Message>)
    ensures RequiredOf(RequiredItems(ms)) == ms
    decreases |ms|
  {
    if ms != [] {
      var n := |ms| - 1;
      assert RequiredItems(ms)[..n] == RequiredItems(ms[..n]);
      RequiredOfBatch(ms[..n]);
      assert ms == ms[..n] + [ms[n]];
    }
  }

  lemma CutKeepsRequired(a: seq<Item>, w: Item, c: seq<Item>)
    requires w.GraphWakeup?
    ensures RequiredOf(a + [w] + c) == RequiredOf(a + c)
  {
    RequiredOfJoin(a, c);
    RequiredOfJoin(a + [w], c);
    assert (a + [w])[..|a|] == a;
  }

  lemma CutKeepsOrder(s: seq<Item>, k: nat, heads: map<nat, nat>)
    requires k < |s|
    requires Forward(s) && Bounded(s, heads)
    ensures Forward(Cut(s, k)) && Bounded(Cut(s, k), heads)
  {
    hide InOrder, AboutOf, Within;
    var c := Cut(s, k);
    forall i, j | 0 <= i < j < |c| ensures InOrder(AboutOf(c[i]), AboutOf(c[j])) {
      var x, y := if i < k then i else i + 1, if j < k then j else j + 1;
      assert c[i] == s[x] && c[j] == s[y];
    }
    forall i | 0 <= i < |c| ensures Within(AboutOf(c[i]), heads) {
      assert c[i] == s[if i < k then i else i + 1];
    }
  }

  lemma AppendKeeps(s: seq<Item>, more: seq<Item>, heads: map<nat, nat>)
    requires Forward(s) && Bounded(s, heads)
    requires forall i :: 0 <= i < |more| ==> Current(AboutOf(more[i]), heads)
    ensures Forward(s + more) && Bounded(s + more, heads)
  {
    var c := s + more;
    forall i | 0 <= i < |c| ensures Within(AboutOf(c[i]), heads) {
      if i >= |s| {
        assert c[i] == more[i - |s|];
      }
    }
    forall i, j | 0 <= i < j < |c| ensures InOrder(AboutOf(c[i]), AboutOf(c[j])) {
      if j >= |s| {
        assert c[j] == more[j - |s|];
        assert Within(AboutOf(c[i]), heads);
      }
    }
  }

  lemma AdmitRequiredKeeps(b: Box, ms: seq<Message>, heads: map<nat, nat>)
    requires BoxOk(b, heads)
    requires forall i :: 0 <= i < |ms| ==> Current(AboutOf(Required(ms[i])), heads)
    ensures BoxOk(AdmitRequired(b, ms).1, heads)
  {
    var more := RequiredItems(ms);
    AppendKeeps(b.Trace(), more, heads);
    RequiredOfJoin(b.Trace(), more);
    RequiredOfBatch(ms);
    assert b.Trace() + more == b.delivered + (b.queue + more);
  }

  lemma WithoutClears(q: seq<Item>, p: nat)
    requires OneWakeupEach(q)
    ensures OneWakeupEach(Without(q, p))
    ensures forall i :: 0 <= i < |Without(q, p)| ==> !IsWakeup(Without(q, p)[i], p)
    ensures |Without(q, p)| == |q| - if Position(q, p) < |q| then 1 else 0
  {
    var k, c := Position(q, p), Without(q, p);
    if k < |q| {
      assert forall i :: 0 <= i < |c| ==> c[i] == q[if i < k then i else i + 1];
    }
  }

  lemma CutTrace(b: Box, k: nat)
    requires k < |b.queue|
    ensures b.Trace() == b.delivered + b.queue[..k] + [b.queue[k]] + b.queue[k + 1..]
    ensures b.delivered + Cut(b.queue, k) == b.delivered + b.queue[..k] + b.queue[k + 1..]
    ensures Cut(b.Trace(), |b.delivered| + k) == b.delivered + Cut(b.queue, k)
  {
    assert b.queue == b.queue[..k] + [b.queue[k]] + b.queue[k + 1..];
  }

  lemma RemoveKeeps(b: Box, p: nat, heads: map<nat, nat>)
    requires BoxOk(b, heads)
    ensures BoxOk(RemoveWakeup(b, p), heads)
  {
    hide Forward, Bounded, RequiredOf, OneWakeupEach, Cut;
    WithoutClears(b.queue, p);
    var k := Position(b.queue, p);
    if k < |b.queue| {
      CutTrace(b, k);
      CutKeepsOrder(b.Trace(), |b.delivered| + k, heads);
      CutKeepsRequired(b.delivered + b.queue[..k], b.queue[k], b.queue[k + 1..]);
    }
  }

  lemma PushWakeupKeeps(b: Box, p: nat, r: nat, heads: map<nat, nat>)
    requires BoxOk(b, heads) && |b.queue| < SSE_CLIENT_BUFFER_CAPACITY
    requires p in heads && heads[p] == r
    requires forall i :: 0 <= i < |b.queue| ==> !IsWakeup(b.queue[i], p)
    ensures BoxOk(b.(queue := b.queue + [GraphWakeup(p, r)]), heads)
  {
    var more := [GraphWakeup(p, r)];
    AppendKeeps(b.Trace(), more, heads);
    RequiredOfJoin(b.Trace(), more);
    assert b.Trace() + more == b.delivered + (b.queue + more);
  }

  lemma CoalesceKeeps(b: Box, p: nat, r: nat, heads: map<nat, nat>)
    requires BoxOk(b, heads) && p in heads && heads[p] == r
    ensures BoxOk(Coalesced(b, p, r), heads)
  {
    RemoveKeeps(b, p, heads);
    WithoutClears(b.queue, p);
    if Position(b.queue, p) < |b.queue| {
      PushWakeupKeeps(RemoveWakeup(b, p), p, r, heads);
    }
  }

  lemma AdmitWakeupKeeps(b: Box, p: nat, r: nat, heads: map<nat, nat>)
    requires BoxOk(b, heads) && p in heads && heads[p] == r
    ensures BoxOk(AdmitWakeup(b, p, r).1, heads)
  {
    CoalesceKeeps(b, p, r, heads);
    if Position(b.queue, p) == |b.queue| && |b.queue| < SSE_CLIENT_BUFFER_CAPACITY {
      PushWakeupKeeps(b, p, r, heads);
    }
  }

  lemma ReceiveKeeps(b: Box, heads: map<nat, nat>)
    requires BoxOk(b, heads) && b.queue != []
    ensures BoxOk(Receive(b), heads)
    ensures Receive(b).Trace() == b.Trace()
  {
    assert Receive(b).Trace() == b.Trace();
  }
}
