/**
 * The graph-update ingress: a bounded queue behind a gate that the Catchup marker
 * opens, with a loss counter and occupancy measurements. Producers and the receiver
 * interleave between the sections that their locks make atomic.
 */
module Ingress {
  import opened Maps

  const GRAPH_UPDATE_CHANNEL_CAPACITY: nat := 1024

  datatype Update = Catchup | Ordinary(payload: nat) | Live

  datatype SendResult = Sent | Full | Closed

  /** The queue, its outstanding reservations and the measurements of one session. */
  datatype Channel = Channel(queue: seq<Update>, permits: nat, occupancy: nat, highWater: nat, gaps: nat,
                             published: nat, closed: bool, closures: nat)

  const EMPTY_CHANNEL := Channel([], 0, 0, 0, 0, 0, false, 0)

  function Max(a: nat, b: nat): nat { if a < b then b else a }

  function Enqueue(c: Channel, u: Update): Channel {
    c.(queue := c.queue + [u], occupancy := c.occupancy + 1, highWater := Max(c.highWater, c.occupancy + 1))
  }

  predicate HasRoom(c: Channel) { |c.queue| + c.permits < GRAPH_UPDATE_CHANNEL_CAPACITY }

  function TrySend(c: Channel, u: Update): (SendResult, Channel) {
    if c.closed then (Closed, c) else if !HasRoom(c) then (Full, c) else (Sent, Enqueue(c, u))
  }

  function SendReserved(c: Channel, u: Update): (bool, Channel)
    requires c.permits > 0
  {
    var released := c.(permits := c.permits - 1);
    if c.closed then (false, released) else (true, Enqueue(released, u))
  }

  function CloseReceiver(c: Channel): Channel {
    if c.closed then c else c.(closed := true, closures := c.closures + 1)
  }

  /** The channel state as the locks protect it; each method is one atomic section. */
  class GraphUpdateChannel {
    var queue: seq<Update>
    var permits: nat
    var occupancy: nat
    var highWater: nat
    var gaps: nat
    var published: nat
    var closed: bool
    var closures: nat
    var observed: nat

    ghost function Value(): Channel
      reads this
    {
      Channel(queue, permits, occupancy, highWater, gaps, published, closed, closures)
    }

    constructor ()
      ensures Value() == EMPTY_CHANNEL && observed == 0
    {
      queue, permits, occupancy, highWater, gaps, published, closed, closures, observed := [], 0, 0, 0, 0, 0, false, 0, 0;
    }

    method RecordEnqueue()
      modifies this`occupancy, this`highWater
      ensures Value() == old(Value()).(occupancy := old(occupancy) + 1, highWater := Max(old(highWater), old(occupancy) + 1))
    {
      occupancy := occupancy + 1;
      highWater := Max(highWater, occupancy);
    }

    method TrySendUpdate(update: Update) returns (r: SendResult)
      modifies this`queue, this`occupancy, this`highWater
      ensures (r, Value()) == TrySend(old(Value()), update)
    {
      if closed {
        return Closed;
      }
      if |queue| + permits >= GRAPH_UPDATE_CHANNEL_CAPACITY {
        return Full;
      }
      queue := queue + [update];
      RecordEnqueue();
      r := Sent;
    }

    method SendWithPermit(update: Update) returns (delivered: bool)
      requires permits > 0
      modifies this`queue, this`permits, this`occupancy, this`highWater
      ensures (delivered, Value()) == SendReserved(old(Value()), update)
    {
      permits := permits - 1;
      if closed {
        return false;
      }
      queue := queue + [update];
      RecordEnqueue();
      delivered := true;
    }

    method RecordDequeue()
      requires occupancy > 0
      modifies this`occupancy
      ensures occupancy == old(occupancy) - 1
    {
      occupancy := occupancy - 1;
    }

    method Close()
      modifies this`closed, this`closures
      ensures Value() == CloseReceiver(old(Value()))
    {
      if !closed {
        closed := true;
        closures := closures + 1;
      }
    }

    method DropReceiver()
      modifies this`closed, this`closures, this`occupancy
      ensures Value() == CloseReceiver(old(Value())).(occupancy := 0)
    {
      Close();
      occupancy := 0;
    }

    /** Both halves of one gap report, which runs under the gate lock. */
    method ReportGap()
      modifies this`gaps, this`published
      ensures gaps == old(gaps) + 1 && published == gaps
    {
      gaps := gaps + 1;
      published := gaps;
    }

    /** The latest generation if it was not observed before. */
    method TakePending() returns (r: Option<nat>)
      modifies this`observed
      ensures observed == published
      ensures r == if old(observed) == published then None else Some(published)
    {
      var previous := observed;
      observed := published;
      r := if published == previous then None else Some(published);
    }
  }

  // ---- Producers and receiver interleaved ----

  /** Where a producer stands in `offer_ordinary`, `publish_catchup` or `publish_live`. */
  datatype Pc =
    | Idle
    | Offering(update: Update)
    | Sending(update: Update)
    | Reporting
    | Publishing(next: nat)
    | Catching
    | Caught
    | Checked
    | Reserved
    | Panicked

  datatype Rx = Waiting | Popped | Gone | Underflow

  /** `queued` and `taken` record every value ever queued and received; `dropped` counts
      offers that found the open channel full, and the last three count finished offers. */
  datatype State = State(channel: Channel, open: bool, holder: Option<nat>, pcs: map<nat, Pc>, rx: Rx, observed: nat,
                         queued: seq<Update>, taken: seq<Update>, dropped: nat,
                         finished: nat, suppressed: nat, refused: nat)

  const INITIAL := State(EMPTY_CHANNEL, false, None, map[], Waiting, 0, [], [], 0, 0, 0, 0)

  datatype Step =
    | Offer(producer: nat, update: Update)
    | OfferCatchup(producer: nat)
    | CheckLive(producer: nat)
    | Proceed(producer: nat)
    | CancelLive(producer: nat)
    | Take
    | Record
    | Close
    | Drop
    | Observe

  function PcOf(s: State, p: nat): Pc { if p in s.pcs then s.pcs[p] else Idle }

  function At(s: State, p: nat, pc: Pc): State { s.(pcs := s.pcs[p := pc]) }

  function Release(s: State, p: nat): State { At(s, p, Idle).(holder := None) }

  function FinishOffer(s: State, p: nat): State { Release(s, p).(finished := s.finished + 1) }

  predicate Allowed(s: State, step: Step) {
    match step
    case Offer(p, u) => PcOf(s, p).Idle? && s.holder.None? && u.Ordinary?
    case OfferCatchup(p) => PcOf(s, p).Idle? && s.holder.None? && !s.open
    case CheckLive(p) => PcOf(s, p).Idle? && s.holder.None? && s.open
    case Proceed(p) =>
      var pc := PcOf(s, p);
      !pc.Idle? && !pc.Panicked? && (pc.Checked? ==> s.channel.closed || HasRoom(s.channel))
    case CancelLive(p) => PcOf(s, p).Checked? || PcOf(s, p).Reserved?
    case Take => s.rx.Waiting? && s.channel.queue != []
    case Record => s.rx.Popped?
    case Close => s.rx.Waiting?
    case Drop => s.rx.Waiting?
    case Observe => true
  }

  function OfferNext(s: State, p: nat, pc: Pc): State {
    match pc
    case Offering(u) =>
      if s.channel.closed then FinishOffer(s, p).(refused := s.refused + 1)
      else if !s.open then FinishOffer(s, p).(suppressed := s.suppressed + 1)
      else At(s, p, Sending(u))
    case Sending(u) =>
      var (r, c) := TrySend(s.channel, u);
      (match r
       case Sent => FinishOffer(s, p).(channel := c, queued := s.queued + [u])
       case Full => At(s, p, Reporting).(dropped := s.dropped + 1)
       case Closed => FinishOffer(s, p).(refused := s.refused + 1))
    case Reporting => At(s, p, Publishing(s.channel.gaps + 1)).(channel := s.channel.(gaps := s.channel.gaps + 1))
    case Publishing(next) => FinishOffer(s, p).(channel := s.channel.(published := next))
    case _ => s
  }

  function MarkerNext(s: State, p: nat, pc: Pc): State {
    match pc
    case Catching =>
      var (r, c) := TrySend(s.channel, Catchup);
      (match r
       case Sent => At(s, p, Caught).(channel := c, queued := s.queued + [Catchup])
       case Full => At(s, p, Panicked)
       case Closed => Release(s, p))
    case Caught => Release(s, p).(open := true)
    case Checked =>
      if s.channel.closed then At(s, p, Idle)
      else At(s, p, Reserved).(channel := s.channel.(permits := s.channel.permits + 1))
    case Reserved =>
      if s.channel.permits == 0 then At(s, p, Panicked)
      else
        var (sent, c) := SendReserved(s.channel, Live);
        At(s, p, Idle).(channel := c, queued := if sent then s.queued + [Live] else s.queued)
    case _ => s
  }

  function ReceiverNext(s: State, step: Step): State {
    match step
    case Take =>
      if s.channel.queue == [] then s
      else s.(channel := s.channel.(queue := s.channel.queue[1..]), taken := s.taken + [s.channel.queue[0]], rx := Popped)
    case Record =>
      if s.channel.occupancy == 0 then s.(rx := Underflow)
      else s.(channel := s.channel.(occupancy := s.channel.occupancy - 1), rx := Waiting)
    case Close => s.(channel := CloseReceiver(s.channel))
    case Drop => s.(channel := CloseReceiver(s.channel).(queue := [], occupancy := 0), rx := Gone)
    case Observe => s.(observed := s.channel.published)
    case _ => s
  }

  function Next(s: State, step: Step): State {
    match step
    case Offer(p, u) => At(s, p, Offering(u)).(holder := Some(p))
    case OfferCatchup(p) => At(s, p, Catching).(holder := Some(p))
    case CheckLive(p) => At(s, p, Checked)
    case Proceed(p) =>
      var pc := PcOf(s, p);
      if pc.Offering? || pc.Sending? || pc.Reporting? || pc.Publishing? then OfferNext(s, p, pc) else MarkerNext(s, p, pc)
    case CancelLive(p) =>
      if PcOf(s, p).Reserved? && s.channel.permits > 0 then
        At(s, p, Idle).(channel := s.channel.(permits := s.channel.permits - 1))
      else At(s, p, Idle)
    case _ => ReceiverNext(s, step)
  }

  // ---- The invariant ----

  predicate HoldsGate(pc: Pc) { !pc.Idle? && !pc.Checked? && !pc.Reserved? }

  ghost predicate Locked(s: State) {
    forall p: nat :: HoldsGate(PcOf(s, p)) <==> s.holder == Some(p)
  }

  /** What the one producer inside the gate is doing, or `Idle` if the gate is free. */
  function Inside(s: State): Pc { if s.holder.Some? then PcOf(s, s.holder.value) else Idle }

  function Reservers(pcs: map<nat, Pc>): set<nat> { set p | p in pcs && pcs[p].Reserved? }

  predicate Counted(s: State) {
    var c := s.channel;
    && c.permits == |Reservers(s.pcs)|
    && |c.queue| + c.permits <= GRAPH_UPDATE_CHANNEL_CAPACITY
    && c.closures == (if c.closed then 1 else 0)
    && c.occupancy <= c.highWater <= GRAPH_UPDATE_CHANNEL_CAPACITY + 1
    && match s.rx
       case Waiting => c.occupancy == |c.queue|
       case Popped => c.occupancy == |c.queue| + 1
       case Gone => c.occupancy == 0 && c.queue == [] && c.closed
       case Underflow => false
  }

  predicate Flow(s: State) {
    && (!s.rx.Gone? ==> s.queued == s.taken + s.channel.queue)
    && s.taken <= s.queued
    && forall i :: 0 <= i < |s.queued| ==> (s.queued[i] == Catchup <==> i == 0)
  }

  ghost predicate Gated(s: State) {
    var pc := Inside(s);
    && !pc.Panicked?
    && (pc.Offering? ==> pc.update.Ordinary?)
    && (pc.Sending? ==> pc.update.Ordinary?)
    && (s.open ==> s.queued != [] && !pc.Catching? && !pc.Caught?)
    && (!s.open ==>
        && s.queued == (if pc.Caught? then [Catchup] else [])
        && s.dropped == 0 && !pc.Sending? && !pc.Reporting? && !pc.Publishing?
        && forall p: nat :: !PcOf(s, p).Checked? && !PcOf(s, p).Reserved?)
  }

  predicate Reported(s: State) {
    var pc := Inside(s);
    && s.dropped == s.channel.gaps + (if pc.Reporting? then 1 else 0)
    && s.channel.gaps == s.channel.published + (if pc.Publishing? then 1 else 0)
    && (pc.Publishing? ==> pc.next == s.channel.gaps)
    && s.observed <= s.channel.published
  }

  function Ordinaries(us: seq<Update>): nat {
    if us == [] then 0 else Ordinaries(us[..|us| - 1]) + if us[|us| - 1].Ordinary? then 1 else 0
  }

  /** Every finished offer was suppressed, refused, queued or published as a gap. */
  predicate Conserved(s: State) {
    s.finished == s.suppressed + s.refused + Ordinaries(s.queued) + s.channel.published
  }

  ghost predicate Inv(s: State) {
    Locked(s) && Counted(s) && Flow(s) && Gated(s) && Reported(s) && Conserved(s)
  }

  lemma OrdinariesLast(us: seq<Update>, u: Update)
    ensures Ordinaries(us + [u]) == Ordinaries(us) + if u.Ordinary? then 1 else 0
  {
    assert (us + [u])[..|us|] == us;
  }

  lemma ReserversAt(pcs: map<nat, Pc>, p: nat, pc: Pc)
    ensures Reservers(pcs[p := pc]) == if pc.Reserved? then Reservers(pcs) + {p} else Reservers(pcs) - {p}
  {
  }

  /** Every step of a producer inside the gate rewrites that producer's place only. */
  lemma InsideAt(s: State, t: State, p: nat, pc: Pc)
    requires Locked(s) && t.pcs == s.pcs[p := pc]
    requires s.holder == Some(p) || (s.holder == None && PcOf(s, p).Idle?)
    requires t.holder == if HoldsGate(pc) then Some(p) else None
    ensures Locked(t) && Inside(t) == if HoldsGate(pc) then pc else Idle
    ensures s.holder == Some(p) ==> Inside(s) == PcOf(s, p)
    ensures forall q: nat :: q != p ==> PcOf(t, q) == PcOf(s, q)
    ensures !pc.Reserved? && !PcOf(s, p).Reserved? ==> Reservers(t.pcs) == Reservers(s.pcs)
  {
    ReserversAt(s.pcs, p, pc);
    forall q: nat ensures HoldsGate(PcOf(t, q)) <==> t.holder == Some(q) {
      assert HoldsGate(PcOf(s, q)) <==> s.holder == Some(q);
    }
  }

  /** Steps of the lossless marker happen outside the gate. */
  lemma OutsideAt(s: State, t: State, p: nat, pc: Pc)
    requires Locked(s) && t.pcs == s.pcs[p := pc] && t.holder == s.holder
    requires !HoldsGate(PcOf(s, p)) && !HoldsGate(pc)
    ensures Locked(t) && Inside(t) == Inside(s)
    ensures forall q: nat :: q != p ==> PcOf(t, q) == PcOf(s, q)
  {
    forall q: nat ensures HoldsGate(PcOf(t, q)) <==> t.holder == Some(q) {
      assert HoldsGate(PcOf(s, q)) <==> s.holder == Some(q);
    }
    assert s.holder != Some(p);
  }

  lemma EnterKeeps(s: State, step: Step)
    requires Inv(s) && Allowed(s, step) && (step.Offer? || step.OfferCatchup?)
    ensures Inv(Next(s, step))
  {
    hide Locked;
    var p := step.producer;
    var pc := if step.Offer? then Offering(step.update) else Catching;
    InsideAt(s, Next(s, step), p, pc);
  }

  lemma InGate(s: State, p: nat)
    requires Locked(s) && HoldsGate(PcOf(s, p))
    ensures s.holder == Some(p) && Inside(s) == PcOf(s, p)
  {
  }

  lemma CheckOfferKeeps(s: State, p: nat)
    requires Inv(s) && PcOf(s, p).Offering?
    ensures Inv(OfferNext(s, p, PcOf(s, p)))
  {
    hide Locked, Reservers, Ordinaries;
    var t := OfferNext(s, p, PcOf(s, p));
    InGate(s, p);
    InsideAt(s, t, p, PcOf(t, p));
  }

  lemma SendOfferKeeps(s: State, p: nat)
    requires Inv(s) && PcOf(s, p).Sending?
    ensures Inv(OfferNext(s, p, PcOf(s, p)))
  {
    hide Locked, Reservers, Ordinaries;
    var u, t := PcOf(s, p).update, OfferNext(s, p, PcOf(s, p));
    InGate(s, p);
    InsideAt(s, t, p, PcOf(t, p));
    OrdinariesLast(s.queued, u);
    assert s.taken + s.channel.queue + [u] == s.taken + (s.channel.queue + [u]);
  }

  lemma ReportOfferKeeps(s: State, p: nat)
    requires Inv(s) && (PcOf(s, p).Reporting? || PcOf(s, p).Publishing?)
    ensures Inv(OfferNext(s, p, PcOf(s, p)))
  {
    hide Locked, Reservers, Ordinaries;
    var t := OfferNext(s, p, PcOf(s, p));
    InGate(s, p);
    InsideAt(s, t, p, PcOf(t, p));
  }

  lemma CatchupKeeps(s: State, p: nat)
    requires Inv(s) && PcOf(s, p).Catching?
    ensures Inv(MarkerNext(s, p, PcOf(s, p)))
  {
    hide Locked, Reservers, Ordinaries;
    var t := MarkerNext(s, p, PcOf(s, p));
    InGate(s, p);
    NoReservers(s);
    InsideAt(s, t, p, PcOf(t, p));
    OrdinariesLast(s.queued, Catchup);
    assert s.taken + s.channel.queue + [Catchup] == s.taken + (s.channel.queue + [Catchup]);
  }

  /** Before the gate opens nobody holds a reservation, so Catchup finds room. */
  lemma NoReservers(s: State)
    requires Inv(s) && PcOf(s, if s.holder.Some? then s.holder.value else 0).Catching? && s.holder.Some?
    ensures s.channel.permits == 0
  {
    assert forall p: nat :: p in Reservers(s.pcs) ==> PcOf(s, p).Reserved?;
    assert Reservers(s.pcs) == {};
  }

  lemma OpenGateKeeps(s: State, p: nat)
    requires Inv(s) && PcOf(s, p).Caught?
    ensures Inv(MarkerNext(s, p, PcOf(s, p)))
  {
    hide Locked, Reservers, Ordinaries;
    var t := MarkerNext(s, p, PcOf(s, p));
    InGate(s, p);
    InsideAt(s, t, p, PcOf(t, p));
  }

  lemma LiveKeeps(s: State, p: nat)
    requires Inv(s) && Allowed(s, Proceed(p)) && (PcOf(s, p).Checked? || PcOf(s, p).Reserved?)
    ensures Inv(MarkerNext(s, p, PcOf(s, p)))
  {
    var t := MarkerNext(s, p, PcOf(s, p));
    ReserversAt(s.pcs, p, PcOf(t, p));
    if PcOf(s, p).Reserved? {
      assert p in Reservers(s.pcs);
      OrdinariesLast(s.queued, Live);
    }
    OutsideAt(s, t, p, PcOf(t, p));
  }

  lemma AsideKeeps(s: State, step: Step)
    requires Inv(s) && Allowed(s, step) && (step.CheckLive? || step.CancelLive?)
    ensures Inv(Next(s, step))
  {
    var p, t := step.producer, Next(s, step);
    ReserversAt(s.pcs, p, PcOf(t, p));
    if PcOf(s, p).Reserved? {
      assert p in Reservers(s.pcs);
    }
    OutsideAt(s, t, p, PcOf(t, p));
  }

  lemma ReceiverFrame(s: State, t: State)
    requires Locked(s) && t.pcs == s.pcs && t.holder == s.holder
    ensures Locked(t) && Inside(t) == Inside(s)
    ensures forall p: nat :: PcOf(t, p) == PcOf(s, p)
  {
    forall p: nat ensures HoldsGate(PcOf(t, p)) <==> t.holder == Some(p) {
      assert HoldsGate(PcOf(s, p)) <==> s.holder == Some(p);
    }
  }

  lemma TakeKeeps(s: State)
    requires Inv(s) && Allowed(s, Take)
    ensures Inv(ReceiverNext(s, Take))
  {
    hide Locked, Reservers, Ordinaries;
    ReceiverFrame(s, ReceiverNext(s, Take));
    var q := s.channel.queue;
    assert s.taken + q == s.taken + [q[0]] + q[1..];
  }

  lemma ReceiverKeeps(s: State, step: Step)
    requires Inv(s) && Allowed(s, step) && (step.Record? || step.Close? || step.Drop? || step.Observe?)
    ensures Inv(ReceiverNext(s, step))
  {
    hide Locked, Reservers, Ordinaries;
    ReceiverFrame(s, ReceiverNext(s, step));
  }

  lemma StepKeepsInv(s: State, step: Step)
    requires Inv(s) && Allowed(s, step)
    ensures Inv(Next(s, step))
  {
    hide Inv, OfferNext, MarkerNext, ReceiverNext;
    match step
    case Offer(_, _) => EnterKeeps(s, step);
    case OfferCatchup(_) => EnterKeeps(s, step);
    case CheckLive(_) => AsideKeeps(s, step);
    case CancelLive(_) => AsideKeeps(s, step);
    case Proceed(p) =>
      var pc := PcOf(s, p);
      if pc.Offering? {
        CheckOfferKeeps(s, p);
      } else if pc.Sending? {
        SendOfferKeeps(s, p);
      } else if pc.Reporting? || pc.Publishing? {
        ReportOfferKeeps(s, p);
      } else if pc.Catching? {
        CatchupKeeps(s, p);
      } else if pc.Caught? {
        OpenGateKeeps(s, p);
      } else {
        LiveKeeps(s, p);
      }
    case Take => TakeKeeps(s);
    case _ => ReceiverKeeps(s, step);
  }

  ghost predicate Runs(s: State, steps: seq<Step>)
    decreases |steps|
  {
    steps == [] || (Allowed(s, steps[0]) && Runs(Next(s, steps[0]), steps[1..]))
  }

  function RunAll(s: State, steps: seq<Step>): State
    decreases |steps|
  {
    if steps == [] then s else RunAll(Next(s, steps[0]), steps[1..])
  }

  lemma {:induction false} RunKeepsInv(s: State, steps: seq<Step>)
    requires Inv(s) && Runs(s, steps)
    ensures Inv(RunAll(s, steps))
    decreases |steps|
  {
    hide Inv, Next, Allowed;
    if steps != [] {
      StepKeepsInv(s, steps[0]);
      RunKeepsInv(Next(s, steps[0]), steps[1..]);
    }
  }

  lemma InitialInv()
    ensures Inv(INITIAL)
  {
  }

  /** What the invariant says at any moment. */
  predicate Sound(s: State) {
    // Catchup is the first value ever queued, and only the first.
    && (forall i :: 0 <= i < |s.queued| ==> (s.queued[i] == Catchup <==> i == 0))
    // Before the gate opens an offer leaves no value and no gap.
    && (!s.open ==> s.dropped == 0 && s.channel.published == 0 && Ordinaries(s.queued) == 0)
    // With the gate free, the published generation counts the offers dropped as full.
    && (s.holder.None? ==> s.channel.published == s.dropped)
    // Nothing is lost, repeated or reordered on the way to a living receiver.
    && (!s.rx.Gone? ==> s.taken + s.channel.queue == s.queued)
    // The occupancy counter lags by at most the one dequeue not yet recorded.
    && (!s.rx.Gone? ==> s.channel.occupancy == |s.channel.queue| + if s.rx.Popped? then 1 else 0)
    && |s.channel.queue| <= GRAPH_UPDATE_CHANNEL_CAPACITY
    // Every finished offer is accounted for.
    && s.finished == s.suppressed + s.refused + Ordinaries(s.queued) + s.channel.published
  }

  lemma ClosedGate(s: State)
    requires Gated(s) && Reported(s) && !s.open
    ensures s.dropped == 0 && s.channel.published == 0 && Ordinaries(s.queued) == 0
  {
    hide Ordinaries, PcOf;
    OrdinariesLast([], Catchup);
    OrdinariesNone();
    assert [] + [Catchup] == [Catchup];
  }

  lemma OrdinariesNone()
    ensures Ordinaries([]) == 0
  {
  }

  lemma FreeGate(s: State)
    requires Reported(s) && s.holder.None?
    ensures s.channel.published == s.dropped
  {
  }

  lemma InvSound(s: State)
    requires Inv(s)
    ensures Sound(s)
  {
    hide Locked, Gated, Reported, Reservers, Ordinaries;
    if !s.open {
      ClosedGate(s);
    }
    if s.holder.None? {
      FreeGate(s);
    }
  }

  lemma InvCalm(s: State, p: nat)
    requires Inv(s)
    ensures !PcOf(s, p).Panicked? && !s.rx.Underflow? && (s.rx.Popped? ==> s.channel.occupancy > 0)
  {
    if PcOf(s, p).Panicked? {
      InGate(s, p);
    }
  }

  /** Ingress conservation, over every interleaving from a fresh channel. */
  lemma IngressConservation(steps: seq<Step>)
    requires Runs(INITIAL, steps)
    ensures Sound(RunAll(INITIAL, steps))
  {
    hide Inv, Sound, Runs, RunAll;
    InitialInv();
    RunKeepsInv(INITIAL, steps);
    InvSound(RunAll(INITIAL, steps));
  }

  /** The checked decrement and the unreachable branches: Catchup never finds the channel
      full, a reserved send always has its permit, and occupancy never underflows. */
  lemma NeverPanics(steps: seq<Step>, p: nat)
    requires Runs(INITIAL, steps)
    ensures var s := RunAll(INITIAL, steps);
            !PcOf(s, p).Panicked? && !s.rx.Underflow? && (s.rx.Popped? ==> s.channel.occupancy > 0)
  {
    hide Inv, Runs, RunAll, PcOf;
    InitialInv();
    RunKeepsInv(INITIAL, steps);
    InvCalm(RunAll(INITIAL, steps), p);
  }

  // ---- What becomes of an offer ----

  /** An offer is suppressed only before the gate opens and refused only after the receiver
      closed; it is dropped only through an open gate at a full channel; and a value is queued
      at the back, through an open channel. Gate and closing never revert. */
  predicate Fated(s: State, t: State) {
    && (t.suppressed != s.suppressed ==> t.suppressed == s.suppressed + 1 && !s.open && t.channel == s.channel && t.dropped == s.dropped)
    && (t.refused != s.refused ==> t.refused == s.refused + 1 && s.channel.closed && t.channel == s.channel && t.dropped == s.dropped)
    && (t.dropped != s.dropped ==> t.dropped == s.dropped + 1 && s.open && |s.channel.queue| + s.channel.permits >= 1024)
    && (t.queued != s.queued ==> !s.channel.closed && |t.queued| == |s.queued| + 1 && s.queued <= t.queued)
    && (s.open ==> t.open) && (s.channel.closed ==> t.channel.closed)
  }

  lemma OfferFated(s: State, p: nat)
    requires Inv(s) && Allowed(s, Proceed(p))
    ensures Fated(s, OfferNext(s, p, PcOf(s, p)))
  {
    if HoldsGate(PcOf(s, p)) {
      InGate(s, p);
    }
    hide Locked, Counted, Flow, Reported, Conserved;
  }

  lemma MarkerFated(s: State, p: nat)
    requires Inv(s)
    ensures Fated(s, MarkerNext(s, p, PcOf(s, p)))
  {
    hide Inv;
  }

  lemma StepFated(s: State, step: Step)
    requires Inv(s) && Allowed(s, step)
    ensures Fated(s, Next(s, step))
  {
    if step.Proceed? {
      OfferFated(s, step.producer);
      MarkerFated(s, step.producer);
      hide Inv, Fated, OfferNext, MarkerNext;
    } else {
      hide Inv, OfferNext, MarkerNext;
    }
  }

  /** Through an open gate and up to the receiver's closing, every offer that finishes is
      queued or reported as a gap. */
  lemma {:induction false} OpenChannelLosesNothing(s: State, steps: seq<Step>)
    requires Inv(s) && Runs(s, steps) && s.open && !RunAll(s, steps).channel.closed
    ensures var t := RunAll(s, steps);
            && Inv(t) && t.open && t.suppressed == s.suppressed && t.refused == s.refused && !s.channel.closed
            && t.finished - s.finished ==
               Ordinaries(t.queued) - Ordinaries(s.queued) + (t.channel.published - s.channel.published)
    decreases |steps|
  {
    if steps != [] {
      StepKeepsInv(s, steps[0]);
      StepFated(s, steps[0]);
      hide Inv, Next, Allowed;
      OpenChannelLosesNothing(Next(s, steps[0]), steps[1..]);
      RunKeepsInv(s, steps);
      Tallied(s);
      Tallied(RunAll(s, steps));
    }
  }

  lemma Tallied(s: State)
    requires Inv(s)
    ensures s.finished == s.suppressed + s.refused + Ordinaries(s.queued) + s.channel.published
  {
    hide Locked, Counted, Flow, Gated, Reported;
  }

  // ---- Undisturbed calls ----

  predicate Idles(s: State, p: nat) { s.holder.None? && PcOf(s, p).Idle? && !s.channel.closed }

  /** An offer that nothing disturbs is queued when the gate is open and there is room. */
  lemma OfferDelivers(s: State, p: nat, payload: nat)
    requires Idles(s, p) && s.open && |s.channel.queue| + s.channel.permits < 1024
    ensures var u := Ordinary(payload);
            var t := Next(Next(Next(s, Offer(p, u)), Proceed(p)), Proceed(p));
            && Idles(t, p) && t.queued == s.queued + [u] && t.channel.queue == s.channel.queue + [u]
            && t.channel.occupancy == s.channel.occupancy + 1 && t.finished == s.finished + 1 && t.dropped == s.dropped
  {
  }

  /** Without room it is dropped and published as one more gap. */
  lemma FullOfferReports(s: State, p: nat, payload: nat)
    requires Idles(s, p) && s.open && |s.channel.queue| + s.channel.permits >= 1024 && s.channel.gaps == s.channel.published
    ensures var t := Next(Next(Next(Next(Next(s, Offer(p, Ordinary(payload))), Proceed(p)), Proceed(p)), Proceed(p)), Proceed(p));
            && Idles(t, p) && t.queued == s.queued && t.dropped == s.dropped + 1 && t.finished == s.finished + 1
            && t.channel == s.channel.(gaps := s.channel.gaps + 1, published := s.channel.published + 1)
  {
  }

  /** Before the gate opens it leaves nothing behind but its own count. */
  lemma EarlyOfferVanishes(s: State, p: nat, payload: nat)
    requires Idles(s, p) && !s.open
    ensures var t := Next(Next(s, Offer(p, Ordinary(payload))), Proceed(p));
            Idles(t, p) && t == s.(pcs := t.pcs, finished := s.finished + 1, suppressed := s.suppressed + 1)
  {
  }

  /** Catchup opens the gate as the first value. */
  lemma CatchupOpens(s: State, p: nat)
    requires Inv(s) && Idles(s, p) && !s.open
    ensures var t := Next(Next(Next(s, OfferCatchup(p)), Proceed(p)), Proceed(p));
            Idles(t, p) && t.open && t.queued == [Catchup] && t.channel.queue == [Catchup]
  {
    QuietQueue(s);
    hide Inv;
  }

  lemma QuietQueue(s: State)
    requires Inv(s) && !s.open && s.holder.None? && !s.channel.closed
    ensures s.queued == [] && s.channel.queue == [] && s.channel.permits == 0
  {
    assert Reservers(s.pcs) == {} by {
      assert forall q: nat :: q in Reservers(s.pcs) ==> PcOf(s, q).Reserved?;
    }
  }

  /** The live marker takes a place and is queued. */
  lemma LiveDelivers(s: State, p: nat)
    requires Idles(s, p) && s.open && |s.channel.queue| + s.channel.permits < 1024
    ensures var t := Next(Next(Next(s, CheckLive(p)), Proceed(p)), Proceed(p));
            Idles(t, p) && t.queued == s.queued + [Live] && t.channel.queue == s.channel.queue + [Live] && t.channel.permits == s.channel.permits
  {
  }
}
