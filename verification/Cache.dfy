/** The source-keyed delta cache and the depth-keyed Head cache: lookup, single-flight
    election, completion, age pruning and replay-floor invalidation. */
module Cache {
  import opened Maps
  import opened Words

  const DELTA_MAX_AGE_MS: nat := 300_000
  const HEAD_MAX_AGE_MS: nat := 90_000

  /** The identity of one construction job. */
  type JobId = nat

  datatype CachedDelta = CachedDelta(from: nat, to: nat, sizeLimited: bool, body: nat)
  {
    predicate Adequate(target: nat) { to >= target || sizeLimited }
  }

  datatype Running = Running(target: nat, sizeLimited: bool, job: JobId)

  datatype DeltaSlot = DeltaSlot(firstTimestamp: nat, completed: Option<CachedDelta>, running: Option<Running>)

  type DeltaSlots = map<nat, DeltaSlot>

  datatype HeadSnapshot = HeadSnapshot(depth: nat, revision: nat, timestamp: nat, body: nat)

  datatype HeadSlot = HeadSlot(completed: Option<HeadSnapshot>, running: Option<JobId>)

  type HeadSlots = map<nat, HeadSlot>

  datatype BuildError = Cancelled | Encoding

  datatype Result<T> = Ok(value: T) | Err(error: BuildError)

  datatype Access<T> = Completed(value: T) | Job(job: JobId)

  datatype Lookup<T> = Found(value: T) | InProgress(job: JobId) | ConstructionRequired(currentTarget: Option<nat>)

  // ----- Delta slots ---------------------------------------------------------------------

  /** A slot is never empty, its value keeps the slot's key as source, and a running
      job aims strictly beyond the completed target. */
  predicate SlotOk(source: nat, slot: DeltaSlot) {
    && (slot.completed.Some? || slot.running.Some?)
    && (slot.completed.Some? ==> slot.completed.value.from == source)
    && (slot.completed.Some? && slot.running.Some? ==>
          slot.running.value.target > slot.completed.value.to)
  }

  predicate SlotsOk(slots: DeltaSlots) {
    forall source :: source in slots ==> SlotOk(source, slots[source])
  }

  function LookupDelta(slots: DeltaSlots, source: nat, target: nat): Lookup<CachedDelta> {
    if source !in slots then ConstructionRequired(None)
    else
      var slot := slots[source];
      if slot.completed.Some? && slot.completed.value.Adequate(target) then Found(slot.completed.value)
      else if slot.running.Some? then InProgress(slot.running.value.job)
      else ConstructionRequired(if slot.completed.Some? then Some(slot.completed.value.to) else None)
  }

  /** Reuses, reclassifies or joins what the slot has, or installs the new job. */
  function ElectDelta(slots: DeltaSlots, source: nat, timestamp: nat, target: nat, sizeLimited: bool, newJob: JobId): (DeltaSlots, Access<CachedDelta>) {
    var job := Running(target, sizeLimited, newJob);
    if source !in slots then (slots[source := DeltaSlot(timestamp, None, Some(job))], Job(newJob))
    else
      var slot := slots[source];
      if sizeLimited && slot.completed.Some? && slot.completed.value.to == target && !slot.completed.value.sizeLimited then
        var value := slot.completed.value.(sizeLimited := true);
        (slots[source := slot.(completed := Some(value))], Completed(value))
      else if slot.completed.Some? && slot.completed.value.Adequate(target) then (slots, Completed(slot.completed.value))
      else if slot.running.Some? then (slots, Job(slot.running.value.job))
      else (slots[source := slot.(running := Some(job))], Job(newJob))
  }

  predicate HoldsDelta(slots: DeltaSlots, source: nat, job: JobId) {
    source in slots && slots[source].running.Some? && slots[source].running.value.job == job
  }

  /** Records a job's result in its slot, if the slot still runs exactly that job. */
  function FinishDelta(slots: DeltaSlots, source: nat, job: JobId, result: Result<CachedDelta>): DeltaSlots {
    if !HoldsDelta(slots, source, job) then slots
    else
      var slot := slots[source];
      var completed := if result.Ok? && (slot.completed.None? || result.value.to > slot.completed.value.to) then Some(result.value) else slot.completed;
      if completed.None? then slots - {source} else slots[source := slot.(completed := completed, running := None)]
  }

  function DetachDelta(slots: DeltaSlots, floor: nat): DeltaSlots {
    map source | source in slots && source >= floor :: slots[source]
  }

  function DetachedDeltaJobs(slots: DeltaSlots, floor: nat): set<JobId> {
    set source | source in slots && source < floor && slots[source].running.Some? :: slots[source].running.value.job
  }

  predicate Expired(slot: DeltaSlot, now: nat) { now - slot.firstTimestamp >= DELTA_MAX_AGE_MS }

  function Unexpired(slots: DeltaSlots, now: nat): DeltaSlots {
    map source | source in slots && !Expired(slots[source], now) :: slots[source]
  }

  /** Answers from lookup and election always satisfy the request. */
  lemma DeltaAnswersAdequate(slots: DeltaSlots, source: nat, timestamp: nat, target: nat, sizeLimited: bool, newJob: JobId)
    requires SlotsOk(slots)
    ensures var found := LookupDelta(slots, source, target);
            found.Found? ==> found.value.Adequate(target) && found.value.from == source
    ensures var (after, access) := ElectDelta(slots, source, timestamp, target, sizeLimited, newJob);
            && (access.Completed? ==> access.value.Adequate(target) && access.value.from == source)
            && (access.Job? ==> HoldsDelta(after, source, access.job))
  {
  }

  /** While a slot lives its completed target never falls, and every operation keeps
      the slot invariant. */
  predicate Grows(before: DeltaSlots, after: DeltaSlots) {
    forall source :: source in before && source in after && before[source].completed.Some? ==>
      after[source].completed.Some? && after[source].completed.value.to >= before[source].completed.value.to
  }

  lemma ElectGrows(slots: DeltaSlots, source: nat, timestamp: nat, target: nat, sizeLimited: bool, newJob: JobId)
    requires SlotsOk(slots)
    ensures var after := ElectDelta(slots, source, timestamp, target, sizeLimited, newJob).0;
            SlotsOk(after) && Grows(slots, after)
  {
  }

  lemma FinishGrows(slots: DeltaSlots, source: nat, job: JobId, result: Result<CachedDelta>)
    requires SlotsOk(slots)
    requires HoldsDelta(slots, source, job) && result.Ok? ==>
               result.value.from == source && result.value.to == slots[source].running.value.target
    ensures var after := FinishDelta(slots, source, job, result);
            && SlotsOk(after) && Grows(slots, after)
            && (HoldsDelta(slots, source, job) && result.Ok? ==> source in after && after[source].completed == Some(result.value))
  {
  }

  /** A recorded delta is found again by every lookup and election that its target or its
      size limit satisfies, and no other source notices. */
  lemma DeltaFoundAgain(slots: DeltaSlots, source: nat, job: JobId, value: CachedDelta, target: nat, timestamp: nat, newJob: JobId)
    requires SlotsOk(slots) && HoldsDelta(slots, source, job)
    requires value.from == source && value.to == slots[source].running.value.target
    requires target <= value.to || value.sizeLimited
    ensures var after := FinishDelta(slots, source, job, Ok(value));
            && LookupDelta(after, source, target) == Found(value)
            && ElectDelta(after, source, timestamp, target, false, newJob) == (after, Completed(value))
            && forall other :: other != source ==> Get(after, other) == Get(slots, other)
  {
  }

  /** A size-limited request for exactly the completed target is answered by that value,
      which from then on answers every farther request too. */
  lemma DeltaReclassifies(slots: DeltaSlots, source: nat, timestamp: nat, newJob: JobId, farther: nat)
    requires source in slots && slots[source].completed.Some?
    ensures var value := slots[source].completed.value;
            var limited := CachedDelta(value.from, value.to, true, value.body);
            var (after, access) := ElectDelta(slots, source, timestamp, value.to, true, newJob);
            && access == Completed(limited) && LookupDelta(after, source, farther) == Found(limited)
            && source in after && after[source] == slots[source].(completed := Some(limited))
  {
  }

  /** A failed job leaves the slot as it was before the job, or no slot where there was none. */
  lemma DeltaFailureUndoes(slots: DeltaSlots, source: nat, timestamp: nat, target: nat, sizeLimited: bool, job: JobId, error: BuildError)
    requires SlotsOk(slots) && (source in slots ==> slots[source].running.None?)
    ensures var (elected, access) := ElectDelta(slots, source, timestamp, target, sizeLimited, job);
            access == Job(job) ==> FinishDelta(elected, source, job, Err(error)) == slots
  {
  }

  /** One construction at a time: while an elected job runs, every request its source gets
      for the same or a later target joins it and changes nothing. */
  lemma DeltaSingleFlight(slots: DeltaSlots, source: nat, timestamp: nat, target: nat, sizeLimited: bool, job: JobId,
                          later: nat, again: bool, newJob: JobId)
    requires SlotsOk(slots) && later >= target
    ensures var (elected, access) := ElectDelta(slots, source, timestamp, target, sizeLimited, job);
            access.Job? ==>
              && ElectDelta(elected, source, timestamp, later, again, newJob) == (elected, access)
              && LookupDelta(elected, source, later) == InProgress(access.job)
              && ((source in slots && slots[source].running.Some?) || Get(elected, source).value.running == Some(Running(target, sizeLimited, job)))
  {
  }

  /** Age and floor remove exactly the slots they name and leave the others as they are. */
  lemma DeltaRemovals(slots: DeltaSlots, source: nat, now: nat, floor: nat)
    requires source in slots ==> slots[source].firstTimestamp <= now
    ensures Get(Unexpired(slots, now), source) ==
            if source in slots && now < slots[source].firstTimestamp + 300_000 then Some(slots[source]) else None
    ensures Get(DetachDelta(slots, floor), source) == if source in slots && source >= floor then Some(slots[source]) else None
    ensures source in slots && source < floor && slots[source].running.Some? ==>
              slots[source].running.value.job in DetachedDeltaJobs(slots, floor)
  {
  }

  // ----- Head slots --------------------------------------------------------------------------

  datatype Boundary = Boundary(headTimestamp: nat, floor: nat, oldest: nat)
  {
    /** Whether a cached snapshot may still be served at this publication boundary. */
    predicate Admits(s: HeadSnapshot) {
      s.revision >= floor && s.revision >= oldest && headTimestamp - s.timestamp < HEAD_MAX_AGE_MS
    }
  }

  predicate HeadSlotsOk(slots: HeadSlots) {
    forall depth :: depth in slots ==>
      && (slots[depth].completed.Some? || slots[depth].running.Some?)
      && (slots[depth].completed.Some? ==> slots[depth].completed.value.depth == depth)
  }

  /** Serves an admitted snapshot, forgets one that is not, and drops an empty slot. */
  function LookupHead(slots: HeadSlots, depth: nat, boundary: Boundary): (HeadSlots, Lookup<HeadSnapshot>) {
    if depth !in slots then (slots, ConstructionRequired(None))
    else
      var slot := slots[depth];
      if slot.completed.Some? && boundary.Admits(slot.completed.value) then (slots, Found(slot.completed.value))
      else if slot.running.Some? then (slots[depth := slot.(completed := None)], InProgress(slot.running.value))
      else (slots - {depth}, ConstructionRequired(None))
  }

  function ElectHead(slots: HeadSlots, depth: nat, boundary: Boundary, newJob: JobId): (HeadSlots, Access<HeadSnapshot>) {
    var slot := if depth in slots then slots[depth] else HeadSlot(None, None);
    if slot.completed.Some? && boundary.Admits(slot.completed.value) then (slots, Completed(slot.completed.value))
    else if slot.running.Some? then (slots[depth := slot.(completed := None)], Job(slot.running.value))
    else (slots[depth := HeadSlot(None, Some(newJob))], Job(newJob))
  }

  predicate HoldsHead(slots: HeadSlots, depth: nat, job: JobId) {
    depth in slots && slots[depth].running == Some(job)
  }

  function FinishHead(slots: HeadSlots, depth: nat, job: JobId, result: Result<HeadSnapshot>): HeadSlots {
    if !HoldsHead(slots, depth, job) then slots
    else if result.Ok? then slots[depth := HeadSlot(Some(result.value), None)]
    else if slots[depth].completed.None? then slots - {depth}
    else slots[depth := slots[depth].(running := None)]
  }

  /** A recorded snapshot is found again exactly while it is at or above the replay floor and
      the oldest available revision and younger than 90 seconds; after that it is forgotten. */
  lemma HeadFoundAgain(slots: HeadSlots, depth: nat, job: JobId, s: HeadSnapshot, boundary: Boundary, newJob: JobId)
    requires HoldsHead(slots, depth, job) && s.depth == depth && s.timestamp <= boundary.headTimestamp
    ensures var after := FinishHead(slots, depth, job, Ok(s));
            var (looked, found) := LookupHead(after, depth, boundary);
            var (elected, access) := ElectHead(after, depth, boundary, newJob);
            && (forall other :: other != depth ==> Get(after, other) == Get(slots, other))
            && (if s.revision >= boundary.floor && s.revision >= boundary.oldest && boundary.headTimestamp < s.timestamp + 90_000
                then looked == after && found == Found(s) && elected == after && access == Completed(s)
                else depth !in looked && found == ConstructionRequired(None) && access == Job(newJob) && elected[depth] == HeadSlot(None, Some(newJob)))
  {
  }

  lemma HeadFailureUndoes(slots: HeadSlots, depth: nat, boundary: Boundary, job: JobId, error: BuildError)
    requires HeadSlotsOk(slots) && (depth in slots ==> slots[depth].running.None?)
    ensures var (elected, access) := ElectHead(slots, depth, boundary, job);
            access == Job(job) ==> FinishHead(elected, depth, job, Err(error)) == slots - {depth}
  {
  }

  /** One construction at a time for a depth. */
  lemma HeadSingleFlight(slots: HeadSlots, depth: nat, boundary: Boundary, job: JobId, later: Boundary, newJob: JobId)
    ensures var (elected, access) := ElectHead(slots, depth, boundary, job);
            access.Job? ==>
              && ElectHead(elected, depth, later, newJob) == (elected, access)
              && LookupHead(elected, depth, later) == (elected, InProgress(access.job))
  {
    var (elected, access) := ElectHead(slots, depth, boundary, job);
    if access.Job? {
      assert elected[depth := elected[depth].(completed := None)] == elected;
    }
  }

  /** A newer floor takes every running job and every snapshot below it. */
  function DetachHead(slots: HeadSlots, floor: nat): HeadSlots {
    map depth | depth in slots && slots[depth].completed.Some? && slots[depth].completed.value.revision >= floor ::
      slots[depth].(running := None)
  }

  function DetachedHeadJobs(slots: HeadSlots): set<JobId> {
    set depth | depth in slots && slots[depth].running.Some? :: slots[depth].running.value
  }

  lemma HeadRemovals(slots: HeadSlots, depth: nat, floor: nat)
    requires HeadSlotsOk(slots)
    ensures Get(DetachHead(slots, floor), depth) ==
            if depth in slots && slots[depth].completed.Some? && slots[depth].completed.value.revision >= floor
            then Some(HeadSlot(slots[depth].completed, None)) else None
    ensures depth in slots && slots[depth].running.Some? ==> slots[depth].running.value in DetachedHeadJobs(slots)
  {
  }

  class HeadCache {
    var slots: HeadSlots

    constructor ()
      ensures slots == map[]
    {
      slots := map[];
    }

    method LookupAt(depth: nat, boundary: Boundary) returns (r: Lookup<HeadSnapshot>)
      requires HeadSlotsOk(slots)
      modifies this
      ensures (slots, r) == LookupHead(old(slots), depth, boundary) && HeadSlotsOk(slots)
      ensures r.Found? ==> boundary.Admits(r.value) && r.value.depth == depth
    {
      if depth !in slots {
        return ConstructionRequired(None);
      }
      if slots[depth].completed.Some? {
        if boundary.Admits(slots[depth].completed.value) {
          return Found(slots[depth].completed.value);
        }
        slots := slots[depth := slots[depth].(completed := None)];
      }
      if slots[depth].running.Some? {
        r := InProgress(slots[depth].running.value);
        assert slots == LookupHead(old(slots), depth, boundary).0;
      } else {
        slots := slots - {depth};
        assert slots == old(slots) - {depth};
        r := ConstructionRequired(None);
      }
    }

    method Elect(depth: nat, boundary: Boundary, newJob: JobId) returns (access: Access<HeadSnapshot>)
      requires HeadSlotsOk(slots)
      modifies this
      ensures (slots, access) == ElectHead(old(slots), depth, boundary, newJob) && HeadSlotsOk(slots)
      ensures access.Completed? ==> boundary.Admits(access.value) && access.value.depth == depth
      ensures access.Job? ==> HoldsHead(slots, depth, access.job)
    {
      var slot := if depth in slots then slots[depth] else HeadSlot(None, None);
      if slot.completed.Some? && boundary.Admits(slot.completed.value) {
        return Completed(slot.completed.value);
      }
      slot := slot.(completed := None);
      if slot.running.Some? {
        slots := slots[depth := slot];
        return Job(slot.running.value);
      }
      slots := slots[depth := slot.(running := Some(newJob))];
      access := Job(newJob);
    }

    method Finish(depth: nat, job: JobId, result: Result<HeadSnapshot>)
      requires HeadSlotsOk(slots) && (HoldsHead(slots, depth, job) && result.Ok? ==> result.value.depth == depth)
      modifies this
      ensures slots == FinishHead(old(slots), depth, job, result) && HeadSlotsOk(slots)
    {
      if depth in slots && slots[depth].running == Some(job) {
        var slot := slots[depth];
        if result.Ok? {
          slot := slot.(completed := Some(result.value));
        }
        slot := slot.(running := None);
        slots := if slot.completed.None? then slots - {depth} else slots[depth := slot];
      }
    }

    method DetachBefore(floor: nat) returns (jobs: set<JobId>)
      requires HeadSlotsOk(slots)
      modifies this
      ensures slots == DetachHead(old(slots), floor) && jobs == DetachedHeadJobs(old(slots)) && HeadSlotsOk(slots)
    {
      jobs := {};
      var todo := slots.Keys;
      while todo != {}
        invariant todo <= slots.Keys
        invariant forall depth :: Get(slots, depth) == if depth in todo then Get(old(slots), depth) else Get(DetachHead(old(slots), floor), depth)
        invariant jobs == JobsOutside(old(slots), todo)
        decreases todo
      {
        var depth :| depth in todo;
        assert Get(slots, depth) == Get(old(slots), depth);
        JobsOutsideStep(old(slots), todo, depth);
        var slot := slots[depth];
        if slot.completed.Some? && slot.completed.value.revision < floor {
          slot := slot.(completed := None);
        }
        if slot.running.Some? {
          jobs := jobs + {slot.running.value};
          slot := slot.(running := None);
        }
        slots := if slot.completed.Some? then slots[depth := slot] else slots - {depth};
        todo := todo - {depth};
        assert forall d :: d in todo ==> Get(slots, d) == Get(old(slots), d) && d in slots;
      }
      MapsEqual(slots, DetachHead(old(slots), floor));
    }
  }

  function JobsOutside(slots: HeadSlots, todo: set<nat>): set<JobId> {
    set depth | depth in slots && depth !in todo && slots[depth].running.Some? :: slots[depth].running.value
  }

  lemma JobsOutsideStep(slots: HeadSlots, todo: set<nat>, depth: nat)
    requires depth in slots && depth in todo
    ensures JobsOutside(slots, todo - {depth}) ==
            JobsOutside(slots, todo) + if slots[depth].running.Some? then {slots[depth].running.value} else {}
  {
  }

  // ----- Sorted keys -------------------------------------------------------------------------

  function Least(keys: set<nat>): (k: nat)
    requires keys != {}
    ensures k in keys && forall j :: j in keys ==> k <= j
  {
    LeastExists(keys);
    var k :| k in keys && forall j :: j in keys ==> k <= j;
    k
  }

  function Greatest(keys: set<nat>): (k: nat)
    requires keys != {}
    ensures k in keys && forall j :: j in keys ==> j <= k
  {
    GreatestExists(keys);
    var k :| k in keys && forall j :: j in keys ==> j <= k;
    k
  }

  lemma {:induction false} LeastExists(keys: set<nat>)
    requires keys != {}
    ensures exists k :: k in keys && forall j :: j in keys ==> k <= j
  {
    var x :| x in keys;
    var rest := keys - {x};
    if rest != {} {
      LeastExists(rest);
      var y :| y in rest && forall j :: j in rest ==> y <= j;
      var k := if x < y then x else y;
      assert forall j :: j in keys ==> j == x || j in rest;
      assert k in keys && forall j :: j in keys ==> k <= j;
    } else {
      assert keys == {x};
    }
  }

  lemma {:induction false} GreatestExists(keys: set<nat>)
    requires keys != {}
    ensures exists k :: k in keys && forall j :: j in keys ==> j <= k
  {
    var x :| x in keys;
    var rest := keys - {x};
    if rest != {} {
      GreatestExists(rest);
      var y :| y in rest && forall j :: j in rest ==> j <= y;
      var k := if x > y then x else y;
      assert forall j :: j in keys ==> j == x || j in rest;
      assert k in keys && forall j :: j in keys ==> j <= k;
    } else {
      assert keys == {x};
    }
  }

  function From(slots: DeltaSlots, bound: nat): set<nat> {
    set source | source in slots && source >= bound
  }

  /** Later sources carry later first timestamps. */
  predicate Ordered(slots: DeltaSlots) {
    forall a, b :: a in slots && b in slots && a <= b ==> slots[a].firstTimestamp <= slots[b].firstTimestamp
  }

  predicate ExpiredThrough(slots: DeltaSlots, now: nat, bound: nat) {
    forall source :: source in slots && source <= bound ==> Expired(slots[source], now)
  }

  predicate RetainedFrom(slots: DeltaSlots, now: nat, bound: nat) {
    forall source :: source in slots && source >= bound ==> !Expired(slots[source], now)
  }

  /** The first source at or after a midpoint decides the midpoint's side. */
  lemma Probe(slots: DeltaSlots, now: nat, midpoint: nat)
    requires Ordered(slots) && From(slots, midpoint) != {}
    ensures if Expired(slots[Least(From(slots, midpoint))], now) then ExpiredThrough(slots, now, midpoint) else RetainedFrom(slots, now, midpoint)
  {
    var candidate := Least(From(slots, midpoint));
    forall source | source in slots && source >= midpoint
      ensures slots[candidate].firstTimestamp <= slots[source].firstTimestamp
    {
      assert source in From(slots, midpoint);
    }
  }

  class DeltaCache {
    var slots: DeltaSlots

    constructor ()
      ensures slots == map[]
    {
      slots := map[];
    }

    /** Binary search over the numeric key domain, probing the first actual source at
        or after each midpoint. */
    method SplitPoint(now: nat, first: nat, last: nat) returns (bound: nat, rounds: nat)
      requires Ordered(slots) && first < last < U64_LIMIT && last in slots
      requires ExpiredThrough(slots, now, first) && RetainedFrom(slots, now, last)
      ensures From(slots, bound) != {} && (bound > 0 ==> ExpiredThrough(slots, now, bound - 1)) && RetainedFrom(slots, now, bound)
      ensures rounds <= 64
    {
      rounds := 0;
      var expired, retained := first, last;
      Pow64();
      assert retained in From(slots, retained);
      while retained - expired > 1
        invariant 0 <= expired < retained && From(slots, retained) != {}
        invariant ExpiredThrough(slots, now, expired) && RetainedFrom(slots, now, retained)
        invariant rounds <= 64 && retained - expired <= Pow2(64 - rounds)
        decreases retained - expired
      {
        hide Ordered, ExpiredThrough, RetainedFrom;
        var midpoint := expired + (retained - expired) / 2;
        assert From(slots, retained) <= From(slots, midpoint);
        var candidate := Least(From(slots, midpoint));
        Probe(slots, now, midpoint);
        assert rounds < 64;
        if Expired(slots[candidate], now) {
          expired := midpoint;
        } else {
          retained := midpoint;
        }
        rounds := rounds + 1;
      }
      bound := retained;
    }

    /** Removes the expired prefix of sources, and nothing else, within 64 rounds. */
    method PruneExpired(now: nat) returns (rounds: nat)
      requires Ordered(slots) && forall source :: source in slots ==> slots[source].firstTimestamp <= now && source < U64_LIMIT
      modifies this
      ensures slots == Unexpired(old(slots), now)
      ensures rounds <= 64
    {
      rounds := 0;
      if slots == map[] {
        return;
      }
      assert slots.Keys != {};
      var first, last := Least(slots.Keys), Greatest(slots.Keys);
      if !Expired(slots[first], now) {
        assert slots == Unexpired(slots, now);
        return;
      }
      if Expired(slots[last], now) {
        assert Unexpired(slots, now) == map[];
        slots := map[];
        return;
      }
      var bound;
      bound, rounds := SplitPoint(now, first, last);
      var kept := Least(From(slots, bound));
      assert forall source :: source in slots && source >= bound ==> source in From(slots, bound);
      slots := map source | source in slots && source >= kept :: slots[source];
    }

    method LookupAt(source: nat, target: nat, now: nat) returns (r: Lookup<CachedDelta>)
      requires Ordered(slots) && forall source :: source in slots ==> slots[source].firstTimestamp <= now && source < U64_LIMIT
      modifies this
      ensures slots == Unexpired(old(slots), now) && r == LookupDelta(slots, source, target)
    {
      var _ := PruneExpired(now);
      if source !in slots {
        return ConstructionRequired(None);
      }
      var slot := slots[source];
      if slot.completed.Some? && slot.completed.value.Adequate(target) {
        return Found(slot.completed.value);
      }
      if slot.running.Some? {
        return InProgress(slot.running.value.job);
      }
      r := ConstructionRequired(if slot.completed.Some? then Some(slot.completed.value.to) else None);
    }

    method Elect(source: nat, timestamp: nat, target: nat, sizeLimited: bool, newJob: JobId) returns (access: Access<CachedDelta>)
      requires SlotsOk(slots)
      modifies this
      ensures (slots, access) == ElectDelta(old(slots), source, timestamp, target, sizeLimited, newJob)
      ensures SlotsOk(slots) && Grows(old(slots), slots)
    {
      ElectGrows(slots, source, timestamp, target, sizeLimited, newJob);
      if source in slots {
        var slot := slots[source];
        if sizeLimited && slot.completed.Some? && slot.completed.value.to == target && !slot.completed.value.sizeLimited {
          var value := slot.completed.value.(sizeLimited := true);
          slots := slots[source := slot.(completed := Some(value))];
          return Completed(value);
        }
        if slot.completed.Some? && slot.completed.value.Adequate(target) {
          return Completed(slot.completed.value);
        }
        if slot.running.Some? {
          return Job(slot.running.value.job);
        }
        slots := slots[source := slot.(running := Some(Running(target, sizeLimited, newJob)))];
        return Job(newJob);
      }
      slots := slots[source := DeltaSlot(timestamp, None, Some(Running(target, sizeLimited, newJob)))];
      access := Job(newJob);
    }

    method Finish(source: nat, job: JobId, result: Result<CachedDelta>)
      requires SlotsOk(slots)
      requires HoldsDelta(slots, source, job) && result.Ok? ==>
                 && result.value.from == source && result.value.to == slots[source].running.value.target
                 && result.value.sizeLimited == slots[source].running.value.sizeLimited
      modifies this
      ensures slots == FinishDelta(old(slots), source, job, result)
      ensures SlotsOk(slots) && Grows(old(slots), slots)
    {
      FinishGrows(slots, source, job, result);
      if source in slots && slots[source].running.Some? && slots[source].running.value.job == job {
        var slot := slots[source];
        if result.Ok? && (slot.completed.None? || result.value.to > slot.completed.value.to) {
          slot := slot.(completed := Some(result.value));
        }
        slot := slot.(running := None);
        slots := if slot.completed.None? then slots - {source} else slots[source := slot];
      }
    }

    method DetachBefore(floor: nat) returns (jobs: set<JobId>)
      modifies this
      ensures slots == DetachDelta(old(slots), floor) && jobs == DetachedDeltaJobs(old(slots), floor)
    {
      jobs := set source | source in slots && source < floor && slots[source].running.Some? :: slots[source].running.value.job;
      slots := map source | source in slots && source >= floor :: slots[source];
    }
  }

  lemma Pow64()
    ensures Pow2(64) == U64_LIMIT
  {
    assert Pow2(8) == 2 * Pow2(7) == 4 * Pow2(6) == 8 * Pow2(5) == 16 * Pow2(4) == 256;
    PowerAdds(8, 8);
    PowerAdds(16, 16);
    PowerAdds(32, 32);
  }

  lemma {:induction false} PowerAdds(a: nat, b: nat)
    ensures Pow2(a + b) == Pow2(a) * Pow2(b)
  {
    if b > 0 {
      PowerAdds(a, b - 1);
      assert Pow2(a + b) == 2 * Pow2(a + (b - 1));
      DoubleFactor(Pow2(a), Pow2(b - 1));
    }
  }

  lemma DoubleFactor(x: nat, y: nat)
    ensures 2 * (x * y) == x * (2 * y)
  {
  }
}
