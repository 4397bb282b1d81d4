/** What a client is told to do after a delta: target selection, the continuation of
    a response, and the fitting descent. */
module Continuation {
  import opened Maps
  import opened History
  import opened Ladder
  import opened Publication

  datatype Selection = Selected(source: nat, target: nat) | WaitForWakeup(wakeAt: nat)

  /** Stale publications never grow, so they accept every target; others accept the
      successor and targets at least one active interval away. */
  predicate Eligible(source: nat, interval: nat, stale: bool, target: nat) {
    stale || target == OrdinarySuccessor(source) || target - source >= interval
  }

  /** The first reachable eligible target in ladder order. */
  function FirstReachable(targets: seq<nat>, source: nat, head: nat, interval: nat, stale: bool): Option<nat> {
    if targets == [] then None
    else if targets[0] <= head && Eligible(source, interval, stale, targets[0]) then Some(targets[0])
    else FirstReachable(targets[1..], source, head, interval, stale)
  }

  /** The least eligible target beyond a revision. */
  function LeastBeyond(targets: seq<nat>, source: nat, beyond: nat, interval: nat, stale: bool): Option<nat> {
    if targets == [] then None
    else
      var rest := LeastBeyond(targets[1..], source, beyond, interval, stale);
      if targets[0] > beyond && Eligible(source, interval, stale, targets[0])
      then Some(if rest.Some? then Min(targets[0], rest.value) else targets[0]) else rest
  }

  function Select(source: nat, head: nat, state: PublicationState, interval: nat): Selection
    requires source < head
  {
    var targets := Boundaries(source);
    if targets[0] <= head then Selected(source, targets[0])
    else
      var reachable := FirstReachable(targets, source, head, interval, state.Stale?);
      if reachable.Some? then Selected(source, reachable.value)
      else
        var wake := LeastBeyond(targets, source, head, interval, state.Stale?);
        SuccessorAlwaysEligible(source, head, interval, state.Stale?);
        WaitForWakeup(wake.value)
  }

  /** The nearest boundary a cursor would wait for under an active interval. */
  function NextEligible(source: nat, interval: nat): nat {
    var least := LeastBeyond(Boundaries(source), source, source, interval, false);
    LadderShape(source);
    SuccessorAlwaysEligible(source, source, interval, false);
    least.value
  }

  lemma SuccessorAlwaysEligible(source: nat, beyond: nat, interval: nat, stale: bool)
    requires OrdinarySuccessor(source) > beyond
    ensures LeastBeyond(Boundaries(source), source, beyond, interval, stale).Some?
  {
  }

  lemma {:induction false} FirstReachableIs(targets: seq<nat>, source: nat, head: nat, interval: nat, stale: bool)
    ensures var r := FirstReachable(targets, source, head, interval, stale);
            && (r.Some? ==> r.value in targets && r.value <= head && Eligible(source, interval, stale, r.value))
            && (r.None? ==> forall t :: t in targets && t <= head ==> !Eligible(source, interval, stale, t))
            && (r.Some? && (forall i, j :: 0 <= i < j < |targets| ==> targets[j] < targets[i]) ==>
                  forall t :: t in targets && t <= head && Eligible(source, interval, stale, t) ==> t <= r.value)
  {
    if targets != [] {
      FirstReachableIs(targets[1..], source, head, interval, stale);
    }
  }

  lemma {:induction false} LeastBeyondIs(targets: seq<nat>, source: nat, beyond: nat, interval: nat, stale: bool)
    ensures var r := LeastBeyond(targets, source, beyond, interval, stale);
            && (r.Some? ==> r.value in targets && r.value > beyond && Eligible(source, interval, stale, r.value))
            && (r.Some? ==> forall t :: t in targets && t > beyond && Eligible(source, interval, stale, t) ==> r.value <= t)
            && (r.None? ==> forall t :: t in targets && t > beyond ==> !Eligible(source, interval, stale, t))
  {
    if targets != [] {
      LeastBeyondIs(targets[1..], source, beyond, interval, stale);
    }
  }

  // ----- Completing a response -----------------------------------------------------------

  datatype Continues = ReachedHead | ContinueImmediately | WaitForNextWakeup

  datatype Response = Response(continues: Continues, action: ScheduleAction, wakeAt: Option<nat>, retryAfterMs: Option<int>)

  function ContinuesFrom(head: nat, state: PublicationState, returned: nat, next: nat): Continues {
    if returned == head then ReachedHead
    else if state.Stale? || next <= head then ContinueImmediately
    else WaitForNextWakeup
  }

  /** The continuation, schedule action, wake boundary and retry delay after a
      response that returned one revision under a captured Head. */
  function CompleteDelta(head: nat, state: PublicationState, returned: nat, registered: bool, interval: nat): Response
    requires returned <= head
  {
    var next := NextEligible(returned, interval);
    var continues := ContinuesFrom(head, state, returned, next);
    Response(
      continues,
      if state.Stale? && returned == head then ValidateOnly else Replace(next, continues.ContinueImmediately?),
      if continues.WaitForNextWakeup? then Some(next) else None,
      if registered || continues.ContinueImmediately? then None
      else if state.Stale? && returned == head then Some(1000)
      else Some((if next - head < 1 then 1 else next - head) * 75))
  }

  lemma NextEligibleBounds(source: nat, interval: nat)
    ensures source < NextEligible(source, interval) <= OrdinarySuccessor(source) <= source + 128
    ensures NextEligible(source, interval) in Boundaries(source)
    ensures forall t :: t in Boundaries(source) && (t == OrdinarySuccessor(source) || t - source >= interval) ==>
              NextEligible(source, interval) <= t
    ensures NextEligible(source, interval) == OrdinarySuccessor(source) || NextEligible(source, interval) - source >= interval
  {
    LadderShape(source);
    SuccessorAhead(source);
    LeastBeyondIs(Boundaries(source), source, source, interval, false);
  }

  /** For a Live or Synchronizing publication, selection yields a range exactly when
      the next eligible boundary is within Head, and otherwise waits for that boundary;
      a Stale publication always yields a range. The range reaches the farthest target
      within Head that is the successor or far enough away, any target when Stale. */
  lemma SelectDecides(source: nat, head: nat, state: PublicationState, interval: nat)
    requires source < head
    ensures var next := NextEligible(source, interval);
            var selection := Select(source, head, state, interval);
            && (selection.Selected? <==> state.Stale? || next <= head)
            && (selection.WaitForWakeup? ==> selection.wakeAt == next > head)
            && (selection.Selected? ==>
                  && selection.source == source && source < selection.target <= head
                  && selection.target in Boundaries(source)
                  && (state.Stale? || selection.target == OrdinarySuccessor(source) || selection.target - source >= interval)
                  && forall t :: t in Boundaries(source) && t <= head
                                 && (state.Stale? || t == OrdinarySuccessor(source) || t - source >= interval) ==>
                       t <= selection.target)
  {
    var targets := Boundaries(source);
    LadderShape(source);
    FirstReachableIs(targets, source, head, interval, state.Stale?);
    LeastBeyondIs(targets, source, head, interval, state.Stale?);
    LeastBeyondIs(targets, source, source, interval, false);
    assert targets[|targets| - 1] in targets && source + 1 <= head;
    assert targets[0] in targets;
  }

  /** The response and a fresh selection at the returned cursor never disagree: it
      continues exactly when selection yields a range and waits exactly when selection
      waits, for the same boundary. A Stale publication never waits. */
  lemma ContinuationAgrees(head: nat, state: PublicationState, returned: nat, registered: bool, interval: nat)
    requires returned <= head
    ensures var r := CompleteDelta(head, state, returned, registered, interval);
            && (r.continues.ReachedHead? <==> returned == head)
            && (returned < head ==>
                  && (r.continues.ContinueImmediately? <==> Select(returned, head, state, interval).Selected?)
                  && (r.continues.WaitForNextWakeup? ==> r.wakeAt == Some(Select(returned, head, state, interval).wakeAt)))
            && (r.wakeAt.Some? <==> r.continues.WaitForNextWakeup?)
            && (state.Stale? ==> !r.continues.WaitForNextWakeup?)
            && (r.action.Replace? ==> (r.action.wakeSent <==> r.continues.ContinueImmediately?) && r.action.wakeAt > returned)
            && (r.action.Replace? ==> r.action.wakeAt == NextEligible(returned, interval))
            && (r.action.Replace? && !r.action.wakeSent ==> r.action.wakeAt > head)
            && (r.action.ValidateOnly? <==> state.Stale? && returned == head)
  {
    NextEligibleBounds(returned, interval);
    if returned < head {
      SelectDecides(returned, head, state, interval);
    }
  }

  /** An unregistered client that must wait is told 1000 ms by a finished Stale
      publication and 75 to 9600 ms otherwise; the boundary never precedes Head. */
  lemma RetryIsBounded(head: nat, state: PublicationState, returned: nat, registered: bool, interval: nat)
    requires returned <= head
    ensures var r := CompleteDelta(head, state, returned, registered, interval);
            && (r.retryAfterMs.Some? <==> !registered && !r.continues.ContinueImmediately?)
            && (r.retryAfterMs.Some? && r.retryAfterMs.value != 1000 ==> 75 <= r.retryAfterMs.value <= 9600)
            && (r.retryAfterMs.Some? && !(state.Stale? && returned == head) ==>
                  head < NextEligible(returned, interval) && r.retryAfterMs.value == (NextEligible(returned, interval) - head) * 75)
            && (r.retryAfterMs.Some? && state.Stale? ==> r.retryAfterMs.value == 1000)
  {
    NextEligibleBounds(returned, interval);
  }

  // ----- Fitting descent -------------------------------------------------------------------

  /** The position of the selected target on its ladder. */
  function IndexOf(targets: seq<nat>, target: nat): nat
    requires target in targets
    ensures IndexOf(targets, target) < |targets| && targets[IndexOf(targets, target)] == target
  {
    if targets[0] == target then 0 else 1 + IndexOf(targets[1..], target)
  }

  function WhileAtLeast(targets: seq<nat>, floor: Option<nat>): seq<nat> {
    if targets == [] || (floor.Some? && targets[0] < floor.value) then []
    else [targets[0]] + WhileAtLeast(targets[1..], floor)
  }

  /** The selected target and the shorter ones a size limit may fall back to, never
      shorter than coverage that is already cached. */
  function FittingTargets(source: nat, target: nat, cached: Option<nat>): seq<nat>
    requires target in Boundaries(source)
  {
    WhileAtLeast(Boundaries(source)[IndexOf(Boundaries(source), target)..], cached)
  }

  lemma {:induction false} WhileAtLeastIsPrefix(targets: seq<nat>, floor: Option<nat>)
    ensures WhileAtLeast(targets, floor) <= targets
    ensures floor.None? ==> WhileAtLeast(targets, floor) == targets
    ensures targets != [] && (floor.Some? ==> floor.value <= targets[0]) ==> WhileAtLeast(targets, floor) != []
  {
    if targets != [] {
      WhileAtLeastIsPrefix(targets[1..], floor);
    }
  }

  predicate Falls(targets: seq<nat>) { forall i, j :: 0 <= i < j < |targets| ==> targets[j] < targets[i] }

  lemma {:induction false} WhileAtLeastKeeps(targets: seq<nat>, floor: Option<nat>, t: nat)
    requires Falls(targets)
    ensures t in WhileAtLeast(targets, floor) <==> t in targets && (floor.Some? ==> floor.value <= t)
  {
    if targets != [] {
      assert Falls(targets[1..]);
      WhileAtLeastKeeps(targets[1..], floor, t);
      assert t in targets <==> t == targets[0] || t in targets[1..];
      if t in targets[1..] {
        var i :| 0 <= i < |targets| - 1 && targets[1..][i] == t;
        assert targets[i + 1] < targets[0];
      }
    }
  }

  lemma FromTarget(targets: seq<nat>, k: nat, t: nat)
    requires Falls(targets) && k < |targets|
    ensures t in targets[k..] <==> t in targets && t <= targets[k]
    ensures Falls(targets[k..])
  {
    if t in targets[k..] {
      var i :| 0 <= i < |targets| - k && targets[k..][i] == t;
      assert targets[k + i] == t;
    }
    if t in targets && t <= targets[k] {
      var i :| 0 <= i < |targets| && targets[i] == t;
      assert i >= k;
      assert targets[k..][i - k] == t;
    }
  }

  /** The candidates are exactly the ladder's targets from the selected one down to what is
      already cached. */
  lemma FittingTargetsAre(source: nat, target: nat, cached: Option<nat>, t: nat)
    requires target in Boundaries(source)
    ensures t in FittingTargets(source, target, cached) <==>
            t in Boundaries(source) && t <= target && (cached.Some? ==> cached.value <= t)
  {
    LadderShape(source);
    hide Boundaries, WhileAtLeast;
    var targets := Boundaries(source);
    var k := IndexOf(targets, target);
    FromTarget(targets, k, t);
    WhileAtLeastKeeps(targets[k..], cached, t);
  }

  /** Candidates for a retained source and a target within history meet every demand
      of the fitting search, start at the selected target, and without cached coverage
      end at the very next revision. */
  lemma FittingTargetsDescend(h: History, source: nat, target: nat, cached: Option<nat>)
    requires h.Valid() && target in Boundaries(source) && target <= h.current
    requires cached.Some? ==> cached.value <= target
    ensures var candidates := FittingTargets(source, target, cached);
            && candidates != [] && candidates[0] == target
            && Descending(h, source, candidates)
            && (cached.None? ==> candidates[|candidates| - 1] == source + 1)
  {
    LadderShape(source);
    hide Boundaries, Ladder.Interior, WhileAtLeast;
    var targets := Boundaries(source);
    var k := IndexOf(targets, target);
    WhileAtLeastIsPrefix(targets[k..], cached);
    var candidates := FittingTargets(source, target, cached);
    forall i | 0 <= i < |candidates|
      ensures candidates[i] == targets[k + i]
    {
      assert candidates[i] == targets[k..][i];
    }
    forall i | 0 <= i < |candidates|
      ensures source < candidates[i]
    {
      assert targets[k + i] in targets;
    }
  }

  /** Fitting cannot fail for a retained source without cached coverage when every
      retained entry fits on its own: the next revision is always a candidate. */
  lemma SingleEntryAlwaysFits(h: History, source: nat, target: nat, fits: nat -> bool, r: Fitting)
    requires h.Valid() && h.Oldest() <= source && target in Boundaries(source) && target <= h.current
    requires forall e :: e in h.entries ==> fits(e.estimate)
    requires var candidates := FittingTargets(source, target, None);
             candidates != [] && Descending(h, source, candidates) && FarthestFit(h, source, candidates, fits, r)
    ensures r.Fitted?
  {
    FittingTargetsDescend(h, source, target, None);
    var candidates := FittingTargets(source, target, None);
    var last := candidates[|candidates| - 1];
    assert last in candidates;
    assert source < h.current by { LadderShape(source); }
    var slice := Slice(h, source, source + 1);
    assert slice == [h.entries[source - h.Oldest()]];
    assert Sum(slice) == Sum(slice[..0]) + slice[0].estimate && slice[..0] == [];
    assert Cost(h, source, last) == h.entries[source - h.Oldest()].estimate;
  }
}
