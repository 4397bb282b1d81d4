/** The gapless log of atomic deltas with replay barriers, prefix pruning, absolute
    planning costs and binary search. */
module History {
  import opened Maps
  import opened Graph
  import opened Words

  datatype Entry = Entry(delta: Delta, estimate: nat, cumulative: nat)

  datatype History = History(current: nat, cumulative: nat, floor: nat, entries: seq<Entry>)
  {
    /** Retained entries are atomic, contiguous and end at the current revision; the
        absolute costs step by the entry estimates and end at the current cost. */
    predicate Valid() {
      && |entries| <= current && floor <= Oldest()
      && (forall i :: 0 <= i < |entries| ==>
            entries[i].delta.fromRevision == Oldest() + i && entries[i].delta.toRevision == Oldest() + i + 1)
      && (forall i :: 0 <= i < |entries| ==> entries[i].estimate <= entries[i].cumulative)
      && (forall i :: 0 < i < |entries| ==> entries[i].cumulative == entries[i - 1].cumulative + entries[i].estimate)
      && (entries != [] ==> entries[|entries| - 1].cumulative == cumulative)
    }

    /** The oldest retained left boundary, or the current revision when empty. */
    function Oldest(): nat requires |entries| <= current { current - |entries| }
  }

  datatype AppendOutcome = Appended | AppendMismatch | NonAtomic

  /** Appends one delta, or a barrier that no replay may cross. */
  function Append(h: History, d: Delta, estimate: nat, barrier: bool): (History, AppendOutcome) {
    if h.current != d.fromRevision then (h, AppendMismatch)
    else if d.toRevision != d.fromRevision + 1 then (h, NonAtomic)
    else if barrier then (History(d.toRevision, h.cumulative + estimate, d.toRevision, []), Appended)
    else (History(d.toRevision, h.cumulative + estimate, h.floor, h.entries + [Entry(d, estimate, h.cumulative + estimate)]), Appended)
  }

  /** Drops the longest prefix whose Head level precedes a bound. */
  function DropPrefix(entries: seq<Entry>, low: nat): seq<Entry> {
    if entries != [] && entries[0].delta.headLevel < low then DropPrefix(entries[1..], low) else entries
  }

  function Prune(h: History, low: nat): History {
    h.(entries := DropPrefix(h.entries, low))
  }

  datatype Range =
    | BackwardTarget
    | BeforeReplayFloor(floor: nat)
    | StartPruned(oldest: nat)
    | StartUnavailable(current: nat)
    | UpToDate(revision: nat)
    | Deltas(from: nat, requested: nat, actual: nat, entries: seq<Entry>)

  function Min(a: nat, b: nat): nat { if a < b then a else b }

  /** The retained entries between two boundaries. */
  function Slice(h: History, from: nat, target: nat): seq<Entry>
    requires h.Valid() && h.Oldest() <= from <= target <= h.current
  {
    h.entries[from - h.Oldest()..target - h.Oldest()]
  }

  /** The replay a requester at one revision receives towards a target. */
  function RangeOf(h: History, from: nat, target: nat): Range
    requires h.Valid()
  {
    if target < from then BackwardTarget
    else if target == from then UpToDate(from)
    else if from < h.floor then BeforeReplayFloor(h.floor)
    else if from < h.Oldest() then StartPruned(h.Oldest())
    else if from == h.current then UpToDate(from)
    else if from > h.current then StartUnavailable(h.current)
    else Deltas(from, target, Min(target, h.current), Slice(h, from, Min(target, h.current)))
  }

  // ----- Costs ------------------------------------------------------------------

  function Sum(entries: seq<Entry>): nat {
    if entries == [] then 0 else Sum(entries[..|entries| - 1]) + entries[|entries| - 1].estimate
  }

  /** The summed estimates of the entries between two boundaries. */
  function Cost(h: History, from: nat, target: nat): nat
    requires h.Valid() && h.Oldest() <= from <= target <= h.current
  {
    Sum(Slice(h, from, target))
  }

  /** A difference of absolute costs is the sum of the estimates in between. */
  lemma {:induction false} CumulativeIsSum(h: History, start: nat, end: nat)
    requires h.Valid() && start <= end < |h.entries|
    ensures h.entries[start].cumulative - h.entries[start].estimate <= h.entries[end].cumulative
    ensures h.entries[end].cumulative - (h.entries[start].cumulative - h.entries[start].estimate) == Sum(h.entries[start..end + 1])
  {
    var slice := h.entries[start..end + 1];
    assert slice[..|slice| - 1] == h.entries[start..end];
    if start < end {
      CumulativeIsSum(h, start, end - 1);
    }
  }

  // ----- What append and prune keep ------------------------------------------------

  lemma AppendKeepsValid(h: History, d: Delta, estimate: nat, barrier: bool)
    requires h.Valid()
    ensures Append(h, d, estimate, barrier).0.Valid()
  {
  }

  lemma {:induction false} DropPrefixIsSuffix(entries: seq<Entry>, low: nat) returns (k: nat)
    ensures k <= |entries| && DropPrefix(entries, low) == entries[k..]
    ensures forall i :: 0 <= i < k ==> entries[i].delta.headLevel < low
    ensures k < |entries| ==> entries[k].delta.headLevel >= low
  {
    if entries != [] && entries[0].delta.headLevel < low {
      var rest := DropPrefixIsSuffix(entries[1..], low);
      k := rest + 1;
      assert entries[1..][rest..] == entries[k..];
    } else {
      k := 0;
    }
  }

  lemma PruneKeepsValid(h: History, low: nat)
    requires h.Valid()
    ensures Prune(h, low).Valid()
  {
    var k := DropPrefixIsSuffix(h.entries, low);
  }

  /** When Head levels never fall along the log, the dropped prefix is exactly the
      set of entries below the bound. */
  lemma PruneIsExact(h: History, low: nat)
    requires h.Valid()
    requires forall i, j :: 0 <= i <= j < |h.entries| ==> h.entries[i].delta.headLevel <= h.entries[j].delta.headLevel
    ensures forall e :: e in Prune(h, low).entries <==> e in h.entries && e.delta.headLevel >= low
  {
    var k := DropPrefixIsSuffix(h.entries, low);
    forall e | e in h.entries && e.delta.headLevel >= low
      ensures e in Prune(h, low).entries
    {
      var i :| 0 <= i < |h.entries| && h.entries[i] == e;
      assert i >= k;
      assert h.entries[k..][i - k] == e;
    }
  }

  // ----- The log object ---------------------------------------------------------------

  datatype Fitting =
    | FittingError(reason: Range)
    | NoFitting
    | Fitted(target: nat, shortened: bool, entries: seq<Entry>)

  /** The price of the retained entry that starts at a revision. */
  function PriceAt(h: History, r: nat): nat
    requires h.Valid() && h.Oldest() <= r < h.current
  {
    h.entries[r - h.Oldest()].estimate
  }

  lemma SuffixPrice(h: History, k: nat, r: nat)
    requires h.Valid() && k <= |h.entries| && h.(entries := h.entries[k..]).Valid()
    requires h.(entries := h.entries[k..]).Oldest() <= r < h.current
    ensures h.Oldest() <= r && PriceAt(h.(entries := h.entries[k..]), r) == PriceAt(h, r)
  {
    var g := h.(entries := h.entries[k..]);
    assert g.Oldest() == h.Oldest() + k;
    assert g.entries[r - g.Oldest()] == h.entries[r - h.Oldest()];
  }

  lemma AppendPrice(h: History, d: Delta, estimate: nat, barrier: bool, r: nat)
    requires h.Valid() && d.fromRevision == h.current && d.toRevision == h.current + 1
    requires var next := Append(h, d, estimate, barrier).0; next.Valid() && next.Oldest() <= r < next.current
    ensures !barrier
    ensures var next := Append(h, d, estimate, barrier).0;
            if r == h.current then PriceAt(next, r) == estimate
            else h.Oldest() <= r < h.current && PriceAt(next, r) == PriceAt(h, r)
  {
  }

  /** Appending and pruning leave every retained entry its price and give the new one its
      own; a barrier leaves none. */
  lemma PricesCarry(h: History, d: Delta, estimate: nat, barrier: bool, low: nat, r: nat)
    requires h.Valid() && d.fromRevision == h.current && d.toRevision == h.current + 1
    requires Prune(Append(h, d, estimate, barrier).0, low).Valid()
    requires var next := Prune(Append(h, d, estimate, barrier).0, low); next.Oldest() <= r < next.current
    ensures var next := Prune(Append(h, d, estimate, barrier).0, low);
            && !barrier
            && (if r == h.current then PriceAt(next, r) == estimate
                else h.Oldest() <= r < h.current && PriceAt(next, r) == PriceAt(h, r))
  {
    AppendKeepsValid(h, d, estimate, barrier);
    var appended := Append(h, d, estimate, barrier).0;
    var k := DropPrefixIsSuffix(appended.entries, low);
    hide PriceAt, Append;
    SuffixPrice(appended, k, r);
    AppendPrice(h, d, estimate, barrier, r);
  }

  /** The estimate reported for accepted entries, from absolute costs only. */
  function ReportedBytes(entries: seq<Entry>): int
    requires entries != []
  {
    entries[|entries| - 1].cumulative - (entries[0].cumulative - entries[0].estimate)
  }

  /** Candidates strictly descend from the first one, which lies within history. */
  predicate Descending(h: History, from: nat, candidates: seq<nat>) {
    && (forall i :: 0 <= i < |candidates| ==> from < candidates[i])
    && (candidates != [] ==> candidates[0] <= h.current)
    && (forall i, j :: 0 <= i < j < |candidates| ==> candidates[j] < candidates[i])
  }

  /** The answer is the farthest candidate whose summed estimates the policy accepts,
      reported with that sum, and is withheld only if no candidate fits. */
  ghost predicate FarthestFit(h: History, from: nat, candidates: seq<nat>, fits: nat -> bool, r: Fitting)
    requires h.Valid() && h.Oldest() <= from && Descending(h, from, candidates) && candidates != []
  {
    && !r.FittingError?
    && (r.NoFitting? ==> forall c :: c in candidates ==> !fits(Cost(h, from, c)))
    && (r.Fitted? ==>
          && r.target in candidates && r.shortened == (r.target != candidates[0])
          && r.entries == Slice(h, from, r.target) && r.entries != []
          && fits(Cost(h, from, r.target)) && ReportedBytes(r.entries) == Cost(h, from, r.target)
          && forall c :: c in candidates && fits(Cost(h, from, c)) ==> c <= r.target)
  }

  /** A candidate is a retained atomic boundary and its price is its summed cost. */
  lemma Priced(h: History, from: nat, candidates: seq<nat>, i: nat)
    requires h.Valid() && h.Oldest() <= from < h.current && i < |candidates| && Descending(h, from, candidates)
    ensures var start := from - h.Oldest();
            var end := start + (candidates[i] - from - 1);
            && end < |h.entries| && h.entries[end].delta.toRevision == candidates[i]
            && h.entries[start].estimate <= h.entries[start].cumulative
            && h.entries[start..end + 1] == Slice(h, from, candidates[i])
            && ReportedBytes(h.entries[start..end + 1]) == Cost(h, from, candidates[i])
            && h.entries[end].cumulative - (h.entries[start].cumulative - h.entries[start].estimate) == Cost(h, from, candidates[i])
  {
    hide Sum;
    assert i > 0 ==> candidates[i] < candidates[0];
    var start := from - h.Oldest();
    CumulativeIsSum(h, start, start + (candidates[i] - from - 1));
  }

  lemma RejectedAll(h: History, from: nat, candidates: seq<nat>, fits: nat -> bool)
    requires h.Valid() && h.Oldest() <= from < h.current && candidates != [] && Descending(h, from, candidates)
    requires forall j :: 0 <= j < |candidates| ==> !fits(Cost(h, from, candidates[j]))
    ensures FarthestFit(h, from, candidates, fits, NoFitting)
  {
  }

  lemma AcceptedFits(h: History, from: nat, candidates: seq<nat>, fits: nat -> bool, i: nat)
    requires h.Valid() && h.Oldest() <= from < h.current && i < |candidates| && Descending(h, from, candidates)
    requires fits(Cost(h, from, candidates[i])) && forall c :: c in candidates && fits(Cost(h, from, c)) ==> c <= candidates[i]
    ensures var start := from - h.Oldest();
            var end := start + (candidates[i] - from - 1);
            end < |h.entries| &&
            FarthestFit(h, from, candidates, fits, Fitted(candidates[i], candidates[i] != candidates[0], h.entries[start..end + 1]))
  {
    Priced(h, from, candidates, i);
  }

  lemma Accepted(h: History, from: nat, candidates: seq<nat>, fits: nat -> bool, i: nat)
    requires h.Valid() && h.Oldest() <= from < h.current && i < |candidates| && Descending(h, from, candidates)
    requires forall j :: 0 <= j < i ==> !fits(Cost(h, from, candidates[j]))
    ensures forall c :: c in candidates && fits(Cost(h, from, c)) ==> c <= candidates[i]
  {
    forall c | c in candidates && fits(Cost(h, from, c))
      ensures c <= candidates[i]
    {
      var j :| 0 <= j < |candidates| && candidates[j] == c;
      assert j >= i;
    }
  }

  class GraphHistory {
    var current: nat
    var cumulative: nat
    var floor: nat
    var entries: seq<Entry>

    ghost function State(): History
      reads this
    {
      History(current, cumulative, floor, entries)
    }

    constructor ()
      ensures State() == History(0, 0, 0, []) && State().Valid()
    {
      current, cumulative, floor, entries := 0, 0, 0, [];
    }

    method AppendDelta(d: Delta, estimate: nat, barrier: bool) returns (outcome: AppendOutcome)
      requires State().Valid()
      requires current == d.fromRevision && d.toRevision == d.fromRevision + 1 ==> cumulative + estimate <= U64_MAX
      modifies this
      ensures (State(), outcome) == Append(old(State()), d, estimate, barrier) && State().Valid()
    {
      AppendKeepsValid(State(), d, estimate, barrier);
      if current != d.fromRevision {
        return AppendMismatch;
      }
      if d.toRevision != d.fromRevision + 1 {
        return NonAtomic;
      }
      var total := cumulative + estimate;
      if barrier {
        entries := [];
        floor := d.toRevision;
      } else {
        entries := entries + [Entry(d, estimate, total)];
      }
      current := d.toRevision;
      cumulative := total;
      outcome := Appended;
    }

    method PruneBelow(low: nat)
      requires State().Valid()
      modifies this`entries
      ensures State() == Prune(old(State()), low) && State().Valid()
    {
      PruneKeepsValid(State(), low);
      while entries != [] && entries[0].delta.headLevel < low
        invariant DropPrefix(entries, low) == DropPrefix(old(entries), low)
        decreases |entries|
      {
        entries := entries[1..];
      }
    }

    /** Locates an exact retained left boundary by binary search. */
    method FindBoundaryIndex(revision: nat) returns (index: Option<nat>)
      requires State().Valid()
      ensures index == if State().Oldest() <= revision < current then Some(revision - State().Oldest()) else None
    {
      var low, high := 0, |entries|;
      while low < high
        invariant 0 <= low <= high <= |entries|
        invariant State().Oldest() <= revision < current ==> low <= revision - State().Oldest() < high
      {
        var middle := low + (high - low) / 2;
        var from := entries[middle].delta.fromRevision;
        if from < revision {
          low := middle + 1;
        } else if from > revision {
          high := middle;
        } else {
          return Some(middle);
        }
      }
      index := None;
    }

    method OldestAvailable() returns (oldest: nat)
      requires State().Valid()
      ensures oldest == State().Oldest()
    {
      oldest := if entries == [] then current else entries[0].delta.fromRevision;
    }

    /** Captures the entries needed to reach a target revision. */
    method RangeTo(from: nat, target: nat) returns (r: Range)
      requires State().Valid()
      ensures r == RangeOf(State(), from, target)
    {
      if target < from { return BackwardTarget; }
      if target == from { return UpToDate(from); }
      if from < floor { return BeforeReplayFloor(floor); }
      var oldest := OldestAvailable();
      if from < oldest { return StartPruned(oldest); }
      if from == current { return UpToDate(from); }
      var start := FindBoundaryIndex(from);
      if start.None? { return StartUnavailable(current); }
      var selected := [];
      var actual := from;
      var i := start.value;
      while i < |entries|
        invariant start.value <= i <= |entries|
        invariant selected == entries[start.value..i] && actual == oldest + i && (i > start.value ==> actual < target)
        invariant actual <= target
      {
        actual := entries[i].delta.toRevision;
        selected := selected + [entries[i]];
        i := i + 1;
        if actual == target { break; }
      }
      r := Deltas(from, target, actual, selected);
    }

    /** Offers the candidates to the policy from farthest to nearest, pricing each by
        absolute costs. */
    method OfferTargets(from: nat, candidates: seq<nat>, fits: nat -> bool, start: nat) returns (r: Fitting)
      requires State().Valid() && candidates != [] && Descending(State(), from, candidates)
      requires State().Oldest() <= from < current && start == from - State().Oldest()
      ensures FarthestFit(State(), from, candidates, fits, r)
    {
      hide Cost, FarthestFit, Slice, ReportedBytes;
      ghost var h := State();
      Priced(h, from, candidates, 0);
      var left := entries[start].cumulative - entries[start].estimate;
      for i := 0 to |candidates|
        invariant forall j :: 0 <= j < i ==> !fits(Cost(h, from, candidates[j]))
      {
        var end := start + (candidates[i] - from - 1);
        Priced(h, from, candidates, i);
        if fits(entries[end].cumulative - left) {
          Accepted(h, from, candidates, fits, i);
          AcceptedFits(h, from, candidates, fits, i);
          return Fitted(candidates[i], candidates[i] != candidates[0], entries[start..end + 1]);
        }
      }
      r := NoFitting;
      RejectedAll(h, from, candidates, fits);
    }

    /** Selects the first candidate whose estimate the policy accepts. */
    method FittingRange(from: nat, candidates: seq<nat>, fits: nat -> bool) returns (r: Fitting)
      requires State().Valid()
      requires candidates != [] && RangeOf(State(), from, candidates[0]).Deltas? ==> Descending(State(), from, candidates)
      ensures candidates == [] ==> r == NoFitting
      ensures candidates != [] ==>
                match RangeOf(State(), from, candidates[0])
                case UpToDate(_) => r == NoFitting
                case Deltas(_, _, _, _) => FarthestFit(State(), from, candidates, fits, r)
                case reason => r == FittingError(reason)
    {
      hide FarthestFit, Slice;
      if candidates == [] { return NoFitting; }
      var requested := candidates[0];
      if requested < from { return FittingError(BackwardTarget); }
      if requested == from { return NoFitting; }
      if from < floor { return FittingError(BeforeReplayFloor(floor)); }
      var oldest := OldestAvailable();
      if from < oldest { return FittingError(StartPruned(oldest)); }
      if from == current { return NoFitting; }
      var start := FindBoundaryIndex(from);
      if start.None? { return FittingError(StartUnavailable(current)); }
      r := OfferTargets(from, candidates, fits, start.value);
    }
  }
}
