/** One publication over its whole life: a Head view that mutates, the history of its
    deltas, and what a client replaying a selected range reaches. */
module Lineage {
  import opened Maps
  import opened Graph
  import opened Core
  import opened ReplayLaws
  import opened Compose
  import opened History

  // ----- Emitted deltas are lineage intervals ------------------------------------------

  datatype Update = BlockUpdate(block: BlockCommitted) | VspcUpdate(vspc: VspcCommitted)

  function Emit(c: Core, u: Update, timestamp: nat): (Core, Option<Delta>)
    requires c.Shaped()
  {
    match u
    case BlockUpdate(b) => HeadCommit(c, b, timestamp)
    case VspcUpdate(v) => HeadVspc(c, v, timestamp)
  }

  ghost predicate Settled(p: Point) {
    HeadWindow(p.core) && p.core.blocks.Keys <= p.seen
  }

  /** Storage commits a block hash once. */
  predicate Welcome(p: Point, u: Update) {
    u.BlockUpdate? ==> Stored(p.core, u.block) && u.block.hash !in p.seen
  }

  function After(p: Point, c: Core, d: Delta): Point {
    Point(c, p.seen + d.blocks.Keys)
  }

  lemma CommittedBlock(p: Point, b: BlockCommitted, timestamp: nat, h: BlockHash)
    requires Settled(p) && Welcome(p, BlockUpdate(b))
    ensures var after := HeadGraph(p.core, b); Get(after.blocks, h) == WindowBlock(p.core, b, after.extent, h)
  {
    HeadCommitKeepsWindow(p.core, b, timestamp);
    hide HeadWindow, Stored, HeadGraph, WindowBlock;
  }

  lemma CommitBlockLinked(p: Point, b: BlockCommitted, timestamp: nat, h: BlockHash)
    requires Settled(p) && Welcome(p, BlockUpdate(b))
    ensures var (c, d) := HeadCommit(p.core, b, timestamp);
            d.Some? ==> BlockLinked(p, d.value, After(p, c, d.value), h)
  {
    CommittedBlock(p, b, timestamp, h);
    hide HeadWindow, Stored, HeadGraph, EdgeMap, LevelDiff;
    var after := HeadGraph(p.core, b);
    assert h in Diff(p.core.blocks, after.blocks) <==> Get(p.core.blocks, h) != Get(after.blocks, h);
  }

  lemma HeadCommitLinks(p: Point, b: BlockCommitted, timestamp: nat)
    requires Settled(p) && Welcome(p, BlockUpdate(b))
    ensures var (c, d) := HeadCommit(p.core, b, timestamp);
            if d.Some? then Link(p, d.value, After(p, c, d.value)) && Settled(After(p, c, d.value)) && d.value.headLevel == c.extent.high
            else c == p.core
  {
    StoredIsAdmissible(p.core, b);
    HeadCommitReplays(p.core, b, timestamp);
    HeadCommitKeepsWindow(p.core, b, timestamp);
    var (c, d) := HeadCommit(p.core, b, timestamp);
    if d.Some? {
      forall h
        ensures BlockLinked(p, d.value, After(p, c, d.value), h)
      {
        CommitBlockLinked(p, b, timestamp, h);
      }
      assert d.value == BlockDelta(p.core, HeadGraph(p.core, b), timestamp);
      assert c.blocks.Keys <= After(p, c, d.value).seen by {
        forall h | h in c.blocks
          ensures h in After(p, c, d.value).seen
        {
          assert BlockLinked(p, d.value, After(p, c, d.value), h);
        }
      }
    }
  }

  lemma VspcBlockLinked(p: Point, v: VspcCommitted, timestamp: nat, h: BlockHash)
    requires Settled(p)
    ensures var (c, d) := HeadVspc(p.core, v, timestamp);
            d.Some? ==> BlockLinked(p, d.value, After(p, c, d.value), h)
  {
    hide Rescored, Recolor, HeadMetadata, LevelDiff;
  }

  lemma HeadVspcLinks(p: Point, v: VspcCommitted, timestamp: nat)
    requires Settled(p)
    ensures var (c, d) := HeadVspc(p.core, v, timestamp);
            if d.Some? then Link(p, d.value, After(p, c, d.value)) && Settled(After(p, c, d.value)) && d.value.headLevel == c.extent.high
            else c == p.core
  {
    HeadVspcReplays(p.core, v, timestamp);
    HeadVspcKeepsWindow(p.core, v, timestamp);
    var (c, d) := HeadVspc(p.core, v, timestamp);
    if d.Some? {
      forall h
        ensures BlockLinked(p, d.value, After(p, c, d.value), h)
      {
        VspcBlockLinked(p, v, timestamp, h);
      }
    }
  }

  // ----- Chains of intervals ----------------------------------------------------------

  ghost predicate Chain(points: seq<Point>, ds: seq<Delta>) {
    && |points| == |ds| + 1
    && forall i :: 0 <= i < |ds| ==> Link(points[i], ds[i], points[i + 1])
  }

  function ReplayAll(c: Core, ds: seq<Delta>): (r: Core)
    requires 1 <= c.maxDepth
    ensures r.maxDepth == c.maxDepth
  {
    if ds == [] then c else Replay(ReplayAll(c, ds[..|ds| - 1]), ds[|ds| - 1])
  }

  function JoinAll(ds: seq<Delta>): Delta
    requires ds != []
  {
    if |ds| == 1 then ds[0] else Joined(JoinAll(ds[..|ds| - 1]), ds[|ds| - 1])
  }

  /** Replaying a chain one interval at a time reaches its last point. */
  lemma {:induction false} ChainReplays(points: seq<Point>, ds: seq<Delta>)
    requires Chain(points, ds) && points[0].core.Shaped()
    ensures ReplayAll(points[0].core, ds) == points[|ds|].core
  {
    if ds != [] {
      var n := |ds| - 1;
      assert Chain(points[..n + 1], ds[..n]);
      ChainReplays(points[..n + 1], ds[..n]);
      LinkReplays(points[n], ds[n], points[n + 1]);
    }
  }

  /** One composed interval stands for a whole chain. */
  lemma {:induction false} ChainComposes(points: seq<Point>, ds: seq<Delta>)
    requires Chain(points, ds) && ds != []
    ensures Link(points[0], JoinAll(ds), points[|ds|])
  {
    var n := |ds| - 1;
    if n > 0 {
      assert Chain(points[..n + 1], ds[..n]);
      ChainComposes(points[..n + 1], ds[..n]);
      ComposedLink(points[0], JoinAll(ds[..n]), points[n], ds[n], points[n + 1]);
    }
  }

  lemma ChainSlice(points: seq<Point>, ds: seq<Delta>, i: nat, j: nat)
    requires Chain(points, ds) && i <= j <= |ds|
    ensures Chain(points[i..j + 1], ds[i..j])
  {
    hide Link;
    forall x | 0 <= x < j - i
      ensures Link(points[i..j + 1][x], ds[i..j][x], points[i..j + 1][x + 1])
    {
      assert Link(points[i + x], ds[i + x], points[i + x + 1]);
    }
  }

  /** The composition of any stretch of a chain relates the stretch's two ends. */
  lemma ChainSpans(points: seq<Point>, ds: seq<Delta>, i: nat, j: nat)
    requires Chain(points, ds) && i < j <= |ds|
    ensures Related(points[i], JoinAll(ds[i..j]), points[j])
  {
    hide Chain, Link, Related, JoinAll;
    assert |points| == |ds| + 1 by { ChainSize(points, ds); }
    ChainSlice(points, ds, i, j);
    ChainComposes(points[i..j + 1], ds[i..j]);
    LinkRelates(points[i], JoinAll(ds[i..j]), points[j]);
  }

  lemma ChainSize(points: seq<Point>, ds: seq<Delta>)
    requires Chain(points, ds)
    ensures |points| == |ds| + 1
  {
  }

  lemma LinkRelates(pre: Point, d: Delta, post: Point)
    requires Link(pre, d, post)
    ensures Related(pre, d, post)
  {
  }

  /** How a chain is bracketed does not change its composition. */
  lemma {:induction false} ChainBrackets(points: seq<Point>, ds: seq<Delta>, k: nat)
    requires Chain(points, ds) && 0 < k < |ds|
    ensures JoinAll(ds) == Joined(JoinAll(ds[..k]), JoinAll(ds[k..]))
  {
    hide Link, Joined, Related;
    var n := |ds| - 1;
    if k == n {
      assert ds[k..] == [ds[n]];
    } else {
      assert Chain(points[..n + 1], ds[..n]);
      ChainBrackets(points[..n + 1], ds[..n], k);
      assert ds[..n][..k] == ds[..k] && ds[..n][k..] == ds[k..n];
      assert ds[k..][..|ds[k..]| - 1] == ds[k..n];
      ChainSpans(points, ds, 0, k);
      ChainSpans(points, ds, k, n);
      ChainSpans(points, ds, n, n + 1);
      assert ds[0..k] == ds[..k] && ds[n..n + 1] == [ds[n]];
      ComposeAssociative(points[0], JoinAll(ds[..k]), points[k], JoinAll(ds[k..n]), points[n], ds[n], points[n + 1]);
    }
  }

  // ----- The publication as a state machine ---------------------------------------------

  /** Every view state by revision, every emitted delta, and the retained history. */
  datatype Publication = Publication(trace: seq<Point>, log: seq<Delta>, history: History)
  {
    function Last(): Point requires trace != [] { trace[|trace| - 1] }
  }

  datatype Event = Event(update: Update, timestamp: nat, estimate: nat, barrier: bool)

  /** One original update: the view changes, and only a visible change is appended to
      history, which is then pruned at the new window. */
  function Step(p: Publication, e: Event): Publication
    requires p.trace != [] && p.Last().core.Shaped()
  {
    var (c, d) := Emit(p.Last().core, e.update, e.timestamp);
    if d.None? then p
    else Publication(p.trace + [After(p.Last(), c, d.value)], p.log + [d.value],
                     Prune(Append(p.history, d.value, e.estimate, e.barrier).0, c.extent.low))
  }

  ghost predicate Monotone(trace: seq<Point>) {
    forall r, s :: 0 <= r <= s < |trace| ==>
      trace[r].core.extent.low <= trace[s].core.extent.low && trace[r].core.extent.high <= trace[s].core.extent.high
  }

  /** Retained entries are the log's tail, cut exactly where the replay floor or the
      current window cuts it. */
  ghost predicate Retention(log: seq<Delta>, h: History, low: nat) {
    && h.Valid() && h.current == |log|
    && (forall i :: 0 <= i < |h.entries| ==> h.entries[i].delta == log[h.Oldest() + i])
    && (forall r :: h.floor <= r < |log| ==> (h.Oldest() <= r <==> log[r].headLevel >= low))
  }

  ghost predicate Traced(trace: seq<Point>, log: seq<Delta>) {
    && Chain(trace, log)
    && (forall r :: 0 <= r < |trace| ==> Settled(trace[r]) && trace[r].core.revision == r)
    && (forall r :: 0 <= r < |log| ==> log[r].headLevel == trace[r + 1].core.extent.high)
    && Monotone(trace)
  }

  ghost predicate Inv(p: Publication) {
    && |p.trace| == |p.log| + 1
    && Traced(p.trace, p.log)
    && Retention(p.log, p.history, p.Last().core.extent.low)
  }

  function Start(c: Core, seen: set<BlockHash>): Publication {
    Publication([Point(c, seen)], [], History(0, 0, 0, []))
  }

  lemma StartInv(c: Core, seen: set<BlockHash>)
    requires HeadWindow(c) && c.revision == 0 && c.blocks.Keys <= seen
    ensures Inv(Start(c, seen))
  {
  }

  lemma EmitAdvances(p: Point, u: Update, timestamp: nat)
    requires Settled(p) && Welcome(p, u)
    ensures var (c, d) := Emit(p.core, u, timestamp);
            if d.None? then c == p.core
            else
              && Link(p, d.value, After(p, c, d.value)) && Settled(After(p, c, d.value))
              && d.value.headLevel == c.extent.high && d.value.toRevision == p.core.revision + 1 == c.revision
              && c.extent.low >= p.core.extent.low && c.extent.high >= p.core.extent.high
  {
    match u
    case BlockUpdate(b) =>
      HeadCommitLinks(p, b, timestamp);
      HeadCommitKeepsWindow(p.core, b, timestamp);
    case VspcUpdate(v) =>
      HeadVspcLinks(p, v, timestamp);
  }

  lemma AppendRetention(log: seq<Delta>, h: History, low: nat, d: Delta, estimate: nat, barrier: bool)
    requires Retention(log, h, low) && low <= d.headLevel
    requires d.fromRevision == |log| && d.toRevision == |log| + 1
    ensures Retention(log + [d], Append(h, d, estimate, barrier).0, low)
  {
    AppendKeepsValid(h, d, estimate, barrier);
  }

  /** Head levels never fall, so a pruned prefix is exactly what lies below the window. */
  lemma PrunedAt(log: seq<Delta>, h: History, low: nat, newLow: nat, k: nat, r: nat)
    requires Retention(log, h, low) && low <= newLow && k <= |h.entries| && h.floor <= r < |log|
    requires forall r, s :: 0 <= r <= s < |log| ==> log[r].headLevel <= log[s].headLevel
    requires forall i :: 0 <= i < k ==> h.entries[i].delta.headLevel < newLow
    requires k < |h.entries| ==> h.entries[k].delta.headLevel >= newLow
    ensures h.Oldest() + k <= r <==> log[r].headLevel >= newLow
  {
    if h.Oldest() <= r < h.Oldest() + k {
      assert h.entries[r - h.Oldest()].delta == log[r];
    } else if h.Oldest() + k <= r {
      assert h.entries[k].delta == log[h.Oldest() + k];
    }
  }

  lemma PruneRetention(log: seq<Delta>, h: History, low: nat, newLow: nat)
    requires Retention(log, h, low) && low <= newLow
    requires forall r, s :: 0 <= r <= s < |log| ==> log[r].headLevel <= log[s].headLevel
    ensures Retention(log, Prune(h, newLow), newLow)
  {
    PruneKeepsValid(h, newLow);
    var k := DropPrefixIsSuffix(h.entries, newLow);
    var pruned := Prune(h, newLow);
    assert pruned.Oldest() == h.Oldest() + k;
    forall r | pruned.floor <= r < |log|
      ensures pruned.Oldest() <= r <==> log[r].headLevel >= newLow
    {
      PrunedAt(log, h, low, newLow, k, r);
    }
  }

  lemma RetentionStep(log: seq<Delta>, h: History, low: nat, d: Delta, estimate: nat, barrier: bool, newLow: nat)
    requires Retention(log, h, low) && low <= newLow <= d.headLevel
    requires d.fromRevision == |log| && d.toRevision == |log| + 1
    requires forall r, s :: 0 <= r <= s < |log| ==> log[r].headLevel <= log[s].headLevel
    requires log != [] ==> log[|log| - 1].headLevel <= d.headLevel
    ensures Retention(log + [d], Prune(Append(h, d, estimate, barrier).0, newLow), newLow)
  {
    hide Retention;
    AppendRetention(log, h, low, d, estimate, barrier);
    PruneRetention(log + [d], Append(h, d, estimate, barrier).0, low, newLow);
  }

  lemma TraceExtends(trace: seq<Point>, log: seq<Delta>, d: Delta, next: Point)
    requires Traced(trace, log) && Link(trace[|log|], d, next) && Settled(next)
    requires next.core.revision == |log| + 1 && d.headLevel == next.core.extent.high
    requires trace[|log|].core.extent.low <= next.core.extent.low && trace[|log|].core.extent.high <= next.core.extent.high
    ensures Traced(trace + [next], log + [d])
    ensures forall r, s :: 0 <= r <= s < |log| ==> log[r].headLevel <= log[s].headLevel
    ensures log != [] ==> log[|log| - 1].headLevel <= d.headLevel
  {
    hide Link, Settled;
    forall r, s | 0 <= r <= s < |log|
      ensures log[r].headLevel <= log[s].headLevel
    {
      assert log[r].headLevel == trace[r + 1].core.extent.high && log[s].headLevel == trace[s + 1].core.extent.high;
    }
  }

  /** Every original update keeps the publication invariant. */
  lemma StepKeepsInv(p: Publication, e: Event)
    requires Inv(p) && Welcome(p.Last(), e.update)
    ensures Inv(Step(p, e))
  {
    var last := p.Last();
    assert Settled(last) && last.core.revision == |p.log|;
    EmitAdvances(last, e.update, e.timestamp);
    var (c, d) := Emit(last.core, e.update, e.timestamp);
    if d.Some? {
      var next := After(last, c, d.value);
      LinkRevision(last, d.value, next);
      WindowOrdered(next);
      hide Link, Settled, Retention, Append, Prune, Emit, Traced;
      TraceExtends(p.trace, p.log, d.value, next);
      RetentionStep(p.log, p.history, last.core.extent.low, d.value, e.estimate, e.barrier, c.extent.low);
    }
  }

  lemma WindowOrdered(p: Point)
    requires Settled(p)
    ensures p.core.extent.low <= p.core.extent.high
  {
  }

  lemma LinkRevision(a: Point, d: Delta, b: Point)
    requires Link(a, d, b)
    ensures d.fromRevision == a.core.revision
  {
  }

  /** A run of original updates, each welcome when it arrives. */
  ghost predicate Runs(p: Publication, events: seq<Event>)
    requires Inv(p)
    decreases |events|
  {
    events == [] ||
    (Welcome(p.Last(), events[0].update) && (StepKeepsInv(p, events[0]); Runs(Step(p, events[0]), events[1..])))
  }

  ghost function RunAll(p: Publication, events: seq<Event>): (q: Publication)
    requires Inv(p) && Runs(p, events)
    ensures Inv(q)
    decreases |events|
  {
    if events == [] then p else (StepKeepsInv(p, events[0]); RunAll(Step(p, events[0]), events[1..]))
  }

  /** After every run, a requested range either names the exact reason it cannot be
      served or carries entries whose replay, one by one or composed, takes the view
      at the source to the view at the nearer of the target and the current revision. */
  lemma EndToEnd(start: Publication, events: seq<Event>, from: nat, target: nat)
    requires Inv(start) && Runs(start, events)
    ensures RangeSound(RunAll(start, events), from, target)
  {
    RangeIsSound(RunAll(start, events), from, target);
  }

  ghost predicate RangeSound(p: Publication, from: nat, target: nat)
    requires Inv(p)
  {
    var current := |p.log|;
    var low := p.Last().core.extent.low;
    match RangeOf(p.history, from, target)
    case BackwardTarget => target < from
    case BeforeReplayFloor(floor) => from < target && from < floor <= current && floor == p.history.floor
    case StartPruned(oldest) =>
      && p.history.floor <= from < target && from < current && p.log[from].headLevel < low
      && p.history.floor <= oldest <= current
      && forall r :: p.history.floor <= r < current ==> (oldest <= r <==> p.log[r].headLevel >= low)
    case StartUnavailable(at) => current < from < target && at == current
    case UpToDate(r) => r == from && (from == target || (from == current < target))
    case Deltas(source, requested, actual, entries) =>
      && source == from && requested == target && actual == Min(target, current)
      && p.history.floor <= from < actual <= current && p.log[from].headLevel >= low
      && Served(entries) == p.log[from..actual]
      && ReplayAll(p.trace[from].core, Served(entries)) == p.trace[actual].core
      && Replay(p.trace[from].core, JoinAll(Served(entries))) == p.trace[actual].core
  }

  function Served(entries: seq<Entry>): seq<Delta> {
    seq(|entries|, i requires 0 <= i < |entries| => entries[i].delta)
  }

  lemma ServedReplays(trace: seq<Point>, log: seq<Delta>, from: nat, to: nat)
    requires Traced(trace, log) && from < to <= |log|
    ensures trace[from].core.Shaped()
    ensures ReplayAll(trace[from].core, log[from..to]) == trace[to].core
    ensures Replay(trace[from].core, JoinAll(log[from..to])) == trace[to].core
  {
    hide Link, Settled, Replay, JoinAll, ReplayAll;
    var points := trace[from..to + 1];
    var ds := log[from..to];
    ShapedPoint(trace[from]);
    assert Chain(points, ds);
    ChainReplays(points, ds);
    ChainComposes(points, ds);
    LinkReplays(points[0], JoinAll(ds), points[|ds|]);
  }

  /** The entries a range carries are the log between its boundaries. */
  lemma RangeServes(log: seq<Delta>, h: History, low: nat, from: nat, target: nat)
    requires Retention(log, h, low)
    ensures var r := RangeOf(h, from, target);
            && (r.Deltas? ==> h.floor <= from < r.actual <= |log| && Served(r.entries) == log[from..r.actual] && log[from].headLevel >= low)
            && (r.StartPruned? ==> from < |log| && log[from].headLevel < low)
  {
    var r := RangeOf(h, from, target);
    if r.Deltas? {
      assert |Served(r.entries)| == |log[from..r.actual]|;
      forall i | 0 <= i < |r.entries|
        ensures Served(r.entries)[i] == log[from..r.actual][i]
      {
        assert h.entries[from - h.Oldest() + i].delta == log[from + i];
      }
    }
  }

  lemma RangeIsSound(p: Publication, from: nat, target: nat)
    requires Inv(p)
    ensures RangeSound(p, from, target)
  {
    hide Traced, Replay, JoinAll, ReplayAll, Served, Slice;
    var r := RangeOf(p.history, from, target);
    RangeServes(p.log, p.history, p.Last().core.extent.low, from, target);
    if r.Deltas? {
      ServedReplays(p.trace, p.log, from, r.actual);
    }
  }

  lemma ShapedPoint(p: Point)
    requires Settled(p)
    ensures p.core.Shaped()
  {
  }

  // ----- Runs told by their events ---------------------------------------------------

  /** One event moves the view as the mutator it names does, and is logged exactly when
      that changed a block, an edge or a level. */
  lemma StepFollows(p: Publication, e: Event)
    requires Inv(p) && Welcome(p.Last(), e.update)
    ensures var q, before := Step(p, e), p.Last().core;
            && q.trace != []
            && q.Last().core == (match e.update
                                 case BlockUpdate(b) => HeadCommit(before, b, e.timestamp).0
                                 case VspcUpdate(v) => HeadVspc(before, v, e.timestamp).0)
            && |q.log| == |p.log| + (if q.Last().core.SameGraph(before) then 0 else 1)
            && (|q.log| > |p.log| ==> q.log[|p.log|].timestamp == e.timestamp)
  {
    assert Settled(p.Last());
    EmitAdvances(p.Last(), e.update, e.timestamp);
    match e.update
    case BlockUpdate(b) => CommitSilence(p.Last(), b, e.timestamp);
    case VspcUpdate(v) => VspcSilence(p.Last(), v, e.timestamp);
  }

  lemma CommitSilence(p: Point, b: BlockCommitted, timestamp: nat)
    requires Settled(p) && Welcome(p, BlockUpdate(b))
    ensures var (c, d) := HeadCommit(p.core, b, timestamp);
            && (d.None? <==> c.SameGraph(p.core)) && (d.Some? ==> d.value.timestamp == timestamp)
  {
    BlockDeltaReplays(p.core, HeadGraph(p.core, b), timestamp);
    hide HeadWindow, Stored, Pruned, Projected, Replay, Diff, LevelDiff;
  }

  lemma VspcSilence(p: Point, v: VspcCommitted, timestamp: nat)
    requires Settled(p)
    ensures var (c, d) := HeadVspc(p.core, v, timestamp);
            && (d.None? <==> c.SameGraph(p.core)) && (d.Some? ==> d.value.timestamp == timestamp)
  {
    var graph := VspcGraph(p.core, v, HeadMetadata(p.core.blocks, v.added));
    FieldDeltaReplays(p.core, graph, timestamp);
    hide HeadWindow, Replay, LevelDiff, VspcDiff, ColorDiff, HeadMetadata, Recolor, Rescored;
  }

  /** The events of a run that changed the graph, in order; the one at `i` produced the
      revision `i + 1` beyond the start. */
  ghost function Emitted(p: Publication, events: seq<Event>): seq<Event>
    requires Inv(p) && Runs(p, events)
    decreases |events|
  {
    if events == [] then []
    else
      StepKeepsInv(p, events[0]);
      var next := Step(p, events[0]);
      (if next.Last().core.SameGraph(p.Last().core) then [] else [events[0]]) + Emitted(next, events[1..])
  }

  predicate LastBarrier(es: seq<Event>, i: nat) {
    i < |es| && es[i].barrier && forall j :: i < j < |es| ==> !es[j].barrier
  }

  function Estimates(es: seq<Event>): nat {
    if es == [] then 0 else es[0].estimate + Estimates(es[1..])
  }

  /** What a run did to its history, told by its emitted events: one revision each, the floor
      at the last barrier's revision, and every emitted byte counted. */
  ghost predicate Told(h: History, es: seq<Event>, g: History) {
    && g.current == h.current + |es|
    && (forall i: nat :: LastBarrier(es, i) ==> g.floor == h.current + i + 1)
    && ((forall i: nat :: !LastBarrier(es, i)) ==> g.floor == h.floor)
    && g.cumulative == h.cumulative + Estimates(es)
  }

  /** An entry retained after a run carries the estimate of the event that produced it, and
      one retained throughout keeps its own. */
  predicate PricedAt(h: History, es: seq<Event>, g: History, r: nat)
    requires h.Valid() && g.Valid() && g.current == h.current + |es|
  {
    g.Oldest() <= r < g.current ==>
      if r >= h.current then PriceAt(g, r) == es[r - h.current].estimate
      else h.Oldest() <= r && PriceAt(g, r) == PriceAt(h, r)
  }

  ghost predicate PricedBy(h: History, es: seq<Event>, g: History) {
    h.Valid() && g.Valid() && g.current == h.current + |es| && forall r: nat :: PricedAt(h, es, g, r)
  }

  /** The log grows by one delta for each emitted event, with that event's timestamp. */
  predicate Stamped(log: seq<Delta>, es: seq<Event>, longer: seq<Delta>) {
    && log <= longer && |longer| == |log| + |es|
    && forall i :: 0 <= i < |es| ==> longer[|log| + i].timestamp == es[i].timestamp
  }

  lemma StepHistory(p: Publication, e: Event)
    requires Inv(p) && Welcome(p.Last(), e.update)
    ensures var q := Step(p, e);
            && |p.log| <= |q.log|
            && (|q.log| == |p.log| ==> q == p)
            && (|q.log| > |p.log| ==>
                && |q.log| == |p.log| + 1 && q.trace != []
                && var d := q.log[|p.log|];
                && d.fromRevision == |p.log| && d.toRevision == |p.log| + 1
                && q.history == Prune(Append(p.history, d, e.estimate, e.barrier).0, q.Last().core.extent.low))
  {
    var last := p.Last();
    assert Settled(last) && last.core.revision == |p.log|;
    EmitAdvances(last, e.update, e.timestamp);
    var (c, d) := Emit(last.core, e.update, e.timestamp);
    if d.Some? {
      LinkRevision(last, d.value, After(last, c, d.value));
      hide Link, Settled, Emit, Traced, Chain, Append, Prune;
    }
  }

  lemma RetainedAt(p: Publication)
    requires Inv(p)
    ensures p.history.Valid() && p.history.current == |p.log| && |p.trace| == |p.log| + 1
  {
  }

  lemma StepLogged(p: Publication, e: Event)
    requires Inv(p) && Welcome(p.Last(), e.update)
    ensures Step(p, e).trace != []
    ensures var q := Step(p, e);
            if q.Last().core.SameGraph(p.Last().core) then q == p
            else
              && |q.log| == |p.log| + 1
              && var d := q.log[|p.log|];
              && d.fromRevision == p.history.current && d.toRevision == p.history.current + 1
              && q.history == Prune(Append(p.history, d, e.estimate, e.barrier).0, q.Last().core.extent.low)
              && Stamped(p.log, [e], q.log)
  {
    StepFollows(p, e);
    StepHistory(p, e);
    RetainedAt(p);
    assert p.log <= Step(p, e).log;
    hide Inv, HeadCommit, HeadVspc, Append, Prune, Step, Core.SameGraph;
  }

  /** A step of a run, told by its event. */
  lemma StepTold(p: Publication, e: Event)
    requires Inv(p) && Welcome(p.Last(), e.update)
    ensures Step(p, e).trace != []
    ensures var q := Step(p, e);
            var es := if q.Last().core.SameGraph(p.Last().core) then [] else [e];
            && Told(p.history, es, q.history) && PricedBy(p.history, es, q.history) && Stamped(p.log, es, q.log)
            && (es == [] ==> q == p)
  {
    StepLogged(p, e);
    RetainedAt(p);
    var q := Step(p, e);
    NothingTold(p.history);
    if !q.Last().core.SameGraph(p.Last().core) {
      hide *;
      AppendTold(p.history, q.log[|p.log|], e, q.Last().core.extent.low);
      AppendPriced(p.history, q.log[|p.log|], e, q.Last().core.extent.low);
    } else {
      hide Inv, Step, Told, PricedBy, Core.SameGraph;
    }
  }

  lemma StepBarrier(e: Event)
    ensures forall i: nat :: LastBarrier([e], i) <==> i == 0 && e.barrier
    ensures Estimates([e]) == e.estimate
  {
  }

  lemma NothingTold(h: History)
    requires h.Valid()
    ensures Told(h, [], h) && PricedBy(h, [], h)
  {
    assert forall i: nat :: !LastBarrier([], i);
  }

  lemma AppendTold(h: History, d: Delta, e: Event, low: nat)
    requires h.Valid() && d.fromRevision == h.current && d.toRevision == h.current + 1
    ensures Told(h, [e], Prune(Append(h, d, e.estimate, e.barrier).0, low))
  {
    StepBarrier(e);
    assert e.barrier ==> LastBarrier([e], 0);
  }

  lemma AppendPriced(h: History, d: Delta, e: Event, low: nat)
    requires h.Valid() && d.fromRevision == h.current && d.toRevision == h.current + 1
    ensures PricedBy(h, [e], Prune(Append(h, d, e.estimate, e.barrier).0, low))
  {
    AppendKeepsValid(h, d, e.estimate, e.barrier);
    var appended := Append(h, d, e.estimate, e.barrier).0;
    PruneKeepsValid(appended, low);
    var g := Prune(appended, low);
    forall r: nat ensures PricedAt(h, [e], g, r) {
      if g.Oldest() <= r < g.current {
        PricesCarry(h, d, e.estimate, e.barrier, low, r);
      }
      hide PriceAt, Append, Prune;
    }
  }

  lemma {:induction false} LastBarrierFirst(e: Event, es: seq<Event>, i: nat)
    ensures LastBarrier([e] + es, i) <==>
            if i == 0 then e.barrier && forall j: nat :: !LastBarrier(es, j) else LastBarrier(es, i - 1)
  {
    var all := [e] + es;
    if i == 0 {
      if e.barrier && forall j: nat :: !LastBarrier(es, j) {
        forall j | 0 < j < |all| ensures !all[j].barrier {
          if all[j].barrier {
            var k := AnyLastBarrier(es, j - 1);
          }
        }
      } else if k: nat :| LastBarrier(es, k) {
        assert all[k + 1].barrier;
      }
    } else if i - 1 < |es| {
      assert forall j :: i < j < |all| ==> all[j] == es[j - 1];
      assert forall j :: i - 1 < j < |es| ==> es[j] == all[j + 1];
    }
  }

  lemma {:induction false} AnyLastBarrier(es: seq<Event>, j: nat) returns (k: nat)
    requires j < |es| && es[j].barrier
    ensures LastBarrier(es, k) && j <= k
    decreases |es| - j
  {
    if i :| j < i < |es| && es[i].barrier {
      k := AnyLastBarrier(es, i);
    } else {
      k := j;
    }
  }

  lemma ToldFirst(h: History, e: Event, g: History, es: seq<Event>, k: History)
    requires Told(h, [e], g) && Told(g, es, k)
    ensures Told(h, [e] + es, k)
  {
    var all := [e] + es;
    StepBarrier(e);
    forall i: nat ensures LastBarrier(all, i) <==>
                          if i == 0 then e.barrier && forall j: nat :: !LastBarrier(es, j) else LastBarrier(es, i - 1)
    {
      LastBarrierFirst(e, es, i);
    }
    assert all[1..] == es;
    hide LastBarrier;
    if forall j: nat :: !LastBarrier(es, j) {
      assert e.barrier <==> LastBarrier(all, 0);
      assert LastBarrier([e], 0) <==> e.barrier;
    } else {
      var j: nat :| LastBarrier(es, j);
      assert LastBarrier(all, j + 1);
    }
  }

  lemma PricedFirst(h: History, first: seq<Event>, g: History, es: seq<Event>, k: History)
    requires PricedBy(h, first, g) && PricedBy(g, es, k)
    ensures PricedBy(h, first + es, k)
  {
    hide PriceAt;
    forall r: nat ensures PricedAt(h, first + es, k, r) {
      assert PricedAt(h, first, g, r) && PricedAt(g, es, k, r);
    }
  }

  lemma StampedFirst(log: seq<Delta>, e: Event, longer: seq<Delta>, es: seq<Event>, longest: seq<Delta>)
    requires Stamped(log, [e], longer) && Stamped(longer, es, longest)
    ensures Stamped(log, [e] + es, longest)
  {
    forall i | 0 <= i < |es| + 1 ensures longest[|log| + i].timestamp == ([e] + es)[i].timestamp {
      if i == 0 {
        assert longest[|log|] == longer[|log|] && longer[|log| + 0].timestamp == [e][0].timestamp;
      } else {
        assert longest[|longer| + (i - 1)].timestamp == es[i - 1].timestamp;
      }
    }
  }

  lemma RunFirst(p: Publication, events: seq<Event>)
    requires Inv(p) && Runs(p, events) && events != []
    ensures var q := Step(p, events[0]);
            && Inv(q) && Runs(q, events[1..])
            && RunAll(p, events) == RunAll(q, events[1..])
            && Emitted(p, events) ==
               (if q.Last().core.SameGraph(p.Last().core) then [] else [events[0]]) + Emitted(q, events[1..])
  {
    StepKeepsInv(p, events[0]);
  }

  /** Every run is told by the events that changed the graph. */
  lemma {:induction false} RunTold(p: Publication, events: seq<Event>)
    requires Inv(p) && Runs(p, events)
    ensures var es, t := Emitted(p, events), RunAll(p, events);
            Told(p.history, es, t.history) && PricedBy(p.history, es, t.history) && Stamped(p.log, es, t.log)
    decreases |events|
  {
    if events == [] {
      RetainedAt(p);
      NothingTold(p.history);
    } else {
      var e, rest := events[0], events[1..];
      StepTold(p, e);
      RunFirst(p, events);
      var q := Step(p, e);
      RunTold(q, rest);
      var es, t := Emitted(q, rest), RunAll(q, rest);
      hide *;
      if q.Last().core.SameGraph(p.Last().core) {
        assert [] + es == es;
      } else {
        ToldFirst(p.history, e, q.history, es, t.history);
        PricedFirst(p.history, [e], q.history, es, t.history);
        StampedFirst(p.log, e, q.log, es, t.log);
      }
    }
  }

  /** What barriers do to a range over the history of a fresh publication. */
  ghost predicate Barred(es: seq<Event>, g: History, from: nat, target: nat)
    requires g.Valid()
  {
    && (forall i: nat :: LastBarrier(es, i) ==> g.floor == i + 1)
    && ((forall i :: 0 <= i < |es| ==> !es[i].barrier) ==> g.floor == 0)
    && var answer := RangeOf(g, from, target);
    && (answer.Deltas? ==> forall i :: 0 <= i < |es| && es[i].barrier ==> i + 1 <= from)
    && (answer.BeforeReplayFloor? <==> from < target && exists i :: 0 <= i < |es| && es[i].barrier && from < i + 1)
    && (answer.BeforeReplayFloor? ==> forall i: nat :: LastBarrier(es, i) ==> answer.floor == i + 1)
  }

  lemma ToldBarred(es: seq<Event>, g: History, from: nat, target: nat)
    requires g.Valid() && Told(History(0, 0, 0, []), es, g)
    ensures Barred(es, g, from, target)
  {
    hide Slice;
    if i :| 0 <= i < |es| && es[i].barrier {
      var k := AnyLastBarrier(es, i);
      assert g.floor == k + 1;
      assert forall j: nat :: LastBarrier(es, j) ==> j == k;
      assert forall j :: 0 <= j < |es| && es[j].barrier ==> j <= k;
      assert es[k].barrier;
    } else {
      assert forall j: nat :: !LastBarrier(es, j);
    }
  }

  /** From a fresh publication: the replay floor is the revision the last barrier produced;
      a range is never served across a revision that a barrier produced, and is refused for
      the floor exactly when such a revision lies beyond its source. */
  lemma BarriersStopReplay(c: Core, seen: set<BlockHash>, events: seq<Event>, from: nat, target: nat)
    requires Inv(Start(c, seen)) && Runs(Start(c, seen), events)
    ensures var es, p := Emitted(Start(c, seen), events), RunAll(Start(c, seen), events);
            && p.history.Valid() && |p.log| == |es|
            && Barred(es, p.history, from, target)
  {
    var start := Start(c, seen);
    assert start.history == History(0, 0, 0, []) && start.log == [];
    RunTold(start, events);
    RetainedAt(RunAll(start, events));
    assert |RunAll(start, events).log| == |Emitted(start, events)| by { hide *; StampedSize(start.log, Emitted(start, events), RunAll(start, events).log); }
    hide *;
    ToldBarred(Emitted(start, events), RunAll(start, events).history, from, target);
  }

  lemma StampedSize(log: seq<Delta>, es: seq<Event>, longer: seq<Delta>)
    requires Stamped(log, es, longer)
    ensures |longer| == |log| + |es|
  {
  }

  /** What the log and history of a fresh publication take from its events. */
  predicate Accounted(es: seq<Event>, g: History, log: seq<Delta>, r: nat)
    requires g.Valid()
  {
    && |log| == |es| == g.current && g.cumulative == Estimates(es)
    && (r < |es| ==> log[r].timestamp == es[r].timestamp)
    && (g.Oldest() <= r < |es| ==> g.entries[r - g.Oldest()].estimate == es[r].estimate)
  }

  lemma ToldAccounted(es: seq<Event>, g: History, log: seq<Delta>, r: nat)
    requires g.Valid() && Told(History(0, 0, 0, []), es, g) && PricedBy(History(0, 0, 0, []), es, g) && Stamped([], es, log)
    ensures Accounted(es, g, log, r)
  {
    hide LastBarrier;
    if g.Oldest() <= r < |es| {
      assert PricedAt(History(0, 0, 0, []), es, g, r);
    }
    if r < |es| {
      assert log[0 + r].timestamp == es[r].timestamp;
    }
  }

  /** From a fresh publication: the absolute cost is that of every emitted event, and each
      retained entry is priced by the event that produced it. */
  lemma RunsPriceTheirEvents(c: Core, seen: set<BlockHash>, events: seq<Event>, r: nat)
    requires Inv(Start(c, seen)) && Runs(Start(c, seen), events)
    ensures var es, p := Emitted(Start(c, seen), events), RunAll(Start(c, seen), events);
            p.history.Valid() && Accounted(es, p.history, p.log, r)
  {
    var start := Start(c, seen);
    assert start.history == History(0, 0, 0, []) && start.log == [];
    RunTold(start, events);
    RetainedAt(RunAll(start, events));
    hide *;
    ToldAccounted(Emitted(start, events), RunAll(start, events).history, RunAll(start, events).log, r);
  }
}
