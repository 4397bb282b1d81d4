/**
 * What a committed update leaves in a view, key by key, in terms of the update and the
 * graph before it alone: bounds are arithmetic on levels, edges come from the block's own
 * parents, level values from its own snapshots, and colours from the merge sets of the
 * added blocks.
 */
module Outcomes {
  import opened Maps
  import opened Graph
  import opened Core
  import opened ReplayLaws

  // ----- Committed blocks: one key at a time ---------------------------------------

  /** The stored block carries every committed field. */
  predicate Copies(b: BlockCommitted, s: Block) {
    && s.hash == b.hash && s.coordinate == b.coordinate && s.timestamp == b.timestamp && s.daaScore == b.daaScore
    && s.selectedParentIndex == b.selectedParentIndex && s.color == b.color && s.isInVspc == b.isInVspc
    && s.blueMergeSet == b.blueMergeSet && s.redMergeSet == b.redMergeSet
    && |s.directParents| == |b.directParents|
    && forall i :: 0 <= i < |s.directParents| ==> s.directParents[i] == b.directParents[i].hash
  }

  /** A direct parent of the block has this hash and this known coordinate. */
  predicate KnownParent(b: BlockCommitted, h: BlockHash, q: Coordinate) {
    exists p :: p in b.directParents && p.hash == h && p.coordinate == Some(q)
  }

  /** The block brings the edge `id` with parent coordinate `q` into levels `low..high`. */
  predicate Brings(b: BlockCommitted, low: nat, high: nat, id: EdgeId, q: Coordinate) {
    id.child == b.hash && q.level <= high && b.coordinate.level >= low && KnownParent(b, id.parent, q)
  }

  predicate LastFor(snapshots: seq<LevelCommitted>, level: nat, i: nat) {
    i < |snapshots| && snapshots[i].level == level && forall j :: i < j < |snapshots| ==> snapshots[j].level != level
  }

  predicate FirstFor(snapshots: seq<LevelCommitted>, level: nat, i: nat) {
    i < |snapshots| && snapshots[i].level == level && forall j :: 0 <= j < i ==> snapshots[j].level != level
  }

  predicate Mentions(snapshots: seq<LevelCommitted>, level: nat) {
    exists i :: 0 <= i < |snapshots| && snapshots[i].level == level
  }

  /** A level value after its snapshots: the size of the last one, and the score it had, or
      that of the first one where the level is new. */
  ghost predicate Measured(before: Option<Level>, snapshots: seq<LevelCommitted>, level: nat, now: Option<Level>) {
    if !Mentions(snapshots, level) then now == before
    else
      && now.Some?
      && (forall i: nat :: LastFor(snapshots, level, i) ==> now.value.size == snapshots[i].size)
      && (before.Some? ==> now.value.daaScore == before.value.daaScore)
      && (before.None? ==> forall i: nat :: FirstFor(snapshots, level, i) ==> now.value.daaScore == snapshots[i].daaScore)
  }

  /** The levels whose snapshots a commit records: those inside the bounds, the parent levels
      of retained edges, and both ends of every edge the block brings. */
  ghost predicate Records(edges: Edges, b: BlockCommitted, low: nat, high: nat, level: nat) {
    || low <= level <= high
    || (exists id :: id in edges && edges[id].parentCoordinate.level == level)
    || (exists id, q :: Brings(b, low, high, id, q) && (q.level == level || b.coordinate.level == level))
  }

  lemma CopiesBlock(b: BlockCommitted)
    ensures Copies(b, BlockOf(b))
  {
  }

  predicate DistinctParents(b: BlockCommitted) {
    forall p, q :: p in b.directParents && q in b.directParents && p.hash == q.hash ==> p == q
  }

  lemma BroughtEdge(b: BlockCommitted, extent: LevelExtent, id: EdgeId, q: Coordinate)
    requires DistinctParents(b)
    ensures var m := EdgeMap(RetainedEdges(b, b.directParents, extent));
            Get(m, id) == Some(Edge(id, q, b.coordinate)) <==> Brings(b, extent.low, extent.high, id, q)
  {
    var es := RetainedEdges(b, b.directParents, extent);
    var m := EdgeMap(es);
    if Brings(b, extent.low, extent.high, id, q) {
      var p :| p in b.directParents && p.hash == id.parent && p.coordinate == Some(q);
      assert Retains(b, p, extent) && EdgeTo(b, p) in es;
      assert EdgeTo(b, p).id == id;
      var other :| other in b.directParents && Retains(b, other, extent) && m[id] == EdgeTo(b, other);
      assert other.hash == p.hash;
    }
  }

  lemma BroughtOnly(b: BlockCommitted, extent: LevelExtent, id: EdgeId)
    requires forall q :: !Brings(b, extent.low, extent.high, id, q)
    ensures id !in EdgeMap(RetainedEdges(b, b.directParents, extent))
  {
    var es := RetainedEdges(b, b.directParents, extent);
    if id in EdgeMap(es) {
      var p :| p in b.directParents && Retains(b, p, extent) && EdgeMap(es)[id] == EdgeTo(b, p);
      assert Brings(b, extent.low, extent.high, id, p.coordinate.value);
    }
  }

  lemma RecordsIs(edges: Edges, b: BlockCommitted, extent: LevelExtent, level: nat)
    ensures Admits(edges, extent, RetainedEdges(b, b.directParents, extent), level)
            <==> Records(edges, b, extent.low, extent.high, level)
  {
    var es := RetainedEdges(b, b.directParents, extent);
    if level in Endpoints(es) {
      var e :| e in es && (e.ParentLevel() == level || e.ChildLevel() == level);
      var p :| p in b.directParents && Retains(b, p, extent) && e == EdgeTo(b, p);
      assert Brings(b, extent.low, extent.high, e.id, p.coordinate.value);
    }
    if id, q :| Brings(b, extent.low, extent.high, id, q) && (q.level == level || b.coordinate.level == level) {
      var p :| p in b.directParents && p.hash == id.parent && p.coordinate == Some(q);
      assert Retains(b, p, extent) && EdgeTo(b, p) in es;
    }
  }

  lemma {:induction false} MaterializedValue(levels: map<nat, Level>, snapshots: seq<LevelCommitted>, edges: Edges,
                                             extent: LevelExtent, es: seq<Edge>, level: nat)
    ensures var now := Get(Materialize(levels, snapshots, edges, extent, es), level);
            if Admits(edges, extent, es, level) then Measured(Get(levels, level), snapshots, level, now)
            else now == Get(levels, level)
  {
    hide Measured, Admits;
    if snapshots == [] {
      MeasuredNone(Get(levels, level), level);
    } else {
      var n := |snapshots| - 1;
      var front, s := snapshots[..n], snapshots[n];
      MaterializedValue(levels, front, edges, extent, es, level);
      assert front + [s] == snapshots;
      var before := Get(Materialize(levels, front, edges, extent, es), level);
      if !Admits(edges, extent, es, level) {
      } else if s.level == level {
        MeasuredNext(Get(levels, level), front, s, level, before);
      } else {
        MeasuredAside(Get(levels, level), front, s, level, before);
      }
    }
  }

  lemma MeasuredNone(before: Option<Level>, level: nat)
    ensures Measured(before, [], level, before)
  {
  }

  lemma MentionsLast(front: seq<LevelCommitted>, s: LevelCommitted, level: nat)
    ensures Mentions(front + [s], level) <==> Mentions(front, level) || s.level == level
  {
    if Mentions(front, level) {
      var i :| 0 <= i < |front| && front[i].level == level;
      assert (front + [s])[i] == front[i];
    }
    assert (front + [s])[|front|] == s;
    if Mentions(front + [s], level) && s.level != level {
      var i :| 0 <= i < |front| + 1 && (front + [s])[i].level == level;
      assert front[i].level == level;
    }
  }

  lemma MeasuredAside(before: Option<Level>, front: seq<LevelCommitted>, s: LevelCommitted, level: nat, now: Option<Level>)
    requires Measured(before, front, level, now) && s.level != level
    ensures Measured(before, front + [s], level, now)
  {
    MentionsLast(front, s, level);
    forall i: nat | LastFor(front + [s], level, i) ensures LastFor(front, level, i) {
      assert i < |front|;
      forall j | i < j < |front| ensures front[j].level != level { assert (front + [s])[j] == front[j]; }
    }
    forall i: nat | FirstFor(front + [s], level, i) ensures FirstFor(front, level, i) {
      assert i < |front|;
      forall j | 0 <= j < i ensures front[j].level != level { assert (front + [s])[j] == front[j]; }
    }
  }

  lemma MeasuredNext(before: Option<Level>, front: seq<LevelCommitted>, s: LevelCommitted, level: nat, now: Option<Level>)
    requires Measured(before, front, level, now) && s.level == level
    ensures Measured(before, front + [s], level, Some(Materialized(now, s)))
  {
    var all := front + [s];
    MentionsLast(front, s, level);
    forall i: nat | LastFor(all, level, i) ensures all[i] == s {
      assert all[|front|] == s;
    }
    forall i: nat | FirstFor(all, level, i) ensures if Mentions(front, level) then FirstFor(front, level, i) else all[i] == s {
      if j :| 0 <= j < |front| && front[j].level == level {
        assert all[j] == front[j];
        forall k | 0 <= k < i ensures front[k].level != level { assert all[k] == front[k]; }
      }
    }
  }

  // ----- Head views ----------------------------------------------------------------

  /** The new block with all its fields or an old one, each exactly while its level is not
      below `low`. */
  predicate HeadBlockIs(c: Core, b: BlockCommitted, low: nat, h: BlockHash, now: Option<Block>) {
    if h == b.hash then
      if b.coordinate.level >= low then now.Some? && Copies(b, now.value) else now == None
    else now == if h in c.blocks && c.blocks[h].coordinate.level >= low then Some(c.blocks[h]) else None
  }

  /** The new block's own edges are exactly those to known parents not above `high`, while
      the block is not below `low`; any other edge stays exactly while its child block does. */
  ghost predicate HeadEdgeIs(c: Core, b: BlockCommitted, low: nat, high: nat, id: EdgeId, now: Option<Edge>) {
    if id.child == b.hash then
      && (now.Some? ==> exists q :: now == Some(Edge(id, q, b.coordinate)))
      && forall q :: now == Some(Edge(id, q, b.coordinate)) <==>
                     KnownParent(b, id.parent, q) && q.level <= high && b.coordinate.level >= low
    else
      now == if id in c.edges && id.child in c.blocks && c.blocks[id.child].coordinate.level >= low then Some(c.edges[id]) else None
  }

  lemma HeadCommitBlock(c: Core, b: BlockCommitted, timestamp: nat, h: BlockHash)
    requires HeadWindow(c) && Stored(c, b)
    ensures var after := HeadCommit(c, b, timestamp).0; HeadBlockIs(c, b, after.extent.low, h, Get(after.blocks, h))
  {
    HeadCommitKeepsWindow(c, b, timestamp);
    CopiesBlock(b);
    hide HeadWindow, Stored, HeadGraph, BlockOf, Copies;
    var after := HeadCommit(c, b, timestamp).0;
    assert Get(after.blocks, h) == WindowBlock(c, b, after.extent, h);
    WindowReaches(c, b, timestamp);
    if h in c.blocks {
      WindowHolds(c, h);
    }
  }

  lemma WindowHolds(c: Core, h: BlockHash)
    requires HeadWindow(c) && h in c.blocks
    ensures c.blocks[h].coordinate.level <= c.extent.high
  {
  }

  /** The window after a Head commit, as arithmetic on levels. */
  lemma WindowReaches(c: Core, b: BlockCommitted, timestamp: nat)
    requires c.Shaped()
    ensures var after := HeadCommit(c, b, timestamp).0;
            && after.extent.high == (if b.coordinate.level > c.extent.high then b.coordinate.level else c.extent.high)
            && after.extent.low == (if after.extent.high < c.maxDepth then 1 else after.extent.high - c.maxDepth + 1)
  {
  }

  lemma HeadCommitEdge(c: Core, b: BlockCommitted, timestamp: nat, id: EdgeId)
    requires HeadWindow(c) && Stored(c, b)
    ensures var after := HeadCommit(c, b, timestamp).0;
            HeadEdgeIs(c, b, after.extent.low, after.extent.high, id, Get(after.edges, id))
  {
    HeadCommitIs(c, b, timestamp);
    hide HeadCommit, HeadGraph, HeadTarget, Pruned, Projected, RetainedEdges, EdgeMap, HeadEdgeIs, EdgesOwned, Covered;
    if id.child == b.hash {
      HeadEdgeOf(c, b, id);
      OwnEdge(c, b, HeadTarget(c, b), id);
    } else {
      HeadEdgeAside(c, b, id);
      AsideEdge(c, b, HeadTarget(c, b), id);
    }
  }

  lemma OwnEdge(c: Core, b: BlockCommitted, extent: LevelExtent, id: EdgeId)
    requires DistinctParents(b) && id.child == b.hash
    ensures HeadEdgeIs(c, b, extent.low, extent.high, id, Get(EdgeMap(RetainedEdges(b, b.directParents, extent)), id))
  {
    BroughtDecides(b, extent, id);
    hide RetainedEdges, EdgeMap, KnownParent;
  }

  lemma AsideEdge(c: Core, b: BlockCommitted, extent: LevelExtent, id: EdgeId)
    requires id.child != b.hash
    ensures HeadEdgeIs(c, b, extent.low, extent.high, id,
                       if id in c.edges && id.child in c.blocks && c.blocks[id.child].coordinate.level >= extent.low
                       then Some(c.edges[id]) else None)
  {
  }

  lemma HeadCommitIs(c: Core, b: BlockCommitted, timestamp: nat)
    requires c.Shaped()
    ensures var after, target := HeadCommit(c, b, timestamp).0, HeadTarget(c, b);
            && after.extent == target
            && after.edges == Pruned(Projected(c, b, target), target.low).edges
            && after.levels == Pruned(Projected(c, b, target), target.low).levels
  {
    hide Pruned, Projected, BlockDelta;
  }

  lemma BroughtDecides(b: BlockCommitted, extent: LevelExtent, id: EdgeId)
    requires DistinctParents(b) && id.child == b.hash
    ensures var m := EdgeMap(RetainedEdges(b, b.directParents, extent));
            && (id in m ==> exists q :: m[id] == Edge(id, q, b.coordinate))
            && forall q :: Get(m, id) == Some(Edge(id, q, b.coordinate)) <==>
                           KnownParent(b, id.parent, q) && q.level <= extent.high && b.coordinate.level >= extent.low
  {
    hide RetainedEdges, EdgeMap;
    var m := EdgeMap(RetainedEdges(b, b.directParents, extent));
    forall q ensures Get(m, id) == Some(Edge(id, q, b.coordinate)) <==> Brings(b, extent.low, extent.high, id, q) {
      BroughtEdge(b, extent, id, q);
    }
    if id in m {
      BroughtShape(b, extent, id);
    }
  }

  lemma BroughtShape(b: BlockCommitted, extent: LevelExtent, id: EdgeId)
    requires id in EdgeMap(RetainedEdges(b, b.directParents, extent))
    ensures exists q :: EdgeMap(RetainedEdges(b, b.directParents, extent))[id] == Edge(id, q, b.coordinate)
  {
    var es := RetainedEdges(b, b.directParents, extent);
    var p :| p in b.directParents && Retains(b, p, extent) && EdgeMap(es)[id] == EdgeTo(b, p);
    assert EdgeMap(es)[id] == Edge(id, p.coordinate.value, b.coordinate);
  }

  lemma HeadEdgeOf(c: Core, b: BlockCommitted, id: EdgeId)
    requires HeadWindow(c) && Stored(c, b) && id.child == b.hash
    ensures var target := HeadTarget(c, b);
            Get(Pruned(Projected(c, b, target), target.low).edges, id) == Get(EdgeMap(RetainedEdges(b, b.directParents, target)), id)
  {
    var target := HeadTarget(c, b);
    assert id !in c.edges;
    if id in EdgeMap(RetainedEdges(b, b.directParents, target)) {
      BroughtShape(b, target, id);
      var p :| p in b.directParents && Retains(b, p, target) && EdgeMap(RetainedEdges(b, b.directParents, target))[id] == EdgeTo(b, p);
      assert b.coordinate.level >= target.low;
    }
  }

  lemma HeadEdgeAside(c: Core, b: BlockCommitted, id: EdgeId)
    requires HeadWindow(c) && Stored(c, b) && id.child != b.hash
    ensures var target := HeadTarget(c, b);
            Get(Pruned(Projected(c, b, target), target.low).edges, id) ==
            if id in c.edges && id.child in c.blocks && c.blocks[id.child].coordinate.level >= target.low
            then Some(c.edges[id]) else None
  {
    var target := HeadTarget(c, b);
    assert id !in EdgeMap(RetainedEdges(b, b.directParents, target)) by {
      BroughtOnly(b, target, id);
    }
    hide RetainedEdges, EdgeMap, Materialize;
  }

  lemma HeadCommitLevel(c: Core, b: BlockCommitted, timestamp: nat, level: nat)
    requires HeadWindow(c) && Stored(c, b)
    ensures var after := HeadCommit(c, b, timestamp).0;
            level in after.levels ==> Measured(Get(c.levels, level), b.levelSnapshots, level, Some(after.levels[level]))
  {
    var target := HeadTarget(c, b);
    var es := RetainedEdges(b, b.directParents, target);
    var after := HeadCommit(c, b, timestamp).0;
    if level in after.levels {
      CommitLevel(c, b, level);
      assert Admits(c.edges, target, es, level) by { HeadAdmits(c, b, level); }
      MaterializedValue(c.levels, b.levelSnapshots, c.edges, target, es, level);
      hide Measured, Admits, HeadWindow, Stored, RetainedEdges, EdgeMap, Materialize;
      assert Get(Materialize(c.levels, b.levelSnapshots, c.edges, target, es), level) == Some(after.levels[level]);
    }
  }

  lemma HeadAdmits(c: Core, b: BlockCommitted, level: nat)
    requires HeadWindow(c) && Stored(c, b) && level in HeadGraph(c, b).levels
    ensures Admits(c.edges, HeadTarget(c, b), RetainedEdges(b, b.directParents, HeadTarget(c, b)), level)
  {
    var target := HeadTarget(c, b);
    var es := RetainedEdges(b, b.directParents, target);
    CommitLevel(c, b, level);
    var after := HeadGraph(c, b);
    if !target.ContainsLevel(level) {
      hide RetainedEdges;
      var id :| id in after.edges && after.edges[id].ParentLevel() == level;
      if id in EdgeMap(es) {
        assert after.edges[id] == EdgeMap(es)[id] && EdgeMap(es)[id] in es;
      } else {
        assert after.edges[id] == c.edges[id];
        assert level in ParentLevels(c.edges);
      }
    }
  }

  /** A block commit on a Head view, key by key: the window is the committed level's, blocks
      and edges are the old and new ones it admits, retained levels are the window and the
      parent levels of retained edges with the values their snapshots give, and a delta under
      the next revision is emitted exactly when one of the three maps changed. */
  lemma HeadCommitOutcome(c: Core, b: BlockCommitted, timestamp: nat)
    requires HeadWindow(c) && Stored(c, b)
    ensures var (after, d) := HeadCommit(c, b, timestamp);
            && after.extent.high == (if b.coordinate.level > c.extent.high then b.coordinate.level else c.extent.high)
            && after.extent.low == (if after.extent.high < c.maxDepth then 1 else after.extent.high - c.maxDepth + 1)
            && (forall h :: HeadBlockIs(c, b, after.extent.low, h, Get(after.blocks, h)))
            && (forall id :: HeadEdgeIs(c, b, after.extent.low, after.extent.high, id, Get(after.edges, id)))
            && (forall level: nat :: level in after.levels <==>
                  after.extent.low <= level <= after.extent.high
                  || exists id :: id in after.edges && after.edges[id].parentCoordinate.level == level)
            && (forall level: nat :: level in after.levels ==>
                  Measured(Get(c.levels, level), b.levelSnapshots, level, Some(after.levels[level])))
            && (d.Some? <==> after.blocks != c.blocks || after.edges != c.edges || after.levels != c.levels)
            && after.revision == (if d.Some? then c.revision + 1 else c.revision)
            && after.timestamp == (if d.Some? then timestamp else c.timestamp)
            && after.policy == c.policy && after.maxDepth == c.maxDepth
  {
    hide HeadWindow, Stored, HeadBlockIs, HeadEdgeIs, Measured, HeadCommit;
    WindowShaped(c);
    var (after, d) := HeadCommit(c, b, timestamp);
    WindowReaches(c, b, timestamp);
    forall h ensures HeadBlockIs(c, b, after.extent.low, h, Get(after.blocks, h)) {
      HeadCommitBlock(c, b, timestamp, h);
    }
    forall id ensures HeadEdgeIs(c, b, after.extent.low, after.extent.high, id, Get(after.edges, id)) {
      HeadCommitEdge(c, b, timestamp, id);
    }
    forall level: nat
      ensures level in after.levels <==>
              after.extent.low <= level <= after.extent.high
              || exists id :: id in after.edges && after.edges[id].parentCoordinate.level == level
    {
      HeadCommitLevels(c, b, timestamp, level);
    }
    forall level: nat | level in after.levels
      ensures Measured(Get(c.levels, level), b.levelSnapshots, level, Some(after.levels[level]))
    {
      HeadCommitLevel(c, b, timestamp, level);
    }
    HeadCommitEmits(c, b, timestamp);
  }

  lemma WindowShaped(c: Core)
    requires HeadWindow(c)
    ensures c.Shaped()
  {
  }

  lemma HeadCommitLevels(c: Core, b: BlockCommitted, timestamp: nat, level: nat)
    requires HeadWindow(c) && Stored(c, b)
    ensures var after := HeadCommit(c, b, timestamp).0;
            level in after.levels <==>
            after.extent.low <= level <= after.extent.high
            || exists id :: id in after.edges && after.edges[id].parentCoordinate.level == level
  {
    HeadCommitKeepsWindow(c, b, timestamp);
    hide HeadCommit;
    var after := HeadCommit(c, b, timestamp).0;
    assert level in ParentLevels(after.edges) <==> exists id :: id in after.edges && after.edges[id].parentCoordinate.level == level;
  }

  lemma HeadCommitEmits(c: Core, b: BlockCommitted, timestamp: nat)
    requires HeadWindow(c) && Stored(c, b)
    ensures var (after, d) := HeadCommit(c, b, timestamp);
            && (d.Some? <==> after.blocks != c.blocks || after.edges != c.edges || after.levels != c.levels)
            && after.revision == (if d.Some? then c.revision + 1 else c.revision)
            && after.timestamp == (if d.Some? then timestamp else c.timestamp)
            && after.policy == c.policy && after.maxDepth == c.maxDepth
  {
    BlockDeltaReplays(c, HeadGraph(c, b), timestamp);
    hide HeadWindow, Stored, Pruned, Projected, Replay, Diff, LevelDiff;
  }

  // ----- Fixed views ---------------------------------------------------------------

  predicate FixedBlockIs(c: Core, b: BlockCommitted, h: BlockHash, now: Option<Block>) {
    if h == b.hash && c.extent.low <= b.coordinate.level <= c.extent.high then now.Some? && Copies(b, now.value)
    else now == Get(c.blocks, h)
  }

  ghost predicate FixedEdgeIs(c: Core, b: BlockCommitted, id: EdgeId, now: Option<Edge>) {
    && (forall q :: Brings(b, c.extent.low, c.extent.high, id, q) ==> now == Some(Edge(id, q, b.coordinate)))
    && ((forall q :: !Brings(b, c.extent.low, c.extent.high, id, q)) ==> now == Get(c.edges, id))
  }

  ghost predicate FixedLevelIs(c: Core, b: BlockCommitted, level: nat, now: Option<Level>) {
    if Records(c.edges, b, c.extent.low, c.extent.high, level) then Measured(Get(c.levels, level), b.levelSnapshots, level, now)
    else now == Get(c.levels, level)
  }

  lemma FixedEdge(c: Core, b: BlockCommitted, id: EdgeId)
    requires DistinctParents(b)
    ensures FixedEdgeIs(c, b, id, Get(Projected(c, b, c.extent).edges, id))
  {
    var m := EdgeMap(RetainedEdges(b, b.directParents, c.extent));
    assert Get(Projected(c, b, c.extent).edges, id) == if id in m then Some(m[id]) else Get(c.edges, id);
    hide RetainedEdges, EdgeMap, Projected, Brings;
    forall q | Brings(b, c.extent.low, c.extent.high, id, q) ensures Get(m, id) == Some(Edge(id, q, b.coordinate)) {
      BroughtEdge(b, c.extent, id, q);
    }
    if forall q :: !Brings(b, c.extent.low, c.extent.high, id, q) {
      BroughtOnly(b, c.extent, id);
    }
  }

  lemma FixedLevel(c: Core, b: BlockCommitted, level: nat)
    ensures FixedLevelIs(c, b, level, Get(Projected(c, b, c.extent).levels, level))
  {
    var es := RetainedEdges(b, b.directParents, c.extent);
    RecordsIs(c.edges, b, c.extent, level);
    MaterializedValue(c.levels, b.levelSnapshots, c.edges, c.extent, es, level);
    hide Records, Admits, Measured, RetainedEdges, EdgeMap, Materialize;
  }

  /** A block commit on a Fixed view, key by key: the view freezes untouched exactly when
      Head has left its extent; otherwise the block is stored exactly when it lies inside
      the extent, its edges that meet the extent join the old ones, the recorded levels take
      the values their snapshots give, and a delta under the next revision is emitted exactly
      when one of the three maps changed. */
  lemma FixedCommitOutcome(c: Core, head: Core, b: BlockCommitted, timestamp: nat)
    requires c.Shaped() && c.policy.Fixed? && DistinctParents(b)
    ensures var (after, d) := FixedCommit(c, head, b, timestamp);
            if head.extent.high < c.extent.low || c.extent.high < head.extent.low then
              after == c.(policy := Frozen) && d == None
            else
              && (forall h :: FixedBlockIs(c, b, h, Get(after.blocks, h)))
              && (forall id :: FixedEdgeIs(c, b, id, Get(after.edges, id)))
              && (forall level: nat :: FixedLevelIs(c, b, level, Get(after.levels, level)))
              && (d.Some? <==> after.blocks != c.blocks || after.edges != c.edges || after.levels != c.levels)
              && after.revision == (if d.Some? then c.revision + 1 else c.revision)
              && after.timestamp == (if d.Some? then timestamp else c.timestamp)
              && after.policy == Fixed && after.extent == c.extent && after.maxDepth == c.maxDepth
  {
    var (after, d) := FixedCommit(c, head, b, timestamp);
    CopiesBlock(b);
    var graph := Projected(c, b, c.extent);
    forall h ensures FixedBlockIs(c, b, h, Get(graph.blocks, h)) {
      hide RetainedEdges, EdgeMap, Materialize, BlockOf, Copies, FixedCommit;
    }
    hide Projected, FixedEdgeIs, FixedLevelIs, FixedBlockIs, Copies;
    forall id ensures FixedEdgeIs(c, b, id, Get(graph.edges, id)) {
      FixedEdge(c, b, id);
    }
    forall level: nat ensures FixedLevelIs(c, b, level, Get(graph.levels, level)) {
      FixedLevel(c, b, level);
    }
    FixedCommitEmits(c, head, b, timestamp);
  }

  lemma FixedCommitEmits(c: Core, head: Core, b: BlockCommitted, timestamp: nat)
    requires c.Shaped() && c.policy.Fixed?
    ensures var (after, d) := FixedCommit(c, head, b, timestamp);
            if head.extent.high < c.extent.low || c.extent.high < head.extent.low then
              after == c.(policy := Frozen) && d == None
            else
              var graph := Projected(c, b, c.extent);
              && after.blocks == graph.blocks && after.edges == graph.edges && after.levels == graph.levels
              && (d.Some? <==> after.blocks != c.blocks || after.edges != c.edges || after.levels != c.levels)
              && after.revision == (if d.Some? then c.revision + 1 else c.revision)
              && after.timestamp == (if d.Some? then timestamp else c.timestamp)
              && after.policy == Fixed && after.extent == c.extent && after.maxDepth == c.maxDepth
  {
    BlockDeltaReplays(c, Projected(c, b, c.extent), timestamp);
    hide RetainedEdges, EdgeMap, Materialize, Replay, Diff, LevelDiff;
  }

  // ----- VSPC transitions ----------------------------------------------------------

  predicate Names(b: Block, h: BlockHash) { h in b.blueMergeSet || h in b.redMergeSet }

  /** The last added block that is known and names `h` in a merge set. */
  predicate LastNaming(known: Blocks, added: seq<BlockHash>, h: BlockHash, i: nat) {
    && i < |added| && added[i] in known && Names(known[added[i]], h)
    && forall j :: i < j < |added| && added[j] in known ==> !Names(known[added[j]], h)
  }

  /** That block decides the colour, red over blue; without one the colour is `base`. */
  ghost predicate ColorIs(known: Blocks, added: seq<BlockHash>, h: BlockHash, base: Color, now: Color) {
    && (forall i: nat :: LastNaming(known, added, h, i) ==> now == if h in known[added[i]].redMergeSet then Red else Blue)
    && ((forall i: nat :: !LastNaming(known, added, h, i)) ==> now == base)
  }

  /** One retained block after a transition: membership and colour change, nothing else. */
  ghost predicate VspcBlockIs(known: Blocks, v: VspcCommitted, h: BlockHash, before: Block, now: Block) {
    && now == before.(isInVspc := now.isInVspc, color := now.color)
    && now.isInVspc == (h in v.added || (h !in v.removed && before.isInVspc))
    && ColorIs(known, v.added, h, if h in v.removed then Gray else before.color, now.color)
  }

  /** One retained level after a transition: the score of its last snapshot, if it has one. */
  ghost predicate Scored(before: Level, snapshots: seq<LevelCommitted>, level: nat, now: Level) {
    && now.size == before.size
    && (forall i: nat :: LastFor(snapshots, level, i) ==> now.daaScore == snapshots[i].daaScore)
    && (!Mentions(snapshots, level) ==> now.daaScore == before.daaScore)
  }

  lemma {:induction false} RecoloredBy(known: Blocks, added: seq<BlockHash>, h: BlockHash, base: Color)
    ensures ColorIs(known, added, h, base, Recolor(base, h, HeadMetadata(known, added)))
  {
    if added != [] {
      var n := |added| - 1;
      var front, g := added[..n], added[n];
      RecoloredBy(known, front, h, base);
      var ms := HeadMetadata(known, front);
      var now := Recolor(base, h, HeadMetadata(known, added));
      if g in known {
        assert HeadMetadata(known, added) == ms + [MetadataOf(known[g])];
        assert (ms + [MetadataOf(known[g])])[..|ms|] == ms;
      }
      if g in known && Names(known[g], h) {
        assert LastNaming(known, added, h, n);
      } else {
        forall i: nat ensures LastNaming(known, added, h, i) <==> LastNaming(known, front, h, i) {
          LastNamingFront(known, added, h, i);
        }
      }
    }
  }

  lemma LastNamingFront(known: Blocks, added: seq<BlockHash>, h: BlockHash, i: nat)
    requires added != [] && (added[|added| - 1] in known ==> !Names(known[added[|added| - 1]], h))
    ensures LastNaming(known, added, h, i) <==> LastNaming(known, added[..|added| - 1], h, i)
  {
  }

  /** What a Fixed view resolves is what the two views know together, its own blocks first. */
  lemma {:induction false} FixedMetadataIs(own: Blocks, head: Blocks, added: seq<BlockHash>)
    requires FixedMetadata(own, head, added).Some?
    ensures FixedMetadata(own, head, added).value == HeadMetadata(head + own, added)
  {
    if added != [] {
      FixedMetadataIs(own, head, added[..|added| - 1]);
    }
  }

  lemma {:induction false} RescoredValue(levels: map<nat, Level>, snapshots: seq<LevelCommitted>, level: nat)
    requires level in levels
    ensures Scored(levels[level], snapshots, level, Rescored(levels, snapshots)[level])
  {
    if snapshots != [] {
      var n := |snapshots| - 1;
      var front, s := snapshots[..n], snapshots[n];
      RescoredValue(levels, front, level);
      MentionsLast(front, s, level);
      assert front + [s] == snapshots;
      forall i: nat | LastFor(snapshots, level, i) ensures if s.level == level then i == n else LastFor(front, level, i) {
        LastForFront(snapshots, level, i);
      }
    }
  }

  lemma LastForFront(snapshots: seq<LevelCommitted>, level: nat, i: nat)
    requires snapshots != [] && LastFor(snapshots, level, i)
    ensures if snapshots[|snapshots| - 1].level == level then i == |snapshots| - 1 else LastFor(snapshots[..|snapshots| - 1], level, i)
  {
  }

  lemma TransitionedBlock(c: Core, known: Blocks, v: VspcCommitted, h: BlockHash)
    requires h in c.blocks
    ensures var after := VspcGraph(c, v, HeadMetadata(known, v.added));
            h in after.blocks && VspcBlockIs(known, v, h, c.blocks[h], after.blocks[h])
  {
    RecoloredBy(known, v.added, h, if h in v.removed then Gray else c.blocks[h].color);
    hide ColorIs, HeadMetadata, Recolor, Rescored;
  }

  /** What a transition of the graph `c` leaves when the added blocks known are `known`. */
  ghost predicate VspcIs(c: Core, known: Blocks, v: VspcCommitted, timestamp: nat, after: Core, emitted: bool) {
    && after.blocks.Keys == c.blocks.Keys && after.levels.Keys == c.levels.Keys
    && (forall h :: h in c.blocks ==> VspcBlockIs(known, v, h, c.blocks[h], after.blocks[h]))
    && (forall level :: level in c.levels ==> Scored(c.levels[level], v.levelSnapshots, level, after.levels[level]))
    && (emitted <==> after.blocks != c.blocks || after.levels != c.levels)
    && after == c.(blocks := after.blocks, levels := after.levels,
                   revision := if emitted then c.revision + 1 else c.revision,
                   timestamp := if emitted then timestamp else c.timestamp)
  }

  lemma TransitionIs(c: Core, known: Blocks, v: VspcCommitted, timestamp: nat)
    requires c.Shaped()
    ensures var graph := VspcGraph(c, v, HeadMetadata(known, v.added));
            var (after, d) := Published(graph, FieldDelta(c, graph, timestamp));
            VspcIs(c, known, v, timestamp, after, d.Some?)
  {
    var graph := VspcGraph(c, v, HeadMetadata(known, v.added));
    forall h | h in c.blocks ensures VspcBlockIs(known, v, h, c.blocks[h], graph.blocks[h]) {
      TransitionedBlock(c, known, v, h);
    }
    forall level | level in c.levels ensures Scored(c.levels[level], v.levelSnapshots, level, graph.levels[level]) {
      RescoredValue(c.levels, v.levelSnapshots, level);
    }
    hide VspcBlockIs, Scored, VspcGraph, FieldDelta, Silent;
    GraphFields(c, v, HeadMetadata(known, v.added));
    TransitionEmits(c, graph, timestamp);
  }

  lemma GraphFields(c: Core, v: VspcCommitted, ms: seq<Metadata>)
    ensures var graph := VspcGraph(c, v, ms);
            && graph == c.(blocks := graph.blocks, levels := graph.levels)
            && graph.blocks.Keys == c.blocks.Keys && graph.levels.Keys == c.levels.Keys
            && FieldsOnly(c.blocks, graph.blocks)
  {
    hide Recolor, Rescored;
  }

  lemma TransitionEmits(c: Core, graph: Core, timestamp: nat)
    requires c.Shaped() && graph == c.(blocks := graph.blocks, levels := graph.levels) && FieldsOnly(c.blocks, graph.blocks)
    ensures var (after, d) := Published(graph, FieldDelta(c, graph, timestamp));
            && (d.Some? <==> graph.blocks != c.blocks || graph.levels != c.levels)
            && after == graph.(revision := if d.Some? then c.revision + 1 else c.revision,
                               timestamp := if d.Some? then timestamp else c.timestamp)
  {
    FieldDeltaReplays(c, graph, timestamp);
    hide FieldsOnly, Replay, LevelDiff, VspcDiff, ColorDiff;
  }

  /** A VSPC transition on a Head view: a retained block joins the chain exactly when added,
      leaves it when removed, and takes the colour the last known added block naming it
      gives; levels take their last snapshot's score; edges and extent stay; and a delta is
      emitted exactly when a block or level changed. */
  lemma HeadVspcOutcome(c: Core, v: VspcCommitted, timestamp: nat)
    requires c.Shaped()
    ensures var (after, d) := HeadVspc(c, v, timestamp); VspcIs(c, c.blocks, v, timestamp, after, d.Some?)
  {
    TransitionIs(c, c.blocks, v, timestamp);
  }

  /** The same on a Fixed view, which knows its own blocks first and Head's second; it freezes
      untouched exactly when Head has left its extent or an added block is known to neither. */
  lemma FixedVspcOutcome(c: Core, head: Core, v: VspcCommitted, timestamp: nat)
    requires c.Shaped()
    ensures var (after, d) := FixedVspc(c, head, v, timestamp);
            if head.extent.high < c.extent.low || c.extent.high < head.extent.low
               || exists h :: h in v.added && h !in c.blocks && h !in head.blocks then
              after == c.(policy := Frozen) && d == None
            else VspcIs(c, head.blocks + c.blocks, v, timestamp, after, d.Some?)
  {
    FixedMetadataResolves(c.blocks, head.blocks, v.added);
    if FixedMetadata(c.blocks, head.blocks, v.added).Some? {
      FixedMetadataIs(c.blocks, head.blocks, v.added);
      TransitionIs(c, head.blocks + c.blocks, v, timestamp);
    }
    hide VspcIs, VspcGraph, FieldDelta, FixedMetadata, HeadMetadata;
  }
}
