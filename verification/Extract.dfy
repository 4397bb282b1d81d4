/** Extraction of a frozen subview: the naive filter and its laws. */
module Extract {
  import opened Maps
  import opened Graph
  import opened Core
  import opened ReplayLaws

  function BlocksWithin(blocks: Blocks, extent: LevelExtent): Blocks {
    map h | h in blocks && extent.ContainsLevel(blocks[h].coordinate.level) :: blocks[h]
  }

  function EdgesWithin(edges: Edges, extent: LevelExtent): Edges {
    map id | id in edges && extent.IntersectsSpan(edges[id].ParentLevel(), edges[id].ChildLevel()) :: edges[id]
  }

  /** The levels a view over these edges needs: its extent and every endpoint. */
  predicate Needs(edges: Edges, extent: LevelExtent, level: nat) {
    extent.ContainsLevel(level) || level in EndLevels(edges)
  }

  function EndLevels(edges: Edges): set<nat> {
    ParentLevels(edges) + set id | id in edges :: edges[id].ChildLevel()
  }

  function Extracted(c: Core, extent: LevelExtent): Core
    requires extent.Valid()
  {
    var edges := EdgesWithin(c.edges, extent);
    Core(extent.Depth(), extent, c.revision, c.timestamp, Frozen,
         map level | level in c.levels && Needs(edges, extent, level) :: c.levels[level],
         BlocksWithin(c.blocks, extent), edges)
  }

  /** No level that extraction or indexing looks up is missing. */
  ghost predicate Complete(c: Core) {
    && (forall id :: id in c.edges ==> c.edges[id].id == id)
    && forall level: nat :: Needs(c.edges, c.extent, level) ==> level in c.levels
  }

  lemma EndLevel(edges: Edges, id: EdgeId)
    requires id in edges
    ensures edges[id].ParentLevel() in EndLevels(edges) && edges[id].ChildLevel() in EndLevels(edges)
  {
  }

  lemma EndOf(edges: Edges, level: nat) returns (id: EdgeId)
    requires level in EndLevels(edges)
    ensures id in edges && (edges[id].ParentLevel() == level || edges[id].ChildLevel() == level)
  {
    if level in ParentLevels(edges) {
      id :| id in edges && edges[id].ParentLevel() == level;
    } else {
      id :| id in edges && edges[id].ChildLevel() == level;
    }
  }

  lemma EndLevelsShrink(edges: Edges, extent: LevelExtent)
    ensures EndLevels(EdgesWithin(edges, extent)) <= EndLevels(edges)
  {
    var within := EdgesWithin(edges, extent);
    forall level | level in EndLevels(within)
      ensures level in EndLevels(edges)
    {
      var id := EndOf(within, level);
      assert within[id] == edges[id];
      EndLevel(edges, id);
    }
  }

  /** Extraction never misses a level and its result is complete again. */
  lemma ExtractedComplete(c: Core, extent: LevelExtent)
    requires Complete(c) && extent.Valid() && c.extent.ContainsExtent(extent)
    ensures Complete(Extracted(c, extent))
    ensures forall level: nat :: level in Extracted(c, extent).levels <==> Needs(Extracted(c, extent).edges, extent, level)
  {
    EndLevelsShrink(c.edges, extent);
    var edges := EdgesWithin(c.edges, extent);
    forall level: nat | Needs(edges, extent, level)
      ensures level in c.levels
    {
      assert Needs(c.edges, c.extent, level);
    }
  }

  /** The extraction, key by key, as arithmetic on levels. */
  lemma ExtractedExactly(c: Core, extent: LevelExtent)
    requires Complete(c) && extent.Valid() && c.extent.ContainsExtent(extent)
    ensures var e := Extracted(c, extent);
            && (forall h :: Get(e.blocks, h) ==
                  if h in c.blocks && extent.low <= c.blocks[h].coordinate.level <= extent.high then Some(c.blocks[h]) else None)
            && (forall id :: Get(e.edges, id) ==
                  if id in c.edges && c.edges[id].childCoordinate.level >= extent.low && c.edges[id].parentCoordinate.level <= extent.high
                  then Some(c.edges[id]) else None)
            && (forall level: nat :: level in e.levels <==>
                  || extent.low <= level <= extent.high
                  || exists id :: id in e.edges && (e.edges[id].parentCoordinate.level == level || e.edges[id].childCoordinate.level == level))
            && (forall level :: level in e.levels ==> level in c.levels && e.levels[level] == c.levels[level])
            && e.extent == extent && e.maxDepth == extent.high - extent.low + 1 && e.policy == Frozen
            && e.revision == c.revision && e.timestamp == c.timestamp
  {
    ExtractedComplete(c, extent);
    var e := Extracted(c, extent);
    forall level: nat
      ensures level in e.levels <==>
              || extent.low <= level <= extent.high
              || exists id :: id in e.edges && (e.edges[id].parentCoordinate.level == level || e.edges[id].childCoordinate.level == level)
    {
      assert level in e.levels <==> Needs(e.edges, extent, level);
      if level in EndLevels(e.edges) {
        var id := EndOf(e.edges, level);
      } else if id :| id in e.edges && (e.edges[id].parentCoordinate.level == level || e.edges[id].childCoordinate.level == level) {
        EndLevel(e.edges, id);
      }
    }
  }

  /** Extracting an inner extent from an extracted outer view is extracting it directly. */
  lemma ExtractedNests(c: Core, outer: LevelExtent, inner: LevelExtent)
    requires outer.Valid() && inner.Valid() && outer.ContainsExtent(inner)
    ensures Extracted(Extracted(c, outer), inner) == Extracted(c, inner)
  {
    var once := Extracted(c, outer);
    assert EdgesWithin(once.edges, inner) == EdgesWithin(c.edges, inner);
    EndLevelsShrink(once.edges, inner);
    assert BlocksWithin(once.blocks, inner) == BlocksWithin(c.blocks, inner);
    assert Extracted(once, inner).levels == Extracted(c, inner).levels;
  }

  /** Every view inside the Head window invariant is complete. */
  lemma HeadWindowComplete(c: Core)
    requires HeadWindow(c)
    ensures Complete(c)
  {
    forall level: nat | Needs(c.edges, c.extent, level)
      ensures level in c.levels
    {
      if level in EndLevels(c.edges) && level !in ParentLevels(c.edges) {
        var id := EndOf(c.edges, level);
        assert c.extent.ContainsLevel(level);
      }
    }
  }

  /** What storage promises about the snapshots of a committed block. */
  predicate SnapshotsCover(b: BlockCommitted) {
    && Covered(b, b.coordinate.level)
    && forall p :: p in b.directParents && p.coordinate.Some? ==> Covered(b, p.coordinate.value.level)
  }

  lemma ProjectedLevel(c: Core, b: BlockCommitted, level: nat)
    requires Complete(c) && SnapshotsCover(b)
    requires Needs(Projected(c, b, c.extent).edges, c.extent, level)
    ensures level in Projected(c, b, c.extent).levels
  {
    var es := RetainedEdges(b, b.directParents, c.extent);
    var edges := c.edges + EdgeMap(es);
    MaterializeKeys(c.levels, b.levelSnapshots, c.edges, c.extent, es, level);
    hide Materialize, RetainedEdges;
    if level in EndLevels(edges) {
      var id := EndOf(edges, level);
      if id in EdgeMap(es) {
        RetainedEndCovered(b, c.extent, es, EdgeMap(es)[id], level);
        assert Admits(c.edges, c.extent, es, level);
      } else {
        EndLevel(c.edges, id);
        assert Needs(c.edges, c.extent, level);
      }
    } else {
      assert Needs(c.edges, c.extent, level);
    }
  }

  lemma ProjectedComplete(c: Core, b: BlockCommitted)
    requires Complete(c) && SnapshotsCover(b)
    ensures Complete(Projected(c, b, c.extent))
  {
    var after := Projected(c, b, c.extent);
    assert forall id :: id in after.edges ==> after.edges[id].id == id by {
      hide Materialize, RetainedEdges, SnapshotsCover, Needs;
    }
    forall level: nat | Needs(after.edges, after.extent, level)
      ensures level in after.levels
    {
      ProjectedLevel(c, b, level);
    }
    hide Projected, SnapshotsCover, Needs;
  }

  /** A Fixed view stays complete when snapshots cover the levels a block touches. */
  lemma FixedCommitKeepsComplete(c: Core, head: Core, b: BlockCommitted, timestamp: nat)
    requires Complete(c) && SnapshotsCover(b)
    ensures Complete(FixedCommit(c, head, b, timestamp).0)
  {
    ProjectedComplete(c, b);
    hide Projected, SnapshotsCover, Needs, BlockDelta, Silent;
  }

  lemma FixedVspcKeepsComplete(c: Core, head: Core, v: VspcCommitted, timestamp: nat)
    requires Complete(c)
    ensures Complete(FixedVspc(c, head, v, timestamp).0)
  {
    hide Needs, FieldDelta, Silent, Rescored, FixedMetadata;
    var after := FixedVspc(c, head, v, timestamp).0;
    assert after.levels.Keys == c.levels.Keys && after.edges == c.edges && after.extent == c.extent;
  }

  lemma RetainedEndCovered(b: BlockCommitted, extent: LevelExtent, es: seq<Edge>, e: Edge, level: nat)
    requires es == RetainedEdges(b, b.directParents, extent) && e in es
    requires e.ParentLevel() == level || e.ChildLevel() == level
    requires SnapshotsCover(b)
    ensures level in Endpoints(es) && Covered(b, level)
  {
  }
}
