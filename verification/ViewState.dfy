/** The complete stored state of a graph view and its coherence. */
module ViewState {
  import opened Maps
  import opened Graph
  import opened Core
  import opened Indexes

  datatype View = View(
    maxDepth: nat,
    extent: LevelExtent,
    revision: nat,
    timestamp: nat,
    policy: TrackingPolicy,
    levels: map<nat, StoredLevel>,
    blocks: Blocks,
    edges: Edges,
    blocksByLevel: BlockIndex,
    parentsByChild: ParentIndex,
    edgesBySpan: SpanIndex)

  function Values(levels: map<nat, StoredLevel>): map<nat, Level> {
    map level | level in levels :: levels[level].value
  }

  function CoreOf(v: View): Core {
    Core(v.maxDepth, v.extent, v.revision, v.timestamp, v.policy, Values(v.levels), v.blocks, v.edges)
  }

  ghost predicate EdgesIndexed(edges: Edges, parents: ParentIndex, spans: SpanIndex) {
    && (forall id :: id in edges ==> edges[id].id == id)
    && ParentsIndexed(edges, parents) && SpansIndexed(edges, spans)
  }

  lemma IndexEdges(edges: Edges, parents: ParentIndex, spans: SpanIndex, e: Edge)
    requires EdgesIndexed(edges, parents, spans) && e.id !in edges
    ensures EdgesIndexed(edges[e.id := e], Enter(parents, e.id.child, e.id.parent), EnterSpan(spans, e))
  {
    hide ParentsIndexed, SpansIndexed;
    IndexParent(edges, parents, e);
    IndexSpan(edges, spans, e);
  }

  lemma UnindexEdges(edges: Edges, parents: ParentIndex, spans: SpanIndex, id: EdgeId)
    requires EdgesIndexed(edges, parents, spans) && id in edges
    ensures edges[id].id == id
    ensures EdgesIndexed(edges - {id}, Leave(parents, id.child, id.parent), LeaveSpan(spans, edges[id]))
  {
    hide ParentsIndexed, SpansIndexed;
    UnindexParent(edges, parents, id);
    UnindexSpan(edges, spans, id);
  }

  lemma CountEdge(edges: Edges, levels: map<nat, StoredLevel>, e: Edge)
    requires UsageCounted(edges, levels) && e.id !in edges && e.ParentLevel() in levels
    ensures UsageCounted(edges[e.id := e],
                         levels[e.ParentLevel() := StoredLevel(levels[e.ParentLevel()].value, levels[e.ParentLevel()].usageCount + 1)])
  {
    forall level: nat { UsageAdds(edges, e, level); }
  }

  /** The count of a retained edge's parent level is positive, so it can fall. */
  lemma UncountEdge(edges: Edges, levels: map<nat, StoredLevel>, id: EdgeId)
    requires UsageCounted(edges, levels) && id in edges && edges[id].ParentLevel() in levels
    ensures var level := edges[id].ParentLevel();
            && levels[level].usageCount > 0
            && UsageCounted(edges - {id}, levels[level := StoredLevel(levels[level].value, levels[level].usageCount - 1)])
  {
    forall level: nat { UsageDrops(edges, id, level); }
  }

  /** Every index equals a rebuild and every count equals the edges it counts. */
  ghost predicate Coherent(v: View) {
    && Grounded(v.edges, Values(v.levels))
    && BlocksIndexed(v.blocks, v.blocksByLevel)
    && EdgesIndexed(v.edges, v.parentsByChild, v.edgesBySpan)
    && UsageCounted(v.edges, v.levels)
  }

  /** The observable state decides the whole stored state of a coherent view. */
  lemma CoherentDecides(a: View, b: View)
    requires Coherent(a) && Coherent(b) && CoreOf(a) == CoreOf(b)
    ensures a == b
  {
    forall level
      ensures Bucket(a.blocksByLevel, level) == Bucket(b.blocksByLevel, level)
    {
      assert Bucket(a.blocksByLevel, level) == HashesAt(a.blocks, level) && Bucket(b.blocksByLevel, level) == HashesAt(b.blocks, level);
    }
    BucketsDecide(a.blocksByLevel, b.blocksByLevel);
    forall child
      ensures Bucket(a.parentsByChild, child) == Bucket(b.parentsByChild, child)
    {
      assert Bucket(a.parentsByChild, child) == ParentsOf(a.edges, child) && Bucket(b.parentsByChild, child) == ParentsOf(b.edges, child);
    }
    BucketsDecide(a.parentsByChild, b.parentsByChild);
    SpansDecide(a.edges, a.edgesBySpan, b.edgesBySpan);
    assert Values(a.levels).Keys == a.levels.Keys && Values(b.levels).Keys == b.levels.Keys;
    forall level | level in a.levels
      ensures a.levels[level] == b.levels[level]
    {
      assert Values(a.levels)[level] == Values(b.levels)[level];
    }
    assert a.levels == b.levels;
  }
}
