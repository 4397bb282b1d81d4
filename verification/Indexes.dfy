/** The derived indexes and reference counts of a graph view, specified by what a
    rebuild from the primary maps would hold. */
module Indexes {
  import opened Maps
  import opened Graph
  import opened Core

  datatype StoredLevel = StoredLevel(value: Level, usageCount: nat)

  type BlockIndex = map<nat, set<BlockHash>>
  type ParentIndex = map<BlockHash, set<BlockHash>>
  type SpanIndex = map<nat, map<nat, set<EdgeId>>>

  // ----- Buckets of sets ------------------------------------------------------

  function Bucket<K, V>(index: map<K, set<V>>, k: K): set<V> {
    if k in index then index[k] else {}
  }

  function Enter<K, V>(index: map<K, set<V>>, k: K, v: V): map<K, set<V>> {
    index[k := Bucket(index, k) + {v}]
  }

  /** Removes a member and then its bucket when that became empty. */
  function Leave<K, V>(index: map<K, set<V>>, k: K, v: V): map<K, set<V>> {
    if k !in index then index
    else if index[k] - {v} == {} then index - {k}
    else index[k := index[k] - {v}]
  }

  predicate NoEmpty<K, V>(index: map<K, set<V>>) {
    forall k :: k in index ==> index[k] != {}
  }

  lemma EnterBucket<K, V>(index: map<K, set<V>>, k: K, v: V, j: K)
    ensures Bucket(Enter(index, k, v), j) == if j == k then Bucket(index, k) + {v} else Bucket(index, j)
    ensures NoEmpty(index) ==> NoEmpty(Enter(index, k, v))
  {
  }

  lemma LeaveBucket<K, V>(index: map<K, set<V>>, k: K, v: V, j: K)
    ensures Bucket(Leave(index, k, v), j) == if j == k then Bucket(index, k) - {v} else Bucket(index, j)
    ensures NoEmpty(index) ==> NoEmpty(Leave(index, k, v))
  {
  }

  lemma BucketsDecide<K, V>(a: map<K, set<V>>, b: map<K, set<V>>)
    requires NoEmpty(a) && NoEmpty(b)
    requires forall k :: Bucket(a, k) == Bucket(b, k)
    ensures a == b
  {
    forall k
      ensures Get(a, k) == Get(b, k)
    {
      assert Bucket(a, k) == Bucket(b, k);
    }
    MapsEqual(a, b);
  }

  // ----- Blocks by level -----------------------------------------------------------

  function HashesAt(blocks: Blocks, level: nat): set<BlockHash> {
    set h | h in blocks && blocks[h].coordinate.level == level
  }

  ghost predicate BlocksIndexed(blocks: Blocks, index: BlockIndex) {
    NoEmpty(index) && forall level: nat :: Bucket(index, level) == HashesAt(blocks, level)
  }

  lemma IndexBlock(blocks: Blocks, index: BlockIndex, h: BlockHash, b: Block)
    requires BlocksIndexed(blocks, index) && h !in blocks
    ensures BlocksIndexed(blocks[h := b], Enter(index, b.coordinate.level, h))
  {
    forall level: nat
      ensures Bucket(Enter(index, b.coordinate.level, h), level) == HashesAt(blocks[h := b], level)
    {
      EnterBucket(index, b.coordinate.level, h, level);
      assert Bucket(index, level) == HashesAt(blocks, level);
    }
  }

  lemma UnindexBlock(blocks: Blocks, index: BlockIndex, h: BlockHash)
    requires BlocksIndexed(blocks, index) && h in blocks
    ensures BlocksIndexed(blocks - {h}, Leave(index, blocks[h].coordinate.level, h))
  {
    forall level: nat
      ensures Bucket(Leave(index, blocks[h].coordinate.level, h), level) == HashesAt(blocks - {h}, level)
    {
      LeaveBucket(index, blocks[h].coordinate.level, h, level);
      assert Bucket(index, level) == HashesAt(blocks, level);
    }
  }

  lemma ReindexBlock(blocks: Blocks, index: BlockIndex, h: BlockHash, b: Block)
    requires BlocksIndexed(blocks, index) && h in blocks && blocks[h].coordinate.level == b.coordinate.level
    ensures BlocksIndexed(blocks[h := b], index)
    ensures Enter(index, b.coordinate.level, h) == index
  {
    assert Bucket(index, b.coordinate.level) == HashesAt(blocks, b.coordinate.level);
    assert h in HashesAt(blocks, b.coordinate.level);
    assert Bucket(index, b.coordinate.level) + {h} == Bucket(index, b.coordinate.level);
    assert index[b.coordinate.level := Bucket(index, b.coordinate.level)] == index;
    forall level: nat
      ensures Bucket(index, level) == HashesAt(blocks[h := b], level)
    {
      assert Bucket(index, level) == HashesAt(blocks, level);
    }
  }

  // ----- Parents by child ------------------------------------------------------------

  function ParentsOf(edges: Edges, child: BlockHash): set<BlockHash> {
    set id | id in edges && id.child == child :: id.parent
  }

  ghost predicate ParentsIndexed(edges: Edges, index: ParentIndex) {
    NoEmpty(index) && forall child: BlockHash :: Bucket(index, child) == ParentsOf(edges, child)
  }

  lemma IndexParent(edges: Edges, index: ParentIndex, e: Edge)
    requires ParentsIndexed(edges, index) && e.id !in edges
    ensures ParentsIndexed(edges[e.id := e], Enter(index, e.id.child, e.id.parent))
  {
    forall child: BlockHash
      ensures Bucket(Enter(index, e.id.child, e.id.parent), child) == ParentsOf(edges[e.id := e], child)
    {
      EnterBucket(index, e.id.child, e.id.parent, child);
      assert Bucket(index, child) == ParentsOf(edges, child);
      assert e.id in edges[e.id := e];
    }
  }

  lemma UnindexParent(edges: Edges, index: ParentIndex, id: EdgeId)
    requires ParentsIndexed(edges, index) && id in edges
    ensures ParentsIndexed(edges - {id}, Leave(index, id.child, id.parent))
  {
    forall child: BlockHash
      ensures Bucket(Leave(index, id.child, id.parent), child) == ParentsOf(edges - {id}, child)
    {
      LeaveBucket(index, id.child, id.parent, child);
      assert Bucket(index, child) == ParentsOf(edges, child);
      forall p
        ensures p in ParentsOf(edges - {id}, child) <==> p in ParentsOf(edges, child) && !(child == id.child && p == id.parent)
      {
        if p in ParentsOf(edges, child) {
          var other :| other in edges && other.child == child && other.parent == p;
          assert other == EdgeId(p, child);
        }
      }
    }
  }

  // ----- Edges by span -----------------------------------------------------------------

  function Span(index: SpanIndex, childLevel: nat, parentLevel: nat): set<EdgeId> {
    if childLevel in index then Bucket(index[childLevel], parentLevel) else {}
  }

  function IdsAt(edges: Edges, childLevel: nat, parentLevel: nat): set<EdgeId> {
    set id | id in edges && edges[id].ChildLevel() == childLevel && edges[id].ParentLevel() == parentLevel
  }

  function EnterSpan(index: SpanIndex, e: Edge): SpanIndex {
    var inner := if e.ChildLevel() in index then index[e.ChildLevel()] else map[];
    index[e.ChildLevel() := Enter(inner, e.ParentLevel(), e.id)]
  }

  /** Removes an edge, then its inner bucket and then its outer bucket if empty. */
  function LeaveSpan(index: SpanIndex, e: Edge): SpanIndex {
    if e.ChildLevel() !in index then index
    else
      var inner := Leave(index[e.ChildLevel()], e.ParentLevel(), e.id);
      if inner == map[] then index - {e.ChildLevel()} else index[e.ChildLevel() := inner]
  }

  predicate NoEmptySpan(index: SpanIndex) {
    forall level :: level in index ==> index[level] != map[] && NoEmpty(index[level])
  }

  ghost predicate SpansIndexed(edges: Edges, index: SpanIndex) {
    NoEmptySpan(index) && forall childLevel: nat, parentLevel: nat :: Span(index, childLevel, parentLevel) == IdsAt(edges, childLevel, parentLevel)
  }

  lemma EnterSpanIs(index: SpanIndex, e: Edge, c: nat, p: nat)
    ensures Span(EnterSpan(index, e), c, p) ==
            if c == e.ChildLevel() && p == e.ParentLevel() then Span(index, c, p) + {e.id} else Span(index, c, p)
    ensures NoEmptySpan(index) ==> NoEmptySpan(EnterSpan(index, e))
  {
    var inner := if e.ChildLevel() in index then index[e.ChildLevel()] else map[];
    EnterBucket(inner, e.ParentLevel(), e.id, p);
    assert e.ParentLevel() in Enter(inner, e.ParentLevel(), e.id);
  }

  lemma LeaveSpanIs(index: SpanIndex, e: Edge, c: nat, p: nat)
    ensures Span(LeaveSpan(index, e), c, p) ==
            if c == e.ChildLevel() && p == e.ParentLevel() then Span(index, c, p) - {e.id} else Span(index, c, p)
    ensures NoEmptySpan(index) ==> NoEmptySpan(LeaveSpan(index, e))
  {
    if e.ChildLevel() in index {
      LeaveBucket(index[e.ChildLevel()], e.ParentLevel(), e.id, p);
    }
  }

  lemma IndexSpan(edges: Edges, index: SpanIndex, e: Edge)
    requires SpansIndexed(edges, index) && e.id !in edges
    ensures SpansIndexed(edges[e.id := e], EnterSpan(index, e))
  {
    forall c: nat, p: nat
      ensures Span(EnterSpan(index, e), c, p) == IdsAt(edges[e.id := e], c, p)
    {
      EnterSpanIs(index, e, c, p);
      assert Span(index, c, p) == IdsAt(edges, c, p);
    }
    EnterSpanIs(index, e, 0, 0);
  }

  lemma UnindexSpan(edges: Edges, index: SpanIndex, id: EdgeId)
    requires SpansIndexed(edges, index) && id in edges && edges[id].id == id
    ensures SpansIndexed(edges - {id}, LeaveSpan(index, edges[id]))
  {
    forall c: nat, p: nat
      ensures Span(LeaveSpan(index, edges[id]), c, p) == IdsAt(edges - {id}, c, p)
    {
      LeaveSpanIs(index, edges[id], c, p);
      assert Span(index, c, p) == IdsAt(edges, c, p);
    }
    LeaveSpanIs(index, edges[id], 0, 0);
  }

  lemma SpansDecide(edges: Edges, a: SpanIndex, b: SpanIndex)
    requires SpansIndexed(edges, a) && SpansIndexed(edges, b)
    ensures a == b
  {
    forall c: nat
      ensures Get(a, c) == Get(b, c)
    {
      SpanRowsAgree(edges, a, b, c);
      SpanRowsAgree(edges, b, a, c);
    }
    MapsEqual(a, b);
  }

  lemma SpanRowsAgree(edges: Edges, a: SpanIndex, b: SpanIndex, c: nat)
    requires SpansIndexed(edges, a) && SpansIndexed(edges, b)
    ensures c in a ==> c in b && a[c] == b[c]
  {
    if c in a {
      var p :| p in a[c];
      assert Span(a, c, p) == IdsAt(edges, c, p) && Span(b, c, p) == IdsAt(edges, c, p);
      assert a[c][p] != {};
      assert c in b;
      forall p
        ensures Bucket(a[c], p) == Bucket(b[c], p)
      {
        assert Span(a, c, p) == IdsAt(edges, c, p) && Span(b, c, p) == IdsAt(edges, c, p);
      }
      BucketsDecide(a[c], b[c]);
    }
  }

  // ----- Usage counts --------------------------------------------------------------------

  /** The number of retained edges whose parent lies on a level. */
  function Usage(edges: Edges, level: nat): nat {
    |UsersOf(edges, level)|
  }

  function UsersOf(edges: Edges, level: nat): set<EdgeId> {
    set id | id in edges && edges[id].ParentLevel() == level
  }

  predicate UsageCounted(edges: Edges, levels: map<nat, StoredLevel>) {
    forall level :: level in levels ==> levels[level].usageCount == Usage(edges, level)
  }

  lemma UsageAdds(edges: Edges, e: Edge, level: nat)
    requires e.id !in edges
    ensures Usage(edges[e.id := e], level) == Usage(edges, level) + if e.ParentLevel() == level then 1 else 0
  {
    assert UsersOf(edges[e.id := e], level) == UsersOf(edges, level) + if e.ParentLevel() == level then {e.id} else {};
  }

  lemma UsageDrops(edges: Edges, id: EdgeId, level: nat)
    requires id in edges
    ensures Usage(edges, level) == Usage(edges - {id}, level) + if edges[id].ParentLevel() == level then 1 else 0
  {
    assert UsersOf(edges, level) == UsersOf(edges - {id}, level) + if edges[id].ParentLevel() == level then {id} else {};
  }

  lemma UsagePositive(edges: Edges, level: nat)
    ensures Usage(edges, level) > 0 <==> level in ParentLevels(edges)
  {
    if Usage(edges, level) > 0 {
      var id :| id in UsersOf(edges, level);
    }
    if level in ParentLevels(edges) {
      var id :| id in edges && edges[id].ParentLevel() == level;
      assert id in UsersOf(edges, level);
    }
  }
}
