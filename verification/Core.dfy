/** The observable state of a graph view and the meaning of every operation on
    it, without derived indexes and reference counts. */
module Core {
  import opened Maps
  import opened Graph

  datatype Core = Core(
    maxDepth: nat,
    extent: LevelExtent,
    revision: nat,
    timestamp: nat,
    policy: TrackingPolicy,
    levels: map<nat, Level>,
    blocks: Blocks,
    edges: Edges)
  {
    predicate Shaped() { 1 <= maxDepth && extent.Valid() }

    /** The extent a Head view must have for replay to leave its bounds alone. */
    predicate Normalised() requires 1 <= maxDepth { extent == Window(extent.high, maxDepth) }

    predicate SameGraph(other: Core) {
      levels == other.levels && blocks == other.blocks && edges == other.edges
    }
  }

  function ParentLevels(edges: Edges): set<nat> {
    set id | id in edges :: edges[id].ParentLevel()
  }

  /** Every retained edge is stored under its own identity and its parent level
      is retained. */
  predicate Grounded(edges: Edges, levels: map<nat, Level>) {
    forall id :: id in edges ==> edges[id].id == id && edges[id].ParentLevel() in levels
  }

  // ----- Replay ---------------------------------------------------------

  function Afters(changes: map<nat, LevelChange>): map<nat, Option<Level>> {
    map level | level in changes :: changes[level].after
  }

  function WithFields(b: Block, h: BlockHash, vspc: map<BlockHash, FieldChange<bool>>, colors: map<BlockHash, FieldChange<Color>>): Block {
    b.(isInVspc := if h in vspc then vspc[h].after else b.isInVspc,
       color := if h in colors then colors[h].after else b.color)
  }

  function ApplyFields(blocks: Blocks, vspc: map<BlockHash, FieldChange<bool>>, colors: map<BlockHash, FieldChange<Color>>): Blocks {
    map h | h in blocks :: WithFields(blocks[h], h, vspc, colors)
  }

  /** What applying a delta does to a mutable view at the delta's source. */
  function Replay(c: Core, d: Delta): Core
    requires 1 <= c.maxDepth
  {
    c.(extent := if c.policy.Head? then Window(d.headLevel, c.maxDepth) else c.extent,
       revision := d.toRevision,
       timestamp := d.timestamp,
       levels := Patch(c.levels, Afters(d.levels)),
       blocks := ApplyFields(Patch(c.blocks, d.blocks), d.vspc, d.colors),
       edges := Patch(c.edges, d.edges))
  }

  // ----- Committed blocks ----------------------------------------------

  function BlockOf(b: BlockCommitted): Block {
    Block(b.hash, b.coordinate, b.timestamp, b.daaScore, b.selectedParentIndex,
          seq(|b.directParents|, i requires 0 <= i < |b.directParents| => b.directParents[i].hash),
          b.blueMergeSet, b.redMergeSet, b.color, b.isInVspc)
  }

  predicate Retains(b: BlockCommitted, parent: ParentCommitted, extent: LevelExtent) {
    parent.coordinate.Some? && extent.IntersectsSpan(parent.coordinate.value.level, b.coordinate.level)
  }

  function EdgeTo(b: BlockCommitted, parent: ParentCommitted): Edge
    requires parent.coordinate.Some?
  {
    Edge(EdgeId(parent.hash, b.hash), parent.coordinate.value, b.coordinate)
  }

  /** The block's edges whose span meets the extent, in parent order. */
  function RetainedEdges(b: BlockCommitted, parents: seq<ParentCommitted>, extent: LevelExtent): (es: seq<Edge>)
    ensures forall e :: e in es <==>
              exists p :: p in parents && Retains(b, p, extent) && e == EdgeTo(b, p)
  {
    if parents == [] then []
    else
      var last := parents[|parents| - 1];
      var front := RetainedEdges(b, parents[..|parents| - 1], extent);
      assert parents == parents[..|parents| - 1] + [last];
      if Retains(b, last, extent) then front + [EdgeTo(b, last)] else front
  }

  function EdgeMap(es: seq<Edge>): (m: Edges)
    ensures forall id :: id in m ==> m[id] in es && m[id].id == id
    ensures forall e :: e in es ==> e.id in m
  {
    if es == [] then map[]
    else
      var last := es[|es| - 1];
      EdgeMap(es[..|es| - 1])[last.id := last]
  }

  function Endpoints(es: seq<Edge>): set<nat> {
    (set e | e in es :: e.ParentLevel()) + (set e | e in es :: e.ChildLevel())
  }

  /** The levels whose snapshots a commit may record. */
  predicate Admits(edges: Edges, extent: LevelExtent, es: seq<Edge>, level: nat) {
    extent.ContainsLevel(level) || level in ParentLevels(edges) || level in Endpoints(es)
  }

  /** A materialization snapshot owns the size; it supplies the score only for a
      level that was absent. */
  function Materialized(previous: Option<Level>, s: LevelCommitted): Level {
    if previous.Some? then previous.value.(size := s.size) else Level(s.size, s.daaScore)
  }

  function Materialize(levels: map<nat, Level>, snapshots: seq<LevelCommitted>, edges: Edges, extent: LevelExtent, es: seq<Edge>): map<nat, Level> {
    if snapshots == [] then levels
    else
      var s := snapshots[|snapshots| - 1];
      var front := Materialize(levels, snapshots[..|snapshots| - 1], edges, extent, es);
      if Admits(edges, extent, es, s.level) then front[s.level := Materialized(Get(front, s.level), s)] else front
  }

  /** The committed block, its edges and its level snapshots, projected on an extent. */
  function Projected(c: Core, b: BlockCommitted, extent: LevelExtent): Core {
    var es := RetainedEdges(b, b.directParents, extent);
    c.(blocks := if extent.ContainsLevel(b.coordinate.level) then c.blocks[b.hash := BlockOf(b)] else c.blocks,
       levels := Materialize(c.levels, b.levelSnapshots, c.edges, extent, es),
       edges := c.edges + EdgeMap(es))
  }

  /** Drops blocks below a level, the edges those blocks own as children, and the
      levels below it that no remaining edge uses. */
  function Pruned(c: Core, low: nat): Core {
    var blocks := map h | h in c.blocks && c.blocks[h].coordinate.level >= low :: c.blocks[h];
    var edges := map id | id in c.edges && !(id.child in c.blocks && id.child !in blocks) :: c.edges[id];
    c.(blocks := blocks,
       edges := edges,
       levels := map level | level in c.levels && (level >= low || level in ParentLevels(edges)) :: c.levels[level])
  }

  /** What storage guarantees about a committed block with respect to a view. */
  predicate Admissible(c: Core, b: BlockCommitted, extent: LevelExtent) {
    var es := RetainedEdges(b, b.directParents, extent);
    && (extent.ContainsLevel(b.coordinate.level) ==> b.hash !in c.blocks)
    && (forall e :: e in es && e.id in c.edges ==> c.edges[e.id] == e)
    && (forall e, f :: e in es && f in es && e.id == f.id ==> e == f)
    && (forall e :: e in es ==>
          e.ParentLevel() in c.levels || exists s :: s in b.levelSnapshots && s.level == e.ParentLevel())
  }

  function HeadTarget(c: Core, b: BlockCommitted): LevelExtent
    requires c.Shaped()
  {
    Window(if c.extent.high < b.coordinate.level then b.coordinate.level else c.extent.high, c.maxDepth)
  }

  function HeadGraph(c: Core, b: BlockCommitted): Core
    requires c.Shaped()
  {
    var target := HeadTarget(c, b);
    Pruned(Projected(c, b, target), target.low).(extent := target)
  }

  // ----- Committed VSPC transitions --------------------------------------

  datatype Metadata = Metadata(blue: seq<BlockHash>, red: seq<BlockHash>)

  function MetadataOf(b: Block): Metadata { Metadata(b.blueMergeSet, b.redMergeSet) }

  /** Colour after one added block recolours its blue and then its red merge set. */
  function Recolored(color: Color, h: BlockHash, m: Metadata): Color {
    if h in m.red then Red else if h in m.blue then Blue else color
  }

  function Recolor(color: Color, h: BlockHash, ms: seq<Metadata>): Color {
    if ms == [] then color
    else Recolored(Recolor(color, h, ms[..|ms| - 1]), h, ms[|ms| - 1])
  }

  function VspcBlock(b: Block, h: BlockHash, v: VspcCommitted, ms: seq<Metadata>): Block {
    b.(isInVspc := if h in v.added then true else if h in v.removed then false else b.isInVspc,
       color := Recolor(if h in v.removed then Gray else b.color, h, ms))
  }

  /** A VSPC snapshot owns the score of a retained level and nothing else. */
  function Rescored(levels: map<nat, Level>, snapshots: seq<LevelCommitted>): (r: map<nat, Level>)
    ensures r.Keys == levels.Keys
  {
    if snapshots == [] then levels
    else
      var s := snapshots[|snapshots| - 1];
      var front := Rescored(levels, snapshots[..|snapshots| - 1]);
      if s.level in front then front[s.level := front[s.level].(daaScore := s.daaScore)] else front
  }

  function VspcGraph(c: Core, v: VspcCommitted, ms: seq<Metadata>): Core {
    c.(blocks := map h | h in c.blocks :: VspcBlock(c.blocks[h], h, v, ms),
       levels := Rescored(c.levels, v.levelSnapshots))
  }

  /** Metadata of the added blocks a Head view still retains, in order. */
  function HeadMetadata(blocks: Blocks, added: seq<BlockHash>): seq<Metadata> {
    if added == [] then []
    else
      var h := added[|added| - 1];
      var front := HeadMetadata(blocks, added[..|added| - 1]);
      if h in blocks then front + [MetadataOf(blocks[h])] else front
  }

  /** Metadata resolved from a Fixed view first and the Head view second; absent
      when any added block is known to neither. */
  function FixedMetadata(own: Blocks, head: Blocks, added: seq<BlockHash>): Option<seq<Metadata>> {
    if added == [] then Some([])
    else
      var h := added[|added| - 1];
      var front := FixedMetadata(own, head, added[..|added| - 1]);
      if front.None? then None
      else if h in own then Some(front.value + [MetadataOf(own[h])])
      else if h in head then Some(front.value + [MetadataOf(head[h])])
      else None
  }

  // ----- Emission -------------------------------------------------------

  function LevelDiff(before: map<nat, Level>, after: map<nat, Level>): map<nat, LevelChange> {
    map level | level in before.Keys + after.Keys && Get(before, level) != Get(after, level) ::
      FieldChange(Get(before, level), Get(after, level))
  }

  function VspcDiff(before: Blocks, after: Blocks): map<BlockHash, FieldChange<bool>> {
    map h | h in before && h in after && before[h].isInVspc != after[h].isInVspc ::
      FieldChange(before[h].isInVspc, after[h].isInVspc)
  }

  function ColorDiff(before: Blocks, after: Blocks): map<BlockHash, FieldChange<Color>> {
    map h | h in before && h in after && before[h].color != after[h].color ::
      FieldChange(before[h].color, after[h].color)
  }

  /** The delta of a materialization: whole blocks, edges and level values. */
  function BlockDelta(before: Core, after: Core, timestamp: nat): Delta {
    Delta(before.revision, before.revision + 1, timestamp, after.extent.high,
          Diff(before.blocks, after.blocks), Diff(before.edges, after.edges),
          LevelDiff(before.levels, after.levels), map[], map[])
  }

  /** The delta of a VSPC transition: projected fields and level values only. */
  function FieldDelta(before: Core, after: Core, timestamp: nat): Delta {
    Delta(before.revision, before.revision + 1, timestamp, after.extent.high,
          map[], map[], LevelDiff(before.levels, after.levels),
          VspcDiff(before.blocks, after.blocks), ColorDiff(before.blocks, after.blocks))
  }

  predicate Silent(d: Delta) {
    d.blocks == map[] && d.edges == map[] && d.levels == map[] && d.vspc == map[] && d.colors == map[]
  }

  /** Publishes a graph under the next revision when its delta shows a change. */
  function Published(after: Core, d: Delta): (Core, Option<Delta>) {
    if Silent(d) then (after, None)
    else (after.(revision := d.toRevision, timestamp := d.timestamp), Some(d))
  }

  function HeadCommit(c: Core, b: BlockCommitted, timestamp: nat): (Core, Option<Delta>)
    requires c.Shaped()
  {
    var after := HeadGraph(c, b);
    Published(after, BlockDelta(c, after, timestamp))
  }

  function HeadVspc(c: Core, v: VspcCommitted, timestamp: nat): (Core, Option<Delta>) {
    var after := VspcGraph(c, v, HeadMetadata(c.blocks, v.added));
    Published(after, FieldDelta(c, after, timestamp))
  }

  function FixedCommit(c: Core, head: Core, b: BlockCommitted, timestamp: nat): (Core, Option<Delta>) {
    if !c.extent.Overlaps(head.extent) then (c.(policy := Frozen), None)
    else
      var after := Projected(c, b, c.extent);
      Published(after, BlockDelta(c, after, timestamp))
  }

  function FixedVspc(c: Core, head: Core, v: VspcCommitted, timestamp: nat): (Core, Option<Delta>) {
    var ms := FixedMetadata(c.blocks, head.blocks, v.added);
    if !c.extent.Overlaps(head.extent) || ms.None? then (c.(policy := Frozen), None)
    else
      var after := VspcGraph(c, v, ms.value);
      Published(after, FieldDelta(c, after, timestamp))
  }
}
