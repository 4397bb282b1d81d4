/** Values of the canonical graph: coordinates, blocks, edges, levels, committed
    updates and graph deltas. */
module Graph {
  import opened Maps

  /** A 256-bit block identity; only equality matters. */
  type BlockHash = nat

  datatype Coordinate = Coordinate(level: nat, slot: nat)

  datatype Color = Gray | Blue | Red

  datatype Level = Level(size: nat, daaScore: Option<nat>)

  datatype EdgeId = EdgeId(parent: BlockHash, child: BlockHash)

  datatype Edge = Edge(id: EdgeId, parentCoordinate: Coordinate, childCoordinate: Coordinate)
  {
    function ParentLevel(): nat { parentCoordinate.level }
    function ChildLevel(): nat { childCoordinate.level }
  }

  datatype Block = Block(
    hash: BlockHash,
    coordinate: Coordinate,
    timestamp: nat,
    daaScore: nat,
    selectedParentIndex: Option<nat>,
    directParents: seq<BlockHash>,
    blueMergeSet: seq<BlockHash>,
    redMergeSet: seq<BlockHash>,
    color: Color,
    isInVspc: bool)

  type Blocks = map<BlockHash, Block>
  type Edges = map<EdgeId, Edge>

  /** An inclusive nominal extent of levels. */
  datatype LevelExtent = LevelExtent(low: nat, high: nat)
  {
    predicate Valid() { 1 <= low <= high }
    predicate ContainsLevel(level: nat) { low <= level <= high }
    predicate ContainsExtent(other: LevelExtent) { low <= other.low && other.high <= high }
    predicate Overlaps(other: LevelExtent) { low <= other.high && other.low <= high }
    predicate IntersectsSpan(parentLevel: nat, childLevel: nat) { childLevel >= low && parentLevel <= high }
    function Depth(): nat requires Valid() { high - low + 1 }
  }

  /** The Head window of a given depth: the lower bound saturates at level one. */
  function Window(high: nat, maxDepth: nat): LevelExtent
    requires 1 <= maxDepth
  {
    LevelExtent(if high <= maxDepth then 1 else high - (maxDepth - 1), high)
  }

  datatype TrackingPolicy = Head | Fixed | Frozen

  // Committed updates received from storage.

  datatype ParentCommitted = ParentCommitted(hash: BlockHash, coordinate: Option<Coordinate>)

  datatype LevelCommitted = LevelCommitted(level: nat, size: nat, daaScore: Option<nat>)

  datatype BlockCommitted = BlockCommitted(
    hash: BlockHash,
    coordinate: Coordinate,
    timestamp: nat,
    daaScore: nat,
    selectedParentIndex: Option<nat>,
    directParents: seq<ParentCommitted>,
    blueMergeSet: seq<BlockHash>,
    redMergeSet: seq<BlockHash>,
    color: Color,
    isInVspc: bool,
    levelSnapshots: seq<LevelCommitted>)

  datatype VspcCommitted = VspcCommitted(
    removed: seq<BlockHash>,
    added: seq<BlockHash>,
    levelSnapshots: seq<LevelCommitted>)

  // Graph deltas.

  datatype FieldChange<T> = FieldChange(before: T, after: T)

  /** A level is absent or carries its complete value on either side of a change. */
  type LevelChange = FieldChange<Option<Level>>

  /** One forward graph transition. The level changes carry at most one entry
      for a level, so they are a map. */
  datatype Delta = Delta(
    fromRevision: nat,
    toRevision: nat,
    timestamp: nat,
    headLevel: nat,
    blocks: map<BlockHash, Option<Block>>,
    edges: map<EdgeId, Option<Edge>>,
    levels: map<nat, LevelChange>,
    vspc: map<BlockHash, FieldChange<bool>>,
    colors: map<BlockHash, FieldChange<Color>>)
}
