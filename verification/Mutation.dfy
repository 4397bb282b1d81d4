/** Before-values captured while a view mutates, and the changes they finish to. */
module Mutation {
  import opened Maps
  import opened Graph
  import opened Core

  datatype Mutation = Mutation(
    blocks: map<BlockHash, Option<Block>>,
    edges: map<EdgeId, Option<Edge>>,
    levels: map<nat, Option<Level>>,
    vspc: map<BlockHash, bool>,
    colors: map<BlockHash, Color>)

  const Fresh := Mutation(map[], map[], map[], map[], map[])

  /** The first capture of a key wins. */
  function Capture<K, V>(captured: map<K, V>, k: K, before: V): map<K, V> {
    if k in captured then captured else captured[k := before]
  }

  /** Captured values are the original ones and no changed key is missing. */
  ghost predicate Captures<K(!new), V>(captured: map<K, Option<V>>, before: map<K, V>, now: map<K, V>) {
    && (forall k :: k in captured ==> captured[k] == Get(before, k))
    && (forall k :: k !in captured ==> Get(now, k) == Get(before, k))
  }

  lemma CaptureStep<K(!new), V>(captured: map<K, Option<V>>, before: map<K, V>, now: map<K, V>, k: K, next: map<K, V>)
    requires Captures(captured, before, now)
    requires forall j :: j != k ==> Get(next, j) == Get(now, j)
    ensures Captures(Capture(captured, k, Get(now, k)), before, next)
  {
  }

  function Changes<K, V(==)>(captured: map<K, Option<V>>, now: map<K, V>): map<K, Option<V>> {
    map k | k in captured && captured[k] != Get(now, k) :: Get(now, k)
  }

  lemma ChangesAreDiff<K(!new), V>(captured: map<K, Option<V>>, before: map<K, V>, now: map<K, V>)
    requires Captures(captured, before, now)
    ensures Changes(captured, now) == Diff(before, now)
  {
    forall k
      ensures Get(Changes(captured, now), k) == Get(Diff(before, now), k)
    {
    }
    MapsEqual(Changes(captured, now), Diff(before, now));
  }

  function LevelChanges(captured: map<nat, Option<Level>>, now: map<nat, Level>): map<nat, LevelChange> {
    map level | level in captured && captured[level] != Get(now, level) :: FieldChange(captured[level], Get(now, level))
  }

  lemma LevelChangesAreDiff(captured: map<nat, Option<Level>>, before: map<nat, Level>, now: map<nat, Level>)
    requires Captures(captured, before, now)
    ensures LevelChanges(captured, now) == LevelDiff(before, now)
  {
    forall level
      ensures Get(LevelChanges(captured, now), level) == Get(LevelDiff(before, now), level)
    {
    }
    MapsEqual(LevelChanges(captured, now), LevelDiff(before, now));
  }

  /** Membership and colour captures of blocks that stay retained throughout. */
  ghost predicate CapturesFields(m: Mutation, before: Blocks, now: Blocks) {
    && before.Keys == now.Keys
    && m.vspc.Keys <= before.Keys && m.colors.Keys <= before.Keys
    && (forall h :: h in m.vspc ==> m.vspc[h] == before[h].isInVspc)
    && (forall h :: h in m.colors ==> m.colors[h] == before[h].color)
    && (forall h :: h in before && h !in m.vspc ==> now[h].isInVspc == before[h].isInVspc)
    && (forall h :: h in before && h !in m.colors ==> now[h].color == before[h].color)
  }

  function VspcChanges(captured: map<BlockHash, bool>, now: Blocks): map<BlockHash, FieldChange<bool>> {
    map h | h in captured && h in now && captured[h] != now[h].isInVspc :: FieldChange(captured[h], now[h].isInVspc)
  }

  function ColorChanges(captured: map<BlockHash, Color>, now: Blocks): map<BlockHash, FieldChange<Color>> {
    map h | h in captured && h in now && captured[h] != now[h].color :: FieldChange(captured[h], now[h].color)
  }

  lemma FieldChangesAreDiff(m: Mutation, before: Blocks, now: Blocks)
    requires CapturesFields(m, before, now)
    ensures VspcChanges(m.vspc, now) == VspcDiff(before, now)
    ensures ColorChanges(m.colors, now) == ColorDiff(before, now)
  {
    forall h
      ensures Get(VspcChanges(m.vspc, now), h) == Get(VspcDiff(before, now), h)
      ensures Get(ColorChanges(m.colors, now), h) == Get(ColorDiff(before, now), h)
    {
    }
    MapsEqual(VspcChanges(m.vspc, now), VspcDiff(before, now));
    MapsEqual(ColorChanges(m.colors, now), ColorDiff(before, now));
  }

  /** The delta that finishing a mutation would publish. */
  function Finished(m: Mutation, revision: nat, timestamp: nat, headLevel: nat, blocks: Blocks, edges: Edges, levels: map<nat, Level>): Delta {
    Delta(revision, revision + 1, timestamp, headLevel,
          Changes(m.blocks, blocks), Changes(m.edges, edges), LevelChanges(m.levels, levels),
          VspcChanges(m.vspc, blocks), ColorChanges(m.colors, blocks))
  }

  ghost predicate BlockCaptures(m: Mutation, before: Core, now: Core) {
    && m.vspc == map[] && m.colors == map[]
    && Captures(m.blocks, before.blocks, now.blocks)
    && Captures(m.edges, before.edges, now.edges)
    && Captures(m.levels, before.levels, now.levels)
  }

  /** A materialization's captures finish to the exact difference it made. */
  lemma FinishedIsBlockDelta(m: Mutation, before: Core, now: Core, timestamp: nat)
    requires BlockCaptures(m, before, now) && now.revision == before.revision
    ensures Finished(m, now.revision, timestamp, now.extent.high, now.blocks, now.edges, now.levels) == BlockDelta(before, now, timestamp)
  {
    ChangesAreDiff(m.blocks, before.blocks, now.blocks);
    ChangesAreDiff(m.edges, before.edges, now.edges);
    LevelChangesAreDiff(m.levels, before.levels, now.levels);
  }

  /** A VSPC transition's captures finish to the exact difference it made. */
  lemma FinishedIsFieldDelta(m: Mutation, before: Core, now: Core, timestamp: nat)
    requires m.blocks == map[] && m.edges == map[] && now.revision == before.revision && now.edges == before.edges
    requires CapturesFields(m, before.blocks, now.blocks)
    requires Captures(m.levels, before.levels, now.levels)
    ensures Finished(m, now.revision, timestamp, now.extent.high, now.blocks, now.edges, now.levels) == FieldDelta(before, now, timestamp)
  {
    FieldChangesAreDiff(m, before.blocks, now.blocks);
    LevelChangesAreDiff(m.levels, before.levels, now.levels);
  }
}
