/** Replaying an emitted delta reproduces the mutation that emitted it, and the
    retained Head window is an invariant of every committed update. */
module ReplayLaws {
  import opened Maps
  import opened Graph
  import opened Core

  // ----- Level values ------------------------------------------------------

  lemma LevelDiffReplays(before: map<nat, Level>, after: map<nat, Level>)
    ensures Patch(before, Afters(LevelDiff(before, after))) == after
    ensures LevelDiff(before, after) == map[] <==> before == after
  {
    assert Afters(LevelDiff(before, after)) == Diff(before, after);
    PatchDiff(before, after);
    DiffEmpty(before, after);
    assert LevelDiff(before, after).Keys == Diff(before, after).Keys;
  }

  // ----- Projected fields ----------------------------------------------------

  /** Two block maps that differ in colour and VSPC membership only. */
  predicate FieldsOnly(before: Blocks, after: Blocks) {
    && before.Keys == after.Keys
    && forall h :: h in before ==>
         after[h] == before[h].(isInVspc := after[h].isInVspc, color := after[h].color)
  }

  lemma FieldDiffReplays(before: Blocks, after: Blocks)
    requires FieldsOnly(before, after)
    ensures ApplyFields(Patch(before, map[]), VspcDiff(before, after), ColorDiff(before, after)) == after
    ensures VspcDiff(before, after) == map[] && ColorDiff(before, after) == map[] <==> before == after
  {
    assert Patch(before, map[]) == before;
    if VspcDiff(before, after) == map[] && ColorDiff(before, after) == map[] {
      forall h | h in before
        ensures before[h] == after[h]
      {
        assert h !in VspcDiff(before, after) && h !in ColorDiff(before, after);
      }
    }
  }

  // ----- Emitted deltas ------------------------------------------------------

  /** A materialization's delta replays it, and a silent one changed no content. */
  lemma BlockDeltaReplays(before: Core, after: Core, timestamp: nat)
    requires before.Shaped()
    requires after == before.(extent := after.extent, levels := after.levels, blocks := after.blocks, edges := after.edges)
    requires after.extent == if before.policy.Head? then Window(after.extent.high, before.maxDepth) else before.extent
    ensures var d := BlockDelta(before, after, timestamp);
            && Replay(before, d) == after.(revision := d.toRevision, timestamp := timestamp)
            && (Silent(d) <==> before.SameGraph(after))
  {
    PatchDiff(before.blocks, after.blocks);
    PatchDiff(before.edges, after.edges);
    LevelDiffReplays(before.levels, after.levels);
    DiffEmpty(before.blocks, after.blocks);
    DiffEmpty(before.edges, after.edges);
    assert ApplyFields(after.blocks, map[], map[]) == after.blocks;
  }

  /** A VSPC transition's delta replays its content; only a normalised Head extent
      survives the replay unchanged. */
  lemma FieldDeltaReplays(before: Core, after: Core, timestamp: nat)
    requires before.Shaped()
    requires after == before.(levels := after.levels, blocks := after.blocks)
    requires FieldsOnly(before.blocks, after.blocks)
    ensures var d := FieldDelta(before, after, timestamp);
            && Replay(before, d) == after.(
                 extent := if before.policy.Head? then Window(before.extent.high, before.maxDepth) else before.extent,
                 revision := d.toRevision, timestamp := timestamp)
            && (Silent(d) <==> before.SameGraph(after))
  {
    assert Patch(before.edges, map[]) == before.edges;
    hide FieldsOnly, Patch, Afters, ApplyFields, LevelDiff, VspcDiff, ColorDiff, Window;
    LevelDiffReplays(before.levels, after.levels);
    FieldDiffReplays(before.blocks, after.blocks);
  }

  // ----- Replay refines mutation ---------------------------------------------

  /** A block commit on a Head view: replaying the delta gives the mutator's state,
      and no delta means that nothing changed, extent included. */
  lemma HeadCommitReplays(c: Core, b: BlockCommitted, timestamp: nat)
    requires c.Shaped() && c.policy.Head? && c.Normalised()
    requires Admissible(c, b, HeadTarget(c, b))
    ensures var (after, d) := HeadCommit(c, b, timestamp);
            && (d.Some? ==> Replay(c, d.value) == after)
            && (d.None? ==> after == c)
  {
    var after := HeadGraph(c, b);
    BlockDeltaReplays(c, after, timestamp);
    if b.coordinate.level > c.extent.high {
      assert b.hash in after.blocks;
    }
  }

  /** A VSPC commit on a Head view: replay agrees exactly when the extent is
      normalised to the maximum depth. */
  lemma HeadVspcReplays(c: Core, v: VspcCommitted, timestamp: nat)
    requires c.Shaped() && c.policy.Head?
    ensures var (after, d) := HeadVspc(c, v, timestamp);
            && (d.Some? ==> (Replay(c, d.value) == after <==> c.Normalised()))
            && (d.None? ==> after == c)
  {
    var ms := HeadMetadata(c.blocks, v.added);
    FieldDeltaReplays(c, VspcGraph(c, v, ms), timestamp);
  }

  /** A Head view seeded shallower than its maximum depth: a score update emits a
      delta whose replay lowers the window that the update left alone. */
  lemma UnnormalisedVspcDiverges()
    ensures var c := Core(3, LevelExtent(2, 3), 0, 0, Head, map[2 := Level(1, None), 3 := Level(1, None)], map[], map[]);
            var v := VspcCommitted([], [], [LevelCommitted(3, 1, Some(30))]);
            var (after, d) := HeadVspc(c, v, 7);
            && c.Shaped() && d.Some?
            && after.extent.low == 2 && Replay(c, d.value).extent.low == 1
  {
    var c := Core(3, LevelExtent(2, 3), 0, 0, Head, map[2 := Level(1, None), 3 := Level(1, None)], map[], map[]);
    var v := VspcCommitted([], [], [LevelCommitted(3, 1, Some(30))]);
    assert v.levelSnapshots[..0] == [];
    var rescored := Rescored(c.levels, v.levelSnapshots);
    assert 3 in LevelDiff(c.levels, rescored);
  }

  /** A block commit on a Fixed view replays exactly, or freezes it untouched. */
  lemma FixedCommitReplays(c: Core, head: Core, b: BlockCommitted, timestamp: nat)
    requires c.Shaped() && c.policy.Fixed?
    ensures var (after, d) := FixedCommit(c, head, b, timestamp);
            && (d.Some? ==> Replay(c, d.value) == after)
            && (d.None? ==> after == if c.extent.Overlaps(head.extent) then c else c.(policy := Frozen))
  {
    BlockDeltaReplays(c, Projected(c, b, c.extent), timestamp);
  }

  /** A VSPC commit on a Fixed view replays exactly, or freezes it untouched when
      the extents are disjoint or some added block is known to neither view. */
  lemma FixedVspcReplays(c: Core, head: Core, v: VspcCommitted, timestamp: nat)
    requires c.Shaped() && c.policy.Fixed?
    ensures var (after, d) := FixedVspc(c, head, v, timestamp);
            var resolved := forall h :: h in v.added ==> h in c.blocks || h in head.blocks;
            && (d.Some? ==> Replay(c, d.value) == after)
            && (d.None? ==> after == if c.extent.Overlaps(head.extent) && resolved then c else c.(policy := Frozen))
  {
    FixedMetadataResolves(c.blocks, head.blocks, v.added);
    var ms := FixedMetadata(c.blocks, head.blocks, v.added);
    if ms.Some? {
      FieldDeltaReplays(c, VspcGraph(c, v, ms.value), timestamp);
    }
  }

  lemma {:induction false} FixedMetadataResolves(own: Blocks, head: Blocks, added: seq<BlockHash>)
    ensures FixedMetadata(own, head, added).Some? <==> forall h :: h in added ==> h in own || h in head
  {
    if added != [] {
      FixedMetadataResolves(own, head, added[..|added| - 1]);
      assert added == added[..|added| - 1] + [added[|added| - 1]];
    }
  }

  /** The last added block that names a hash decides its colour, red over blue. */
  lemma {:induction false} RecolorIsLastWriter(color: Color, h: BlockHash, ms: seq<Metadata>, i: nat)
    requires i < |ms| && (h in ms[i].blue || h in ms[i].red)
    requires forall j :: i < j < |ms| ==> h !in ms[j].blue && h !in ms[j].red
    ensures Recolor(color, h, ms) == if h in ms[i].red then Red else Blue
  {
    if i < |ms| - 1 {
      RecolorIsLastWriter(color, h, ms[..|ms| - 1], i);
    }
  }

  // ----- The Head window --------------------------------------------------------

  /** What storage promises about a newly committed block: once-only insertion,
      parents on lower levels, at most one new level, and covering snapshots. */
  predicate Stored(c: Core, b: BlockCommitted) {
    && b.hash !in c.blocks
    && 1 <= b.coordinate.level <= c.extent.high + 1
    && Covered(b, b.coordinate.level)
    && (forall p, q :: p in b.directParents && q in b.directParents && p.hash == q.hash ==> p == q)
    && forall p :: p in b.directParents && p.coordinate.Some? ==>
         1 <= p.coordinate.value.level < b.coordinate.level && Covered(b, p.coordinate.value.level)
  }

  predicate Covered(b: BlockCommitted, level: nat) {
    exists s :: s in b.levelSnapshots && s.level == level
  }

  predicate EdgesOwned(blocks: Blocks, edges: Edges) {
    forall id :: id in edges ==>
      && edges[id].id == id
      && id.child in blocks
      && edges[id].childCoordinate == blocks[id.child].coordinate
      && 1 <= edges[id].ParentLevel() < edges[id].ChildLevel()
  }

  /** Retained blocks lie inside the normalised window under their own hash,
      retained edges belong to retained children, and the retained levels are the
      window together with the parent levels of retained edges. */
  ghost predicate HeadWindow(c: Core) {
    && c.Shaped() && c.policy.Head? && c.Normalised()
    && (forall h :: h in c.blocks ==> c.blocks[h].hash == h && c.extent.ContainsLevel(c.blocks[h].coordinate.level))
    && EdgesOwned(c.blocks, c.edges)
    && forall level :: level in c.levels <==> c.extent.ContainsLevel(level) || level in ParentLevels(c.edges)
  }

  lemma HeadWindowGrounded(c: Core)
    requires HeadWindow(c)
    ensures Grounded(c.edges, c.levels)
  {
    forall id | id in c.edges
      ensures c.edges[id].ParentLevel() in c.levels
    {
      assert c.edges[id].ParentLevel() in ParentLevels(c.edges);
    }
  }

  lemma StoredIsAdmissible(c: Core, b: BlockCommitted)
    requires HeadWindow(c) && Stored(c, b)
    ensures Admissible(c, b, HeadTarget(c, b))
  {
    var es := RetainedEdges(b, b.directParents, HeadTarget(c, b));
    forall e | e in es
      ensures e.id !in c.edges && Covered(b, e.ParentLevel())
    {
      assert e.id.child == b.hash;
    }
  }

  lemma {:induction false} MaterializeKeys(levels: map<nat, Level>, snapshots: seq<LevelCommitted>, edges: Edges, extent: LevelExtent, es: seq<Edge>, level: nat)
    ensures level in Materialize(levels, snapshots, edges, extent, es) <==>
              level in levels || (Admits(edges, extent, es, level) && exists s :: s in snapshots && s.level == level)
  {
    if snapshots != [] {
      var front, s := snapshots[..|snapshots| - 1], snapshots[|snapshots| - 1];
      assert snapshots == front + [s];
      MaterializeKeys(levels, front, edges, extent, es, level);
    }
  }

  /** The blocks a commit leaves: the old ones and the new one inside the window. */
  lemma CommitBlocks(c: Core, b: BlockCommitted)
    requires HeadWindow(c) && Stored(c, b)
    ensures var after := HeadGraph(c, b);
            && EdgesOwned(after.blocks, after.edges)
            && forall h :: Get(after.blocks, h) == WindowBlock(c, b, after.extent, h)
  {
    ProjectionOwnsEdges(c, b, HeadTarget(c, b));
  }

  function WindowBlock(c: Core, b: BlockCommitted, extent: LevelExtent, h: BlockHash): Option<Block> {
    var candidate := if h == b.hash then Some(BlockOf(b)) else Get(c.blocks, h);
    if candidate.Some? && extent.ContainsLevel(candidate.value.coordinate.level) then candidate else None
  }

  /** Every block commit keeps the window invariant; the lower bound never falls
      and the retained blocks are exactly the old and new ones inside the window. */
  lemma HeadCommitKeepsWindow(c: Core, b: BlockCommitted, timestamp: nat)
    requires HeadWindow(c) && Stored(c, b)
    ensures var after := HeadCommit(c, b, timestamp).0;
            && HeadWindow(after)
            && after.extent.low >= c.extent.low && after.extent.high >= c.extent.high
            && forall h :: Get(after.blocks, h) == WindowBlock(c, b, after.extent, h)
  {
    var after := HeadGraph(c, b);
    CommitBlocks(c, b);
    forall h | h in after.blocks
      ensures after.blocks[h].hash == h && after.extent.ContainsLevel(after.blocks[h].coordinate.level)
    {
      assert Get(after.blocks, h) == WindowBlock(c, b, after.extent, h);
    }
    forall level
      ensures level in after.levels <==> after.extent.ContainsLevel(level) || level in ParentLevels(after.edges)
    {
      CommitLevel(c, b, level);
    }
    assert HeadWindow(after);
  }

  lemma ProjectionOwnsEdges(c: Core, b: BlockCommitted, extent: LevelExtent)
    requires HeadWindow(c) && Stored(c, b) && extent == HeadTarget(c, b)
    ensures EdgesOwned(Projected(c, b, extent).blocks, Projected(c, b, extent).edges)
  {
    var es := RetainedEdges(b, b.directParents, extent);
    var after := Projected(c, b, extent);
    forall id | id in after.edges
      ensures id.child in after.blocks && after.edges[id].id == id
      ensures after.edges[id].childCoordinate == after.blocks[id.child].coordinate
      ensures 1 <= after.edges[id].ParentLevel() < after.edges[id].ChildLevel()
    {
      if id in EdgeMap(es) {
        assert EdgeMap(es)[id] in es;
      } else {
        assert id in c.edges;
      }
    }
  }

  /** Every level of the new window, and every parent level, has a value. */
  lemma ProjectedLevelKept(c: Core, b: BlockCommitted, level: nat)
    requires HeadWindow(c) && Stored(c, b)
    ensures var projected := Projected(c, b, HeadTarget(c, b));
            HeadTarget(c, b).ContainsLevel(level) || level in ParentLevels(projected.edges) ==> level in projected.levels
  {
    var target := HeadTarget(c, b);
    var es := RetainedEdges(b, b.directParents, target);
    MaterializeKeys(c.levels, b.levelSnapshots, c.edges, target, es, level);
    var projected := Projected(c, b, target);
    if level in ParentLevels(projected.edges) && level !in c.levels {
      var id :| id in projected.edges && projected.edges[id].ParentLevel() == level;
      HeadWindowGrounded(c);
      assert id in EdgeMap(es);
      assert EdgeMap(es)[id] in es;
      assert level in Endpoints(es);
      assert Covered(b, level);
    } else if target.ContainsLevel(level) && level !in c.levels {
      assert level == b.coordinate.level;
      assert Covered(b, level);
    }
  }

  /** No level above the new window has a value. */
  lemma ProjectedLevelBounded(c: Core, b: BlockCommitted, level: nat)
    requires HeadWindow(c) && Stored(c, b)
    requires level in Projected(c, b, HeadTarget(c, b)).levels
    ensures level <= HeadTarget(c, b).high
  {
    var target := HeadTarget(c, b);
    var es := RetainedEdges(b, b.directParents, target);
    MaterializeKeys(c.levels, b.levelSnapshots, c.edges, target, es, level);
    forall id | id in c.edges
      ensures c.edges[id].ParentLevel() <= target.high
    {
    }
    forall e | e in es
      ensures e.ParentLevel() <= target.high && e.ChildLevel() <= target.high
    {
    }
  }

  lemma CommitLevel(c: Core, b: BlockCommitted, level: nat)
    requires HeadWindow(c) && Stored(c, b)
    ensures var after := HeadGraph(c, b);
            level in after.levels <==> after.extent.ContainsLevel(level) || level in ParentLevels(after.edges)
  {
    var target := HeadTarget(c, b);
    var projected := Projected(c, b, target);
    ProjectedLevelKept(c, b, level);
    if level in projected.levels {
      ProjectedLevelBounded(c, b, level);
    }
    var after := Pruned(projected, target.low);
    assert ParentLevels(after.edges) <= ParentLevels(projected.edges) by {
      forall id | id in after.edges
        ensures after.edges[id].ParentLevel() in ParentLevels(projected.edges)
      {
        assert projected.edges[id] == after.edges[id];
      }
    }
  }

  lemma HeadVspcKeepsWindow(c: Core, v: VspcCommitted, timestamp: nat)
    requires HeadWindow(c)
    ensures HeadWindow(HeadVspc(c, v, timestamp).0)
  {
    hide FieldDelta, Silent, Rescored, HeadMetadata, Recolor, ParentLevels;
    var after := HeadVspc(c, v, timestamp).0;
    assert after.levels.Keys == c.levels.Keys && after.blocks.Keys == c.blocks.Keys;
    forall h | h in after.blocks
      ensures after.blocks[h].hash == c.blocks[h].hash && after.blocks[h].coordinate == c.blocks[h].coordinate
    {
    }
  }
}
