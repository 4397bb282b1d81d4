/** The mutable graph view: delta application with index maintenance. */
module GraphView {
  import opened Maps
  import opened Graph
  import opened Core
  import opened Indexes
  import opened ViewState
  import opened Mutation
  import opened ReplayLaws
  import opened Extract

  datatype ApplyOutcome = Applied | RefusedFrozen | RevisionMismatch

  class GraphView {
    var maxDepth: nat
    var extent: LevelExtent
    var revision: nat
    var timestamp: nat
    var policy: TrackingPolicy
    var levels: map<nat, StoredLevel>
    var blocks: Blocks
    var edges: Edges
    var blocksByLevel: BlockIndex
    var parentsByChild: ParentIndex
    var edgesBySpan: SpanIndex

    ghost function State(): View
      reads this
    {
      View(maxDepth, extent, revision, timestamp, policy, levels, blocks, edges, blocksByLevel, parentsByChild, edgesBySpan)
    }

    ghost function Now(): Core
      reads this
    {
      CoreOf(State())
    }

    ghost predicate Valid()
      reads this
    {
      Coherent(State()) && Now().Shaped()
    }

    // ----- Index maintenance ---------------------------------------------------

    method ApplyBlockUpsert(h: BlockHash, b: Block)
      requires BlocksIndexed(blocks, blocksByLevel)
      modifies this`blocks, this`blocksByLevel
      ensures blocks == old(blocks)[h := b] && BlocksIndexed(blocks, blocksByLevel)
    {
      var level := b.coordinate.level;
      var previous := Get(blocks, h);
      if previous.Some? && previous.value.coordinate.level == level {
        ReindexBlock(blocks, blocksByLevel, h, b);
      } else if previous.Some? {
        UnindexBlock(blocks, blocksByLevel, h);
        IndexBlock(blocks - {h}, Leave(blocksByLevel, previous.value.coordinate.level, h), h, b);
        assert (blocks - {h})[h := b] == blocks[h := b];
      } else {
        IndexBlock(blocks, blocksByLevel, h, b);
      }
      blocks := blocks[h := b];
      if previous.Some? && previous.value.coordinate.level != level {
        blocksByLevel := Leave(blocksByLevel, previous.value.coordinate.level, h);
      }
      blocksByLevel := Enter(blocksByLevel, level, h);
    }

    method ApplyBlockRemoval(h: BlockHash)
      requires BlocksIndexed(blocks, blocksByLevel)
      modifies this`blocks, this`blocksByLevel
      ensures blocks == old(blocks) - {h} && BlocksIndexed(blocks, blocksByLevel)
    {
      if h !in blocks {
        assert blocks - {h} == blocks;
        return;
      }
      UnindexBlock(blocks, blocksByLevel, h);
      var level := blocks[h].coordinate.level;
      blocks := blocks - {h};
      blocksByLevel := Leave(blocksByLevel, level, h);
    }

    method IndexEdge(e: Edge)
      modifies this`parentsByChild, this`edgesBySpan
      ensures parentsByChild == Enter(old(parentsByChild), e.id.child, e.id.parent)
      ensures edgesBySpan == EnterSpan(old(edgesBySpan), e)
    {
      parentsByChild := Enter(parentsByChild, e.id.child, e.id.parent);
      var inner := if e.ChildLevel() in edgesBySpan then edgesBySpan[e.ChildLevel()] else map[];
      edgesBySpan := edgesBySpan[e.ChildLevel() := Enter(inner, e.ParentLevel(), e.id)];
    }

    method UnindexEdge(e: Edge)
      modifies this`parentsByChild, this`edgesBySpan
      ensures parentsByChild == Leave(old(parentsByChild), e.id.child, e.id.parent)
      ensures edgesBySpan == LeaveSpan(old(edgesBySpan), e)
    {
      parentsByChild := Leave(parentsByChild, e.id.child, e.id.parent);
      if e.ChildLevel() in edgesBySpan {
        var inner := Leave(edgesBySpan[e.ChildLevel()], e.ParentLevel(), e.id);
        if inner == map[] {
          edgesBySpan := edgesBySpan - {e.ChildLevel()};
        } else {
          edgesBySpan := edgesBySpan[e.ChildLevel() := inner];
        }
      }
    }

    // ----- Delta application -----------------------------------------------------

    method ApplyBlockChanges(changes: map<BlockHash, Option<Block>>)
      requires BlocksIndexed(blocks, blocksByLevel)
      modifies this`blocks, this`blocksByLevel
      ensures blocks == Patch(old(blocks), changes) && BlocksIndexed(blocks, blocksByLevel)
    {
      var todo := changes.Keys;
      assert Done(changes, todo) == map[];
      assert Patch(blocks, map[]) == blocks;
      while todo != {}
        invariant todo <= changes.Keys
        invariant blocks == Patch(old(blocks), Done(changes, todo))
        invariant BlocksIndexed(blocks, blocksByLevel)
        decreases todo
      {
        var h :| h in todo;
        DoneStep(changes, todo, h);
        PatchStep(old(blocks), Done(changes, todo), h, changes[h]);
        match changes[h] {
          case Some(b) => ApplyBlockUpsert(h, b);
          case None => ApplyBlockRemoval(h);
        }
        todo := todo - {h};
      }
      assert Done(changes, {}) == changes;
    }

    /** Stores one edge change and reindexes the edge when its value changed. */
    method ReplaceEdge(id: EdgeId, change: Option<Edge>) returns (previous: Option<Edge>)
      requires EdgesIndexed(edges, parentsByChild, edgesBySpan)
      requires change.Some? ==> change.value.id == id
      modifies this`edges, this`parentsByChild, this`edgesBySpan
      ensures previous == old(Get(edges, id))
      ensures edges == Overwrite(old(edges), id, change)
      ensures EdgesIndexed(edges, parentsByChild, edgesBySpan)
    {
      hide EdgesIndexed;
      previous := Get(edges, id);
      ghost var rest := edges - {id};
      edges := Overwrite(edges, id, change);
      if previous == change {
        assert edges == old(edges);
        return;
      }
      if previous.Some? {
        UnindexEdges(old(edges), parentsByChild, edgesBySpan, id);
        UnindexEdge(previous.value);
      } else {
        assert rest == old(edges);
      }
      if change.Some? {
        IndexEdges(rest, parentsByChild, edgesBySpan, change.value);
        assert rest[id := change.value] == edges;
        IndexEdge(change.value);
      }
    }

    /** Stores one edge change and records the parent levels it releases and takes. */
    method ApplyEdgeChange(id: EdgeId, change: Option<Edge>, decrements: seq<nat>, increments: seq<nat>, ghost before: Edges, ghost kept: Edges)
      returns (decrements': seq<nat>, increments': seq<nat>, ghost kept': Edges)
      requires EdgesIndexed(edges, parentsByChild, edgesBySpan)
      requires Get(kept, id) == Get(edges, id) && (change.Some? ==> change.value.id == id)
      requires Balanced(before, kept, edges, multiset(decrements), multiset(increments))
      modifies this`edges, this`parentsByChild, this`edgesBySpan
      ensures edges == Overwrite(old(edges), id, change)
      ensures EdgesIndexed(edges, parentsByChild, edgesBySpan)
      ensures Balanced(before, kept', edges, multiset(decrements'), multiset(increments'))
      ensures forall other :: other != id ==> Get(kept', other) == Get(kept, other)
      ensures increments' == increments || (change.Some? && increments' == increments + [change.value.ParentLevel()])
    {
      hide EdgesIndexed, Balanced, Patch;
      decrements', increments', kept' := decrements, increments, kept;
      var previous := ReplaceEdge(id, change);
      if previous == change {
        assert edges == old(edges);
        return;
      }
      ghost var rest := old(edges) - {id};
      if previous.Some? {
        BalancedDrop(before, kept, old(edges), multiset(decrements), multiset(increments), id);
        decrements' := decrements + [previous.value.ParentLevel()];
        kept' := kept - {id};
      } else {
        assert rest == old(edges);
      }
      assert Balanced(before, kept', rest, multiset(decrements'), multiset(increments));
      if change.Some? {
        BalancedAdd(before, kept', rest, multiset(decrements'), multiset(increments), change.value);
        assert edges == rest[id := change.value];
        increments' := increments + [change.value.ParentLevel()];
      }
    }

    /** The parent levels a delta releases and takes, with their multiplicities. */
    method ApplyEdgeChanges(changes: map<EdgeId, Option<Edge>>) returns (decrements: seq<nat>, increments: seq<nat>, ghost kept: Edges)
      requires EdgesIndexed(edges, parentsByChild, edgesBySpan)
      requires forall id :: id in changes && changes[id].Some? ==> changes[id].value.id == id
      modifies this`edges, this`parentsByChild, this`edgesBySpan
      ensures edges == Patch(old(edges), changes) && EdgesIndexed(edges, parentsByChild, edgesBySpan)
      ensures Balanced(old(edges), kept, edges, multiset(decrements), multiset(increments))
      ensures forall level :: level in increments ==> level in ParentLevels(edges)
    {
      hide EdgesIndexed, Balanced, Patch, Done, UsedOutside, ParentLevels;
      decrements, increments := [], [];
      var todo := changes.Keys;
      kept := edges;
      PatchAll(edges, changes);
      BalancedAtStart(edges);
      while todo != {}
        invariant todo <= changes.Keys
        invariant edges == Patch(old(edges), Done(changes, todo))
        invariant EdgesIndexed(edges, parentsByChild, edgesBySpan)
        invariant forall id :: id in todo ==> Get(kept, id) == Get(edges, id)
        invariant Balanced(old(edges), kept, edges, multiset(decrements), multiset(increments))
        invariant forall level :: level in increments ==> UsedOutside(edges, todo, level)
        decreases todo
      {
        var id :| id in todo;
        DoneStep(changes, todo, id);
        PatchStep(old(edges), Done(changes, todo), id, changes[id]);
        UsedOutsideStep(edges, todo, id, changes[id]);
        decrements, increments, kept := ApplyEdgeChange(id, changes[id], decrements, increments, old(edges), kept);
        todo := todo - {id};
      }
      forall level | level in increments
        ensures level in ParentLevels(edges)
      {
        UsedOutsideNone(edges, level);
      }
    }

    method ApplyLevelChanges(changes: map<nat, LevelChange>)
      modifies this`levels
      ensures Values(levels) == Patch(Values(old(levels)), Afters(changes))
      ensures forall level :: level in levels ==>
                levels[level].usageCount == if level in old(levels) then old(levels)[level].usageCount else 0
    {
      var todo := changes.Keys;
      assert Done(Afters(changes), todo) == map[];
      assert Patch(Values(levels), map[]) == Values(levels);
      while todo != {}
        invariant todo <= changes.Keys
        invariant Values(levels) == Patch(Values(old(levels)), Done(Afters(changes), todo))
        invariant forall level :: level in levels ==>
                    levels[level].usageCount == if level in old(levels) then old(levels)[level].usageCount else 0
        invariant forall level :: level in todo ==> (level in levels <==> level in old(levels))
        decreases todo
      {
        var level :| level in todo;
        DoneStep(Afters(changes), todo, level);
        PatchStep(Values(old(levels)), Done(Afters(changes), todo), level, changes[level].after);
        ghost var values := Values(levels);
        match changes[level].after {
          case Some(value) =>
            levels := levels[level := StoredLevel(value, if level in levels then levels[level].usageCount else 0)];
            assert Values(levels) == values[level := value];
          case None =>
            levels := levels - {level};
            assert Values(levels) == values - {level};
        }
        todo := todo - {level};
      }
      assert Done(Afters(changes), {}) == Afters(changes);
    }

    /** Applies every decrement to a level that is still retained; no count passes
        below zero. */
    method DecrementUsage(decrements: seq<nat>)
      requires forall level :: level in levels ==> multiset(decrements)[level] <= levels[level].usageCount
      modifies this`levels
      ensures levels.Keys == old(levels).Keys && Values(levels) == Values(old(levels))
      ensures forall level :: level in levels ==>
                levels[level].usageCount + multiset(decrements)[level] == old(levels)[level].usageCount
    {
      for i := 0 to |decrements|
        invariant levels.Keys == old(levels).Keys
        invariant Values(levels) == Values(old(levels))
        invariant forall level :: level in levels ==>
                    levels[level].usageCount + multiset(decrements[..i])[level] == old(levels)[level].usageCount
      {
        var level := decrements[i];
        PrefixCounts(decrements, i);
        if level in levels {
          assert multiset(decrements)[level] >= multiset(decrements[..i + 1])[level];
          levels := levels[level := StoredLevel(levels[level].value, levels[level].usageCount - 1)];
        }
      }
      assert decrements[..|decrements|] == decrements;
    }

    method IncrementUsage(increments: seq<nat>)
      requires forall level :: level in increments ==> level in levels
      modifies this`levels
      ensures levels.Keys == old(levels).Keys && Values(levels) == Values(old(levels))
      ensures forall level :: level in levels ==>
                levels[level].usageCount == old(levels)[level].usageCount + multiset(increments)[level]
    {
      for i := 0 to |increments|
        invariant levels.Keys == old(levels).Keys
        invariant Values(levels) == Values(old(levels))
        invariant forall level :: level in levels ==>
                    levels[level].usageCount == old(levels)[level].usageCount + multiset(increments[..i])[level]
      {
        var level := increments[i];
        assert increments[..i + 1] == increments[..i] + [level];
        levels := levels[level := StoredLevel(levels[level].value, levels[level].usageCount + 1)];
      }
      assert increments[..|increments|] == increments;
    }

    /** Overwrites a field of a retained block, leaving its index entry alone. */
    method RewriteBlock(h: BlockHash, b: Block)
      requires BlocksIndexed(blocks, blocksByLevel)
      requires h in blocks && b.coordinate == blocks[h].coordinate
      modifies this`blocks
      ensures blocks == old(blocks)[h := b] && BlocksIndexed(blocks, blocksByLevel)
    {
      ReindexBlock(blocks, blocksByLevel, h, b);
      blocks := blocks[h := b];
    }

    method ApplyVspcChanges(vspc: map<BlockHash, FieldChange<bool>>)
      requires BlocksIndexed(blocks, blocksByLevel)
      modifies this`blocks
      ensures blocks == ApplyFields(old(blocks), vspc, map[]) && BlocksIndexed(blocks, blocksByLevel)
    {
      var todo := vspc.Keys;
      assert Done(vspc, todo) == map[];
      assert ApplyFields(blocks, map[], map[]) == blocks;
      while todo != {}
        invariant todo <= vspc.Keys
        invariant BlocksIndexed(blocks, blocksByLevel)
        invariant blocks == ApplyFields(old(blocks), Done(vspc, todo), map[])
        decreases todo
      {
        var h :| h in todo;
        DoneStep(vspc, todo, h);
        VspcStep(old(blocks), Done(vspc, todo), h, vspc[h]);
        if h in blocks {
          RewriteBlock(h, blocks[h].(isInVspc := vspc[h].after));
        }
        todo := todo - {h};
      }
      assert Done(vspc, {}) == vspc;
    }

    method ApplyColorChanges(colors: map<BlockHash, FieldChange<Color>>)
      requires BlocksIndexed(blocks, blocksByLevel)
      modifies this`blocks
      ensures blocks == ApplyFields(old(blocks), map[], colors) && BlocksIndexed(blocks, blocksByLevel)
    {
      var todo := colors.Keys;
      assert Done(colors, todo) == map[];
      assert ApplyFields(blocks, map[], map[]) == blocks;
      while todo != {}
        invariant todo <= colors.Keys
        invariant BlocksIndexed(blocks, blocksByLevel)
        invariant blocks == ApplyFields(old(blocks), map[], Done(colors, todo))
        decreases todo
      {
        var h :| h in todo;
        DoneStep(colors, todo, h);
        ColorStep(old(blocks), Done(colors, todo), h, colors[h]);
        if h in blocks {
          RewriteBlock(h, blocks[h].(color := colors[h].after));
        }
        todo := todo - {h};
      }
      assert Done(colors, {}) == colors;
    }

    /** The phases of delta application in their canonical order: blocks, edges,
        levels, usage counts, VSPC membership, colours. */
    method ApplyChanges(d: Delta)
      requires Valid()
      requires forall id :: id in d.edges && d.edges[id].Some? ==> d.edges[id].value.id == id
      requires Grounded(Patch(edges, d.edges), Patch(Values(levels), Afters(d.levels)))
      modifies this`blocks, this`blocksByLevel, this`edges, this`parentsByChild, this`edgesBySpan, this`levels
      ensures Coherent(State())
      ensures blocks == ApplyFields(Patch(old(blocks), d.blocks), d.vspc, d.colors)
      ensures edges == Patch(old(edges), d.edges)
      ensures Values(levels) == Patch(Values(old(levels)), Afters(d.levels))
    {
      ApplyBlockChanges(d.blocks);
      var decrements, increments, kept := ApplyEdgeChanges(d.edges);
      ApplyLevelChanges(d.levels);
      SettleUsage(old(levels), old(edges), kept, decrements, increments);
      ghost var patched := blocks;
      ApplyVspcChanges(d.vspc);
      ApplyColorChanges(d.colors);
      FieldsTwice(patched, d.vspc, d.colors);
    }

    /** Settles the counts of the levels left after a delta's level changes. */
    method SettleUsage(ghost before: map<nat, StoredLevel>, ghost beforeEdges: Edges, ghost kept: Edges, decrements: seq<nat>, increments: seq<nat>)
      requires Grounded(beforeEdges, Values(before)) && UsageCounted(beforeEdges, before)
      requires forall level :: level in levels ==> levels[level].usageCount == if level in before then before[level].usageCount else 0
      requires Grounded(edges, Values(levels))
      requires Balanced(beforeEdges, kept, edges, multiset(decrements), multiset(increments))
      requires forall level :: level in increments ==> level in ParentLevels(edges)
      modifies this`levels
      ensures Values(levels) == Values(old(levels)) && UsageCounted(edges, levels)
    {
      forall level | level in levels
        ensures levels[level].usageCount == Usage(beforeEdges, level)
      {
        if level !in before {
          UsagePositive(beforeEdges, level);
          assert level !in Values(before);
        }
      }
      DecrementUsage(decrements);
      IncrementUsage(increments);
      forall level | level in levels
        ensures levels[level].usageCount == Usage(edges, level)
      {
        assert Usage(edges, level) + multiset(decrements)[level] == Usage(beforeEdges, level) + multiset(increments)[level];
      }
    }

    /** Applies a delta that begins at this view's revision. A frozen view refuses
        it; a revision mismatch changes nothing except that it freezes a Fixed view. */
    method ApplyDelta(d: Delta) returns (outcome: ApplyOutcome)
      requires Valid() && 1 <= d.headLevel
      requires !policy.Frozen? && revision == d.fromRevision ==>
                 && (forall id :: id in d.edges && d.edges[id].Some? ==> d.edges[id].value.id == id)
                 && Grounded(Replay(Now(), d).edges, Replay(Now(), d).levels)
      modifies this
      ensures Valid()
      ensures outcome == if old(policy).Frozen? then RefusedFrozen
                         else if old(revision) != d.fromRevision then RevisionMismatch else Applied
      ensures outcome.RefusedFrozen? ==> State() == old(State())
      ensures outcome.RevisionMismatch? ==> State() == old(State()).(policy := if old(policy).Fixed? then Frozen else old(policy))
      ensures outcome.Applied? ==> Now() == Replay(old(Now()), d)
    {
      hide Patch, Afters, ApplyFields, Grounded;
      if policy.Frozen? {
        return RefusedFrozen;
      }
      if revision != d.fromRevision {
        if policy.Fixed? {
          policy := Frozen;
        }
        return RevisionMismatch;
      }
      ApplyChanges(d);
      if policy.Head? {
        extent := Window(d.headLevel, maxDepth);
      }
      revision := d.toRevision;
      timestamp := d.timestamp;
      outcome := Applied;
    }

    // ----- Committed blocks ------------------------------------------------------

    method InsertBlock(b: Block)
      requires BlocksIndexed(blocks, blocksByLevel) && b.hash !in blocks
      modifies this`blocks, this`blocksByLevel
      ensures blocks == old(blocks)[b.hash := b] && BlocksIndexed(blocks, blocksByLevel)
    {
      IndexBlock(blocks, blocksByLevel, b.hash, b);
      blocks := blocks[b.hash := b];
      blocksByLevel := Enter(blocksByLevel, b.coordinate.level, b.hash);
    }

    method ProjectBlock(b: BlockCommitted, target: LevelExtent, captured: map<BlockHash, Option<Block>>)
      returns (captured': map<BlockHash, Option<Block>>)
      requires BlocksIndexed(blocks, blocksByLevel)
      requires target.ContainsLevel(b.coordinate.level) ==> b.hash !in blocks
      requires captured == map[]
      modifies this`blocks, this`blocksByLevel
      ensures blocks == if target.ContainsLevel(b.coordinate.level) then old(blocks)[b.hash := BlockOf(b)] else old(blocks)
      ensures BlocksIndexed(blocks, blocksByLevel)
      ensures Captures(captured', old(blocks), blocks)
    {
      captured' := captured;
      if target.ContainsLevel(b.coordinate.level) {
        captured' := Capture(captured', b.hash, Get(blocks, b.hash));
        InsertBlock(BlockOf(b));
      }
    }

    static method SelectEdges(b: BlockCommitted, target: LevelExtent) returns (es: seq<Edge>, endpoints: set<nat>)
      ensures es == RetainedEdges(b, b.directParents, target)
      ensures endpoints == Endpoints(es)
    {
      es := [];
      for i := 0 to |b.directParents|
        invariant es == RetainedEdges(b, b.directParents[..i], target)
      {
        var parent := b.directParents[i];
        assert b.directParents[..i + 1][..i] == b.directParents[..i];
        if parent.coordinate.Some? {
          var e := Edge(EdgeId(parent.hash, b.hash), parent.coordinate.value, b.coordinate);
          if target.IntersectsSpan(e.ParentLevel(), e.ChildLevel()) {
            es := es + [e];
          }
        }
      }
      assert b.directParents[..|b.directParents|] == b.directParents;
      endpoints := {};
      for i := 0 to |es|
        invariant endpoints == Endpoints(es[..i])
      {
        assert es[..i + 1] == es[..i] + [es[i]];
        endpoints := endpoints + {es[i].ParentLevel(), es[i].ChildLevel()};
      }
      assert es[..|es|] == es;
    }

    method ProjectLevels(b: BlockCommitted, target: LevelExtent, ghost es: seq<Edge>, endpoints: set<nat>, captured: map<nat, Option<Level>>)
      returns (captured': map<nat, Option<Level>>)
      requires Grounded(edges, Values(levels)) && UsageCounted(edges, levels)
      requires endpoints == Endpoints(es) && captured == map[]
      modifies this`levels
      ensures Values(levels) == Materialize(Values(old(levels)), b.levelSnapshots, edges, target, es)
      ensures UsageCounted(edges, levels)
      ensures Captures(captured', Values(old(levels)), Values(levels))
    {
      captured' := captured;
      for i := 0 to |b.levelSnapshots|
        invariant Values(levels) == Materialize(Values(old(levels)), b.levelSnapshots[..i], edges, target, es)
        invariant Grounded(edges, Values(levels)) && UsageCounted(edges, levels)
        invariant Captures(captured', Values(old(levels)), Values(levels))
      {
        hide Materialize, Captures, Grounded;
        var s := b.levelSnapshots[i];
        MaterializeStep(Values(old(levels)), b.levelSnapshots, i, edges, target, es);
        LevelUsage(edges, levels, s.level);
        ghost var values := Values(levels);
        var external := s.level in levels && levels[s.level].usageCount > 0;
        if target.ContainsLevel(s.level) || external || s.level in endpoints {
          CaptureStep(captured', Values(old(levels)), values, s.level, values[s.level := Materialized(Get(values, s.level), s)]);
          captured' := Capture(captured', s.level, if s.level in levels then Some(levels[s.level].value) else None);
          GroundedGrows(edges, values, s.level, Materialized(Get(values, s.level), s));
          MaterializeSnapshot(s);
        }
      }
      assert b.levelSnapshots[..|b.levelSnapshots|] == b.levelSnapshots;
    }

    method MaterializeSnapshot(s: LevelCommitted)
      modifies this`levels
      ensures levels.Keys == old(levels).Keys + {s.level}
      ensures Values(levels) == Values(old(levels))[s.level := Materialized(Get(Values(old(levels)), s.level), s)]
      ensures forall level :: level in levels ==> levels[level].usageCount == if level in old(levels) then old(levels)[level].usageCount else 0
    {
      if s.level in levels {
        levels := levels[s.level := levels[s.level].(value := levels[s.level].value.(size := s.size))];
      } else {
        levels := levels[s.level := StoredLevel(Level(s.size, s.daaScore), 0)];
      }
    }

    method IncrementParentUsage(level: nat)
      requires level in levels
      modifies this`levels
      ensures levels == old(levels)[level := StoredLevel(old(levels)[level].value, old(levels)[level].usageCount + 1)]
    {
      levels := levels[level := levels[level].(usageCount := levels[level].usageCount + 1)];
    }

    method DecrementParentUsage(level: nat)
      requires level in levels && levels[level].usageCount > 0
      modifies this`levels
      ensures levels == old(levels)[level := StoredLevel(old(levels)[level].value, old(levels)[level].usageCount - 1)]
    {
      levels := levels[level := levels[level].(usageCount := levels[level].usageCount - 1)];
    }

    /** Retains one edge: a new identity is stored, indexed and counted; a known one
        already carries the same coordinates. */
    method RetainEdge(e: Edge)
      requires EdgesIndexed(edges, parentsByChild, edgesBySpan) && UsageCounted(edges, levels)
      requires e.id in edges ==> edges[e.id] == e
      requires e.ParentLevel() in levels
      modifies this`edges, this`parentsByChild, this`edgesBySpan, this`levels
      ensures edges == old(edges)[e.id := e] && EdgesIndexed(edges, parentsByChild, edgesBySpan)
      ensures Values(levels) == Values(old(levels)) && UsageCounted(edges, levels)
    {
      hide EdgesIndexed, UsageCounted;
      if e.id in edges {
        assert edges[e.id := e] == edges;
        return;
      }
      IndexEdges(edges, parentsByChild, edgesBySpan, e);
      CountEdge(edges, levels, e);
      edges := edges[e.id := e];
      IndexEdge(e);
      IncrementParentUsage(e.ParentLevel());
    }

    method ProjectEdges(es: seq<Edge>, captured: map<EdgeId, Option<Edge>>) returns (captured': map<EdgeId, Option<Edge>>)
      requires EdgesIndexed(edges, parentsByChild, edgesBySpan) && UsageCounted(edges, levels)
      requires EdgesAgree(edges, es) && forall e :: e in es ==> e.ParentLevel() in levels
      requires captured == map[]
      modifies this`edges, this`parentsByChild, this`edgesBySpan, this`levels
      ensures edges == old(edges) + EdgeMap(es) && EdgesIndexed(edges, parentsByChild, edgesBySpan)
      ensures Values(levels) == Values(old(levels)) && UsageCounted(edges, levels)
      ensures Captures(captured', old(edges), edges)
    {
      captured' := captured;
      for i := 0 to |es|
        invariant edges == old(edges) + EdgeMap(es[..i]) && EdgesIndexed(edges, parentsByChild, edgesBySpan)
        invariant Values(levels) == Values(old(levels)) && UsageCounted(edges, levels)
        invariant Captures(captured', old(edges), edges)
      {
        hide EdgesIndexed, UsageCounted, Captures, EdgeMap, Values;
        var e := es[i];
        EdgeMapStep(old(edges), es, i);
        assert e.ParentLevel() in levels by { ValuesKeys(levels); ValuesKeys(old(levels)); }
        CaptureStep(captured', old(edges), edges, e.id, edges[e.id := e]);
        captured' := Capture(captured', e.id, Get(edges, e.id));
        RetainEdge(e);
      }
      assert es[..|es|] == es;
    }

    /** Projects a committed block, its level snapshots and its edges on an extent. */
    method ApplyBlockProjection(b: BlockCommitted, target: LevelExtent) returns (m: Mutation)
      requires Valid() && Admissible(Now(), b, target)
      modifies this`blocks, this`blocksByLevel, this`edges, this`parentsByChild, this`edgesBySpan, this`levels
      ensures Valid() && Now() == Projected(old(Now()), b, target)
      ensures BlockCaptures(m, old(Now()), Now())
    {
      hide Captures, BlocksIndexed, EdgesIndexed, UsageCounted, Materialize, Values, Admissible, RetainedEdges, EdgeMap, Grounded, EdgesAgree, Endpoints;
      ghost var before := Now();
      ProjectionGrounded(before, b, target);
      var es, endpoints := SelectEdges(b, target);
      var capturedBlocks := ProjectBlock(b, target, map[]);
      var capturedLevels := ProjectLevels(b, target, es, endpoints, map[]);
      ValuesKeys(levels);
      var capturedEdges := ProjectEdges(es, map[]);
      m := Mutation(capturedBlocks, capturedEdges, capturedLevels, map[], map[]);
    }

    /** Takes every bucket below a level out of the block index. */
    method TakeBuckets(low: nat) returns (pruned: set<BlockHash>)
      requires BlocksIndexed(blocks, blocksByLevel)
      modifies this`blocksByLevel
      ensures pruned == Below(blocks, low) && BlocksIndexed(blocks - pruned, blocksByLevel)
    {
      pruned := {};
      forall h | h in blocks ensures blocks[h].coordinate.level in blocksByLevel {
        assert h in Bucket(blocksByLevel, blocks[h].coordinate.level);
      }
      var buckets := set level | level in blocksByLevel && level < low;
      while buckets != {}
        invariant forall level :: level in buckets ==> level < low && level in blocksByLevel
        invariant forall level :: level in old(blocksByLevel) && level !in blocksByLevel ==> level < low
        invariant forall level :: level in blocksByLevel && level < low ==> level in buckets
        invariant forall level :: level in blocksByLevel ==> Get(old(blocksByLevel), level) == Some(blocksByLevel[level])
        invariant forall h :: h in pruned <==> h in blocks && blocks[h].coordinate.level < low && blocks[h].coordinate.level !in buckets
        decreases buckets
      {
        hide NoEmpty;
        var level :| level in buckets;
        assert Bucket(old(blocksByLevel), level) == HashesAt(blocks, level);
        pruned := pruned + blocksByLevel[level];
        blocksByLevel := blocksByLevel - {level};
        buckets := buckets - {level};
      }
      assert pruned == Below(blocks, low);
      PrunedIndex(blocks, old(blocksByLevel), blocksByLevel, low);
    }

    /** Removes every block below a level together with its index bucket. */
    method PruneBlocks(low: nat, captured: map<BlockHash, Option<Block>>, ghost before: Blocks)
      returns (pruned: set<BlockHash>, captured': map<BlockHash, Option<Block>>)
      requires BlocksIndexed(blocks, blocksByLevel) && Captures(captured, before, blocks)
      modifies this`blocks, this`blocksByLevel
      ensures pruned == Below(old(blocks), low)
      ensures blocks == old(blocks) - pruned && BlocksIndexed(blocks, blocksByLevel)
      ensures Captures(captured', before, blocks)
    {
      hide BlocksIndexed, Captures;
      pruned := TakeBuckets(low);
      ghost var index := blocksByLevel;
      captured' := captured;
      var todo := pruned;
      assert pruned - todo == {} && blocks - {} == blocks;
      while todo != {}
        invariant todo <= pruned && pruned <= old(blocks).Keys && blocksByLevel == index
        invariant blocks == old(blocks) - (pruned - todo)
        invariant Captures(captured', before, blocks)
        decreases todo
      {
        var h :| h in todo;
        CaptureStep(captured', before, blocks, h, blocks - {h});
        captured' := Capture(captured', h, Some(blocks[h]));
        blocks := blocks - {h};
        RemoveNext(old(blocks), pruned, todo - {h}, h);
        assert todo - {h} + {h} == todo;
        todo := todo - {h};
      }
      assert pruned - {} == pruned;
    }

    /** Removes one retained edge with its index entries and its count. */
    method DropEdge(id: EdgeId)
      requires EdgesIndexed(edges, parentsByChild, edgesBySpan) && UsageCounted(edges, levels)
      requires id in edges && edges[id].ParentLevel() in levels
      modifies this`edges, this`parentsByChild, this`edgesBySpan, this`levels
      ensures edges == old(edges) - {id} && EdgesIndexed(edges, parentsByChild, edgesBySpan)
      ensures Values(levels) == Values(old(levels)) && UsageCounted(edges, levels)
    {
      hide EdgesIndexed, UsageCounted;
      UnindexEdges(edges, parentsByChild, edgesBySpan, id);
      UncountEdge(edges, levels, id);
      var e := edges[id];
      edges := edges - {id};
      UnindexEdge(e);
      DecrementParentUsage(e.ParentLevel());
    }

    /** The edges whose child is among the given blocks, through the child index. */
    method SelectChildEdges(children: set<BlockHash>) returns (selected: set<EdgeId>)
      requires ParentsIndexed(edges, parentsByChild)
      ensures selected == ChildEdges(edges, children)
    {
      selected := {};
      var todo := children;
      while todo != {}
        invariant todo <= children
        invariant selected == ChildEdges(edges, children - todo)
        decreases todo
      {
        var child :| child in todo;
        assert Bucket(parentsByChild, child) == ParentsOf(edges, child);
        ghost var unselected := todo;
        if child in parentsByChild {
          selected := selected + set parent | parent in parentsByChild[child] :: EdgeId(parent, child);
        }
        assert ChildEdges(edges, {child}) == set parent | parent in ParentsOf(edges, child) :: EdgeId(parent, child);
        todo := todo - {child};
        assert ChildEdges(edges, children - todo) == ChildEdges(edges, children - unselected) + ChildEdges(edges, {child});
      }
      assert children - {} == children;
    }

    method PruneEdges(children: set<BlockHash>, captured: map<EdgeId, Option<Edge>>, ghost before: Edges)
      returns (captured': map<EdgeId, Option<Edge>>)
      requires EdgesIndexed(edges, parentsByChild, edgesBySpan) && UsageCounted(edges, levels)
      requires Grounded(edges, Values(levels)) && Captures(captured, before, edges)
      modifies this`edges, this`parentsByChild, this`edgesBySpan, this`levels
      ensures edges == old(edges) - ChildEdges(old(edges), children)
      ensures EdgesIndexed(edges, parentsByChild, edgesBySpan) && Values(levels) == Values(old(levels)) && UsageCounted(edges, levels)
      ensures Captures(captured', before, edges)
    {
      var selected := SelectChildEdges(children);
      hide EdgesIndexed, UsageCounted, Captures, Values, ParentsIndexed, SpansIndexed, ChildEdges, Grounded;
      captured' := captured;
      var todo := selected;
      RemoveNothing(edges, selected);
      while todo != {}
        invariant todo <= selected
        invariant edges == old(edges) - (selected - todo)
        invariant EdgesIndexed(edges, parentsByChild, edgesBySpan) && Values(levels) == Values(old(levels)) && UsageCounted(edges, levels)
        invariant Captures(captured', before, edges)
        decreases todo
      {
        var id :| id in todo;
        ValuesKeys(levels);
        assert id in old(edges) && edges[id] == old(edges)[id];
        GroundedAt(old(edges), Values(old(levels)), id);
        CaptureStep(captured', before, edges, id, edges - {id});
        captured' := Capture(captured', id, Some(edges[id]));
        DropEdge(id);
        RemoveNext(old(edges), selected, todo - {id}, id);
        assert todo - {id} + {id} == todo;
        todo := todo - {id};
      }
      assert selected - {} == selected;
    }

    /** Removes every unused level below a bound. */
    method PruneLevels(low: nat, captured: map<nat, Option<Level>>, ghost before: map<nat, Level>) returns (captured': map<nat, Option<Level>>)
      requires Grounded(edges, Values(levels)) && UsageCounted(edges, levels)
      requires Captures(captured, before, Values(levels))
      modifies this`levels
      ensures Values(levels) == KeepLevels(Values(old(levels)), low, ParentLevels(edges))
      ensures UsageCounted(edges, levels)
      ensures Captures(captured', before, Values(levels))
    {
      hide Captures, Values, UsageCounted, Grounded, KeepLevels, ParentLevels;
      var selected := set level | level in levels && level < low && levels[level].usageCount == 0;
      UnusedLevels(edges, levels, low, selected);
      captured' := captured;
      var todo := selected;
      assert selected - todo == {} && levels - {} == levels;
      while todo != {}
        invariant todo <= selected <= old(levels).Keys
        invariant levels == old(levels) - (selected - todo)
        invariant Captures(captured', before, Values(levels))
        decreases todo
      {
        var level :| level in todo;
        ValuesMinus(levels, {level});
        CaptureStep(captured', before, Values(levels), level, Values(levels) - {level});
        captured' := Capture(captured', level, Some(levels[level].value));
        levels := levels - {level};
        RemoveNext(old(levels), selected, todo - {level}, level);
        assert todo - {level} + {level} == todo;
        todo := todo - {level};
      }
      assert selected - {} == selected;
    }

    /** Publishes the captured changes under the next revision, if there are any. */
    method FinishMutation(m: Mutation, now: nat) returns (d: Option<Delta>)
      requires Valid()
      modifies this`revision, this`timestamp
      ensures Valid()
      ensures (Now(), d) == Published(old(Now()), Finished(m, old(revision), now, extent.high, blocks, edges, Values(levels)))
    {
      var finished := Finished(m, revision, now, extent.high, blocks, edges, Values(levels));
      hide Values, Silent, BlocksIndexed, EdgesIndexed, UsageCounted, Grounded;
      if Silent(finished) {
        return None;
      }
      revision := revision + 1;
      timestamp := now;
      d := Some(finished);
    }

    /** Prunes what a new lower bound no longer retains: blocks, then the edges they
        own as children, then unused levels. */
    method PruneBelow(low: nat, m: Mutation, ghost before: Core) returns (m': Mutation)
      requires Valid() && BlockCaptures(m, before, Now())
      modifies this`blocks, this`blocksByLevel, this`edges, this`parentsByChild, this`edgesBySpan, this`levels
      ensures Valid() && Now() == Pruned(old(Now()), low)
      ensures BlockCaptures(m', before, Now())
    {
      hide Captures, BlocksIndexed, EdgesIndexed, UsageCounted, Values;
      ghost var was := Now();
      var children, capturedBlocks := PruneBlocks(low, m.blocks, before.blocks);
      var capturedEdges := PruneEdges(children, m.edges, before.edges);
      GroundedMinus(was.edges, was.levels, ChildEdges(was.edges, children));
      var capturedLevels := PruneLevels(low, m.levels, before.levels);
      m' := m.(blocks := capturedBlocks, edges := capturedEdges, levels := capturedLevels);
      PrunedIs(was, low);
    }

    /** Applies a committed block to a Head view and emits its exact delta. */
    method ApplyHeadBlockCommitted(b: BlockCommitted, now: nat) returns (d: Option<Delta>)
      requires Valid() && policy.Head? && 1 <= b.coordinate.level
      requires Admissible(Now(), b, HeadTarget(Now(), b))
      modifies this
      ensures Valid() && (Now(), d) == HeadCommit(old(Now()), b, now)
    {
      hide Coherent, BlockCaptures, Projected, Pruned, BlockDelta, Silent, Finished, Admissible;
      ghost var before := Now();
      var high := if extent.high < b.coordinate.level then b.coordinate.level else extent.high;
      var target := Window(high, maxDepth);
      var m := ApplyBlockProjection(b, target);
      m := PruneBelow(target.low, m, before);
      ProjectedKeeps(before, b, target);
      ExtentCaptured(m, before, Now(), target);
      SetExtent(target);
      FinishedIsBlockDelta(m, before, Now(), now);
      d := FinishMutation(m, now);
    }

    method SetExtent(target: LevelExtent)
      requires Valid() && target.Valid()
      modifies this`extent
      ensures Valid() && Now() == old(Now()).(extent := target)
    {
      extent := target;
    }

    /** Applies an original committed block to a Fixed view, or freezes the view when
        the Head has left its extent. */
    method ApplyFixedBlockCommitted(b: BlockCommitted, head: GraphView, now: nat) returns (d: Option<Delta>)
      requires Valid() && policy.Fixed? && head.policy.Head? && head != this
      requires extent.Overlaps(head.extent) ==> Admissible(Now(), b, extent)
      modifies this
      ensures Valid() && (Now(), d) == FixedCommit(old(Now()), old(head.Now()), b, now)
    {
      ghost var before := Now();
      if !extent.Overlaps(head.extent) {
        policy := Frozen;
        return None;
      }
      hide Coherent, BlockCaptures, Projected, BlockDelta, Silent, Finished, Admissible;
      var m := ApplyBlockProjection(b, extent);
      ProjectedKeeps(before, b, extent);
      FinishedIsBlockDelta(m, before, Now(), now);
      d := FinishMutation(m, now);
    }

    // ----- Committed VSPC transitions ----------------------------------------------

    /** Rewrites the projected fields of one retained block, capturing both first. */
    method Reproject(h: BlockHash, isInVspc: Option<bool>, color: Option<Color>, m: Mutation, ghost before: Blocks) returns (m': Mutation)
      requires BlocksIndexed(blocks, blocksByLevel) && CapturesFields(m, before, blocks)
      modifies this`blocks
      ensures blocks == Painted(old(blocks), {h}, isInVspc, color)
      ensures BlocksIndexed(blocks, blocksByLevel) && CapturesFields(m', before, blocks)
      ensures m' == m.(vspc := m'.vspc, colors := m'.colors)
    {
      hide BlocksIndexed, CapturesFields;
      m' := m;
      if h in blocks {
        var b := blocks[h];
        FieldsCaptured(m, before, blocks, h, isInVspc, color);
        PaintedOne(blocks, h, isInVspc, color);
        m' := CaptureFields(m, h, b, isInVspc, color);
        RewriteBlock(h, Repaint(b, isInVspc, color));
      }
    }

    method ReprojectAll(hashes: seq<BlockHash>, isInVspc: Option<bool>, color: Option<Color>, m: Mutation, ghost before: Blocks) returns (m': Mutation)
      requires BlocksIndexed(blocks, blocksByLevel) && CapturesFields(m, before, blocks)
      modifies this`blocks
      ensures blocks == Painted(old(blocks), SetOf(hashes), isInVspc, color)
      ensures BlocksIndexed(blocks, blocksByLevel) && CapturesFields(m', before, blocks)
      ensures m' == m.(vspc := m'.vspc, colors := m'.colors)
    {
      hide BlocksIndexed, CapturesFields;
      m' := m;
      assert Painted(blocks, SetOf([]), isInVspc, color) == blocks;
      for i := 0 to |hashes|
        invariant blocks == Painted(old(blocks), SetOf(hashes[..i]), isInVspc, color)
        invariant BlocksIndexed(blocks, blocksByLevel) && CapturesFields(m', before, blocks)
        invariant m' == m.(vspc := m'.vspc, colors := m'.colors)
      {
        assert SetOf(hashes[..i + 1]) == SetOf(hashes[..i]) + {hashes[i]};
        PaintedTwice(old(blocks), SetOf(hashes[..i]), {hashes[i]}, isInVspc, color);
        m' := Reproject(hashes[i], isInVspc, color, m', before);
      }
      assert hashes[..|hashes|] == hashes;
    }

    method RecolorMergeSets(ms: seq<Metadata>, m: Mutation, ghost before: Blocks) returns (m': Mutation)
      requires BlocksIndexed(blocks, blocksByLevel) && CapturesFields(m, before, blocks)
      modifies this`blocks
      ensures blocks == RecoloredBlocks(old(blocks), ms)
      ensures BlocksIndexed(blocks, blocksByLevel) && CapturesFields(m', before, blocks)
      ensures m' == m.(vspc := m'.vspc, colors := m'.colors)
    {
      hide BlocksIndexed, CapturesFields;
      m' := m;
      assert RecoloredBlocks(blocks, []) == blocks;
      for i := 0 to |ms|
        invariant blocks == RecoloredBlocks(old(blocks), ms[..i])
        invariant BlocksIndexed(blocks, blocksByLevel) && CapturesFields(m', before, blocks)
        invariant m' == m.(vspc := m'.vspc, colors := m'.colors)
      {
        RecoloredStep(old(blocks), ms, i);
        m' := ReprojectAll(ms[i].blue, None, Some(Blue), m', before);
        m' := ReprojectAll(ms[i].red, None, Some(Red), m', before);
      }
      assert ms[..|ms|] == ms;
    }

    method RescoreLevels(snapshots: seq<LevelCommitted>) returns (captured: map<nat, Option<Level>>)
      requires UsageCounted(edges, levels)
      modifies this`levels
      ensures Values(levels) == Rescored(Values(old(levels)), snapshots)
      ensures UsageCounted(edges, levels) && Captures(captured, Values(old(levels)), Values(levels))
    {
      captured := map[];
      for i := 0 to |snapshots|
        invariant Values(levels) == Rescored(Values(old(levels)), snapshots[..i])
        invariant UsageCounted(edges, levels) && Captures(captured, Values(old(levels)), Values(levels))
      {
        hide Captures, Rescored;
        var s := snapshots[i];
        RescoredStep(Values(old(levels)), snapshots, i);
        if s.level in levels {
          var value := levels[s.level].value;
          CaptureStep(captured, Values(old(levels)), Values(levels), s.level, Values(levels)[s.level := value.(daaScore := s.daaScore)]);
          captured := Capture(captured, s.level, Some(value));
          levels := levels[s.level := levels[s.level].(value := value.(daaScore := s.daaScore))];
        }
      }
      assert snapshots[..|snapshots|] == snapshots;
    }

    /** Clears removed members, marks added ones, recolours their merge sets and
        records level scores, then emits the net change. */
    method ApplyVspcProjection(v: VspcCommitted, ms: seq<Metadata>, now: nat) returns (d: Option<Delta>)
      requires Valid()
      modifies this`blocks, this`levels, this`revision, this`timestamp
      ensures Valid()
      ensures var after := VspcGraph(old(Now()), v, ms);
              (Now(), d) == Published(after, FieldDelta(old(Now()), after, now))
    {
      hide BlocksIndexed, EdgesIndexed, UsageCounted, CapturesFields, Captures, Values, Published, FieldDelta, Finished;
      ghost var before := Now();
      NothingCaptured(blocks);
      var m := ReprojectAll(v.removed, Some(false), Some(Gray), Fresh, before.blocks);
      m := ReprojectAll(v.added, Some(true), None, m, before.blocks);
      m := RecolorMergeSets(ms, m, before.blocks);
      VspcPhases(before.blocks, v, ms);
      var captured := RescoreLevels(v.levelSnapshots);
      LevelsAside(m, captured, before.blocks, blocks);
      m := m.(levels := captured);
      RescoredGrounded(edges, before.levels, v.levelSnapshots);
      FinishedIsFieldDelta(m, before, Now(), now);
      d := FinishMutation(m, now);
    }

    method ApplyHeadVspcCommitted(v: VspcCommitted, now: nat) returns (d: Option<Delta>)
      requires Valid() && policy.Head?
      modifies this
      ensures Valid() && (Now(), d) == HeadVspc(old(Now()), v, now)
    {
      var ms := [];
      for i := 0 to |v.added|
        invariant State() == old(State())
        invariant ms == HeadMetadata(blocks, v.added[..i])
      {
        assert v.added[..i + 1][..i] == v.added[..i];
        if v.added[i] in blocks {
          ms := ms + [MetadataOf(blocks[v.added[i]])];
        }
      }
      assert v.added[..|v.added|] == v.added;
      d := ApplyVspcProjection(v, ms, now);
    }

    /** Applies an original VSPC transition to a Fixed view; disjoint extents or an
        added block known to neither view freeze it instead. */
    method ApplyFixedVspcCommitted(v: VspcCommitted, head: GraphView, now: nat) returns (d: Option<Delta>)
      requires Valid() && policy.Fixed? && head.policy.Head? && head != this
      modifies this
      ensures Valid() && (Now(), d) == FixedVspc(old(Now()), old(head.Now()), v, now)
    {
      hide Coherent, VspcGraph;
      if !extent.Overlaps(head.extent) {
        Freeze();
        return None;
      }
      var ms := Some([]);
      for i := 0 to |v.added|
        invariant State() == old(State())
        invariant ms == FixedMetadata(blocks, head.blocks, v.added[..i])
      {
        assert v.added[..i + 1][..i] == v.added[..i];
        var h := v.added[i];
        if ms.Some? {
          ms := if h in blocks then Some(ms.value + [MetadataOf(blocks[h])])
                else if h in head.blocks then Some(ms.value + [MetadataOf(head.blocks[h])])
                else None;
        }
      }
      assert v.added[..|v.added|] == v.added;
      if ms.None? {
        Freeze();
        return None;
      }
      d := ApplyVspcProjection(v, ms.value, now);
    }

    method Freeze()
      requires Valid()
      modifies this`policy
      ensures Valid() && Now() == old(Now()).(policy := Frozen)
    {
      policy := Frozen;
    }

    // ----- Construction and extraction ------------------------------------------------

    static method IndexBlocksByLevel(blocks: Blocks) returns (index: BlockIndex)
      ensures BlocksIndexed(blocks, index)
    {
      index := map[];
      var todo := blocks.Keys;
      while todo != {}
        invariant todo <= blocks.Keys
        invariant BlocksIndexed(Done(blocks, todo), index)
        decreases todo
      {
        var h :| h in todo;
        DoneStep(blocks, todo, h);
        IndexBlock(Done(blocks, todo), index, h, blocks[h]);
        index := Enter(index, blocks[h].coordinate.level, h);
        todo := todo - {h};
      }
      assert Done(blocks, {}) == blocks;
    }

    static method IndexEdgesOf(edges: Edges) returns (parents: ParentIndex, spans: SpanIndex)
      requires forall id :: id in edges ==> edges[id].id == id
      ensures EdgesIndexed(edges, parents, spans)
    {
      parents, spans := map[], map[];
      var todo := edges.Keys;
      assert Done(edges, todo) == map[];
      while todo != {}
        invariant todo <= edges.Keys
        invariant EdgesIndexed(Done(edges, todo), parents, spans)
        decreases todo
      {
        hide EdgesIndexed;
        var id :| id in todo;
        DoneStep(edges, todo, id);
        IndexEdges(Done(edges, todo), parents, spans, edges[id]);
        parents := Enter(parents, id.child, id.parent);
        spans := EnterSpan(spans, edges[id]);
        todo := todo - {id};
      }
      assert Done(edges, {}) == edges;
    }

    /** Builds a view from primary values; every index and count is derived. */
    constructor Derive(maxDepth: nat, extent: LevelExtent, revision: nat, timestamp: nat, policy: TrackingPolicy,
                       levels: map<nat, Level>, blocks: Blocks, edges: Edges)
      requires 1 <= maxDepth && extent.Valid() && Grounded(edges, levels)
      ensures Valid() && Now() == Core(maxDepth, extent, revision, timestamp, policy, levels, blocks, edges)
    {
      this.maxDepth, this.extent, this.revision, this.timestamp, this.policy := maxDepth, extent, revision, timestamp, policy;
      this.blocks, this.edges := blocks, edges;
      var byLevel := IndexBlocksByLevel(blocks);
      var parents, spans := IndexEdgesOf(edges);
      this.blocksByLevel, this.parentsByChild, this.edgesBySpan := byLevel, parents, spans;
      this.levels := map level | level in levels :: StoredLevel(levels[level], 0);
      new;
      assert Values(this.levels) == levels;
      CountUsage();
    }

    /** Counts every retained edge on its parent level, starting from zero. */
    method CountUsage()
      requires Grounded(edges, Values(levels))
      requires forall level :: level in levels ==> levels[level].usageCount == 0
      modifies this`levels
      ensures Values(levels) == Values(old(levels)) && UsageCounted(edges, levels)
    {
      var todo := edges.Keys;
      assert Done(edges, todo) == map[];
      while todo != {}
        invariant todo <= edges.Keys
        invariant Values(levels) == Values(old(levels)) && UsageCounted(Done(edges, todo), levels)
        decreases todo
      {
        var id :| id in todo;
        DoneStep(edges, todo, id);
        ValuesKeys(levels);
        CountEdge(Done(edges, todo), levels, edges[id]);
        hide UsageCounted;
        IncrementParentUsage(edges[id].ParentLevel());
        todo := todo - {id};
      }
      assert Done(edges, {}) == edges;
    }

    /** A revision-zero view of one coherent database projection. */
    static method FromDatabaseProjection(maxDepth: nat, extent: LevelExtent, policy: TrackingPolicy,
                                         levels: map<nat, Level>, blocks: Blocks, edges: Edges) returns (view: GraphView)
      requires 1 <= maxDepth && extent.Valid() && extent.Depth() <= maxDepth && Grounded(edges, levels)
      ensures fresh(view) && view.Valid() && view.Now() == Core(maxDepth, extent, 0, 0, policy, levels, blocks, edges)
    {
      view := new GraphView.Derive(maxDepth, extent, 0, 0, policy, levels, blocks, edges);
    }

    /** The blocks of an extent, found through the level index. */
    method SelectBlocks(extent: LevelExtent) returns (selected: Blocks)
      requires BlocksIndexed(blocks, blocksByLevel)
      ensures selected == BlocksWithin(blocks, extent)
    {
      selected := map[];
      var todo := set level | level in blocksByLevel && extent.ContainsLevel(level);
      forall h | h in blocks ensures blocks[h].coordinate.level in blocksByLevel {
        assert h in Bucket(blocksByLevel, blocks[h].coordinate.level);
      }
      while todo != {}
        invariant forall level :: level in todo ==> level in blocksByLevel && extent.ContainsLevel(level)
        invariant forall h :: h in selected <==> h in blocks && extent.ContainsLevel(blocks[h].coordinate.level) && blocks[h].coordinate.level !in todo
        invariant forall h :: h in selected ==> selected[h] == blocks[h]
        decreases todo
      {
        hide NoEmpty;
        var level :| level in todo;
        assert Bucket(blocksByLevel, level) == HashesAt(blocks, level);
        selected := selected + map h | h in blocksByLevel[level] :: blocks[h];
        todo := todo - {level};
      }
    }

    /** The edges whose span meets an extent, found by child level and parent level. */
    method SelectSpans(extent: LevelExtent) returns (selected: Edges)
      requires SpansIndexed(edges, edgesBySpan)
      ensures selected == EdgesWithin(edges, extent)
    {
      selected := map[];
      var todo := set child, parent | child in edgesBySpan && child >= extent.low && parent in edgesBySpan[child] && parent <= extent.high :: (child, parent);
      forall id | id in edges
        ensures edges[id].ChildLevel() in edgesBySpan && edges[id].ParentLevel() in edgesBySpan[edges[id].ChildLevel()]
      {
        assert id in Span(edgesBySpan, edges[id].ChildLevel(), edges[id].ParentLevel());
      }
      while todo != {}
        invariant forall span :: span in todo ==> span.0 in edgesBySpan && span.1 in edgesBySpan[span.0] && extent.IntersectsSpan(span.1, span.0)
        invariant forall id :: id in selected <==>
                    id in edges && extent.IntersectsSpan(edges[id].ParentLevel(), edges[id].ChildLevel()) && (edges[id].ChildLevel(), edges[id].ParentLevel()) !in todo
        invariant forall id :: id in selected ==> selected[id] == edges[id]
        decreases todo
      {
        hide NoEmptySpan;
        var span :| span in todo;
        assert Span(edgesBySpan, span.0, span.1) == IdsAt(edges, span.0, span.1);
        selected := selected + map id | id in edgesBySpan[span.0][span.1] :: edges[id];
        todo := todo - {span};
      }
    }

    /** The extent's levels and every endpoint level of the selected edges. */
    method SelectLevels(extent: LevelExtent, selected: Edges) returns (values: map<nat, Level>)
      requires extent.Valid() && forall level: nat :: Needs(selected, extent, level) ==> level in levels
      ensures values == map level | level in Values(levels) && Needs(selected, extent, level) :: Values(levels)[level]
    {
      values := map[];
      for level := extent.low to extent.high + 1
        invariant forall l :: l in values <==> extent.low <= l < level
        invariant forall l :: l in values ==> l in levels && values[l] == levels[l].value
      {
        assert Needs(selected, extent, level);
        values := values[level := levels[level].value];
      }
      var todo := selected.Keys;
      while todo != {}
        invariant todo <= selected.Keys
        invariant forall l :: l in values <==> extent.ContainsLevel(l) || EndedBy(selected, todo, l)
        invariant forall l :: l in values ==> l in levels && values[l] == levels[l].value
        decreases todo
      {
        var id :| id in todo;
        EndLevel(selected, id);
        assert Needs(selected, extent, selected[id].ParentLevel()) && Needs(selected, extent, selected[id].ChildLevel());
        var parent, child := selected[id].ParentLevel(), selected[id].ChildLevel();
        values := values[parent := levels[parent].value][child := levels[child].value];
        forall l ensures EndedBy(selected, todo - {id}, l) <==> EndedBy(selected, todo, l) || l == parent || l == child {
        }
        todo := todo - {id};
      }
      forall l: nat ensures EndedBy(selected, {}, l) <==> l in EndLevels(selected) {
        if l in EndLevels(selected) { var id := EndOf(selected, l); }
      }
    }

    /** Extracts a frozen view over a contained extent; nothing is extracted for an
        extent outside this view's. */
    method ExtractSubview(extent: LevelExtent) returns (view: GraphView?)
      requires Valid() && extent.Valid()
      requires this.extent.ContainsExtent(extent) ==> Complete(Now())
      ensures view != null <==> this.extent.ContainsExtent(extent)
      ensures view != null ==> fresh(view) && view.Valid() && view.Now() == Extracted(Now(), extent)
    {
      if !this.extent.ContainsExtent(extent) {
        return null;
      }
      var selectedBlocks := SelectBlocks(extent);
      var selectedEdges := SelectSpans(extent);
      hide BlocksIndexed, EdgesIndexed, UsageCounted, Grounded;
      ExtractedComplete(Now(), extent);
      ExtractedGrounded(Now(), extent);
      assert levels.Keys == Values(levels).Keys;
      var selectedLevels := SelectLevels(extent, selectedEdges);
      view := new GraphView.Derive(extent.Depth(), extent, revision, timestamp, Frozen, selectedLevels, selectedBlocks, selectedEdges);
    }
  }

  predicate EndedBy(edges: Edges, todo: set<EdgeId>, level: nat) {
    exists id :: id in edges && id !in todo && (edges[id].ParentLevel() == level || edges[id].ChildLevel() == level)
  }

  lemma ExtractedGrounded(c: Core, extent: LevelExtent)
    requires Complete(c) && extent.Valid() && c.extent.ContainsExtent(extent)
    ensures Grounded(Extracted(c, extent).edges, Extracted(c, extent).levels)
  {
    ExtractedComplete(c, extent);
    var after := Extracted(c, extent);
    forall id | id in after.edges
      ensures after.edges[id].ParentLevel() in after.levels
    {
      EndLevel(after.edges, id);
      assert Needs(after.edges, extent, after.edges[id].ParentLevel());
    }
  }

  // ----- Facts about VSPC projection ----------------------------------------------

  function SetOf<T>(s: seq<T>): set<T> { set x | x in s }

  function Repaint(b: Block, isInVspc: Option<bool>, color: Option<Color>): Block {
    b.(isInVspc := if isInVspc.Some? then isInVspc.value else b.isInVspc,
       color := if color.Some? then color.value else b.color)
  }

  function Painted(blocks: Blocks, hashes: set<BlockHash>, isInVspc: Option<bool>, color: Option<Color>): Blocks {
    map h | h in blocks :: if h in hashes then Repaint(blocks[h], isInVspc, color) else blocks[h]
  }

  function CaptureFields(m: Mutation, h: BlockHash, b: Block, isInVspc: Option<bool>, color: Option<Color>): Mutation {
    m.(vspc := if isInVspc.Some? then Capture(m.vspc, h, b.isInVspc) else m.vspc,
       colors := if color.Some? then Capture(m.colors, h, b.color) else m.colors)
  }

  lemma PaintedOne(now: Blocks, h: BlockHash, isInVspc: Option<bool>, color: Option<Color>)
    requires h in now
    ensures Painted(now, {h}, isInVspc, color) == now[h := Repaint(now[h], isInVspc, color)]
  {
  }

  lemma VspcCaptured(m: Mutation, before: Blocks, now: Blocks, h: BlockHash, isInVspc: Option<bool>, color: Option<Color>)
    requires CapturesFields(m, before, now) && h in now
    ensures var n, after := CaptureFields(m, h, now[h], isInVspc, color), now[h := Repaint(now[h], isInVspc, color)];
            && n.vspc.Keys <= before.Keys
            && (forall g :: g in n.vspc ==> n.vspc[g] == before[g].isInVspc)
            && (forall g :: g in before && g !in n.vspc ==> after[g].isInVspc == before[g].isInVspc)
  {
  }

  lemma ColorsCaptured(m: Mutation, before: Blocks, now: Blocks, h: BlockHash, isInVspc: Option<bool>, color: Option<Color>)
    requires CapturesFields(m, before, now) && h in now
    ensures var n, after := CaptureFields(m, h, now[h], isInVspc, color), now[h := Repaint(now[h], isInVspc, color)];
            && n.colors.Keys <= before.Keys
            && (forall g :: g in n.colors ==> n.colors[g] == before[g].color)
            && (forall g :: g in before && g !in n.colors ==> after[g].color == before[g].color)
  {
  }

  lemma FieldsCaptured(m: Mutation, before: Blocks, now: Blocks, h: BlockHash, isInVspc: Option<bool>, color: Option<Color>)
    requires CapturesFields(m, before, now) && h in now
    ensures CapturesFields(CaptureFields(m, h, now[h], isInVspc, color), before, now[h := Repaint(now[h], isInVspc, color)])
  {
    hide CaptureFields, Repaint;
    VspcCaptured(m, before, now, h, isInVspc, color);
    ColorsCaptured(m, before, now, h, isInVspc, color);
  }

  lemma PaintedTwice(blocks: Blocks, a: set<BlockHash>, b: set<BlockHash>, isInVspc: Option<bool>, color: Option<Color>)
    ensures Painted(Painted(blocks, a, isInVspc, color), b, isInVspc, color) == Painted(blocks, a + b, isInVspc, color)
  {
  }

  function RecoloredBlocks(blocks: Blocks, ms: seq<Metadata>): Blocks {
    map h | h in blocks :: blocks[h].(color := Recolor(blocks[h].color, h, ms))
  }

  lemma RecoloredStep(blocks: Blocks, ms: seq<Metadata>, i: nat)
    requires i < |ms|
    ensures RecoloredBlocks(blocks, ms[..i + 1]) ==
            Painted(Painted(RecoloredBlocks(blocks, ms[..i]), SetOf(ms[i].blue), None, Some(Blue)), SetOf(ms[i].red), None, Some(Red))
  {
    assert ms[..i + 1][..i] == ms[..i];
  }

  lemma VspcPhases(blocks: Blocks, v: VspcCommitted, ms: seq<Metadata>)
    ensures var painted := Painted(Painted(blocks, SetOf(v.removed), Some(false), Some(Gray)), SetOf(v.added), Some(true), None);
            RecoloredBlocks(painted, ms) == map h | h in blocks :: VspcBlock(blocks[h], h, v, ms)
  {
  }

  lemma RescoredStep(levels: map<nat, Level>, snapshots: seq<LevelCommitted>, i: nat)
    requires i < |snapshots|
    ensures var before := Rescored(levels, snapshots[..i]);
            var s := snapshots[i];
            Rescored(levels, snapshots[..i + 1]) == if s.level in before then before[s.level := before[s.level].(daaScore := s.daaScore)] else before
  {
    assert snapshots[..i + 1][..i] == snapshots[..i];
  }

  lemma RescoredGrounded(edges: Edges, levels: map<nat, Level>, snapshots: seq<LevelCommitted>)
    requires Grounded(edges, levels)
    ensures Grounded(edges, Rescored(levels, snapshots))
  {
  }

  lemma NothingCaptured(blocks: Blocks)
    ensures CapturesFields(Fresh, blocks, blocks)
  {
  }

  lemma LevelsAside(m: Mutation, captured: map<nat, Option<Level>>, before: Blocks, now: Blocks)
    ensures CapturesFields(m.(levels := captured), before, now) <==> CapturesFields(m, before, now)
  {
  }

  lemma ProjectedKeeps(c: Core, b: BlockCommitted, extent: LevelExtent)
    ensures var after := Projected(c, b, extent);
            after == c.(blocks := after.blocks, levels := after.levels, edges := after.edges)
    ensures forall low :: Pruned(Projected(c, b, extent), low).revision == c.revision
  {
  }

  lemma ExtentCaptured(m: Mutation, before: Core, now: Core, extent: LevelExtent)
    requires BlockCaptures(m, before, now)
    ensures BlockCaptures(m, before, now.(extent := extent))
  {
  }

  lemma GroundedMinus(edges: Edges, levels: map<nat, Level>, removed: set<EdgeId>)
    requires Grounded(edges, levels)
    ensures Grounded(edges - removed, levels)
  {
  }

  lemma PrunedIs(c: Core, low: nat)
    requires Grounded(c.edges, c.levels)
    ensures var children := Below(c.blocks, low);
            var edges := c.edges - ChildEdges(c.edges, children);
            && Pruned(c, low) == c.(blocks := c.blocks - children, edges := edges, levels := KeepLevels(c.levels, low, ParentLevels(edges)))
            && Grounded(edges, KeepLevels(c.levels, low, ParentLevels(edges)))
  {
    var children := Below(c.blocks, low);
    var kept := c.blocks - children;
    var edges := c.edges - ChildEdges(c.edges, children);
    assert kept == map h | h in c.blocks && c.blocks[h].coordinate.level >= low :: c.blocks[h];
    assert edges == map id | id in c.edges && !(id.child in c.blocks && id.child !in kept) :: c.edges[id];
    forall id | id in edges
      ensures edges[id].ParentLevel() in KeepLevels(c.levels, low, ParentLevels(edges))
    {
      assert edges[id].ParentLevel() in ParentLevels(edges);
    }
  }

  /** Dropping the levels below a bound whose count is zero keeps exactly the levels
      that the window or a retained edge needs. */
  lemma UnusedLevels(edges: Edges, levels: map<nat, StoredLevel>, low: nat, selected: set<nat>)
    requires Grounded(edges, Values(levels)) && UsageCounted(edges, levels)
    requires selected == set level | level in levels && level < low && levels[level].usageCount == 0
    ensures Values(levels - selected) == KeepLevels(Values(levels), low, ParentLevels(edges))
    ensures UsageCounted(edges, levels - selected)
  {
    forall level: nat
      ensures level in selected <==> level in levels && level < low && level !in ParentLevels(edges)
    {
      LevelUsage(edges, levels, level);
    }
    ValuesMinus(levels, selected);
  }

  lemma ProjectionGrounded(c: Core, b: BlockCommitted, target: LevelExtent)
    requires Grounded(c.edges, c.levels) && Admissible(c, b, target)
    ensures var es := RetainedEdges(b, b.directParents, target);
            var levels := Materialize(c.levels, b.levelSnapshots, c.edges, target, es);
            && (target.ContainsLevel(b.coordinate.level) ==> b.hash !in c.blocks)
            && EdgesAgree(c.edges, es)
            && (forall e :: e in es ==> e.ParentLevel() in levels)
            && Grounded(c.edges + EdgeMap(es), levels)
  {
    var es := RetainedEdges(b, b.directParents, target);
    var levels := Materialize(c.levels, b.levelSnapshots, c.edges, target, es);
    forall e | e in es
      ensures e.ParentLevel() in levels
    {
      MaterializeKeys(c.levels, b.levelSnapshots, c.edges, target, es, e.ParentLevel());
      assert e.ParentLevel() in Endpoints(es);
    }
    forall id | id in c.edges
      ensures c.edges[id].ParentLevel() in levels
    {
      MaterializeKeys(c.levels, b.levelSnapshots, c.edges, target, es, c.edges[id].ParentLevel());
    }
  }

  lemma RemoveNext<K, V>(m: map<K, V>, selected: set<K>, todo: set<K>, k: K)
    requires k in selected && k !in todo
    ensures m - (selected - todo) == m - (selected - (todo + {k})) - {k}
  {
  }

  function Below(blocks: Blocks, low: nat): set<BlockHash> {
    set h | h in blocks && blocks[h].coordinate.level < low
  }

  lemma PrunedIndex(blocks: Blocks, index: BlockIndex, pruned: BlockIndex, low: nat)
    requires BlocksIndexed(blocks, index)
    requires forall level :: level in index && level !in pruned ==> level < low
    requires forall level :: level in pruned ==> level >= low && Get(index, level) == Some(pruned[level])
    ensures BlocksIndexed(blocks - Below(blocks, low), pruned)
  {
    forall level: nat
      ensures Bucket(pruned, level) == HashesAt(blocks - Below(blocks, low), level)
    {
      assert Bucket(index, level) == HashesAt(blocks, level);
      assert level in pruned ==> Get(index, level) == Some(pruned[level]);
    }
  }

  function ChildEdges(edges: Edges, children: set<BlockHash>): set<EdgeId> {
    set id | id in edges && id.child in children
  }

  function KeepLevels(levels: map<nat, Level>, low: nat, used: set<nat>): map<nat, Level> {
    map level | level in levels && (level >= low || level in used) :: levels[level]
  }

  /** An edge identity has one value, in the view and in the committed parents. */
  predicate EdgesAgree(edges: Edges, es: seq<Edge>) {
    && (forall e :: e in es && e.id in edges ==> edges[e.id] == e)
    && (forall e, f :: e in es && f in es && e.id == f.id ==> e == f)
  }

  lemma EdgeMapStep(edges: Edges, es: seq<Edge>, i: nat)
    requires i < |es| && EdgesAgree(edges, es)
    ensures var now := edges + EdgeMap(es[..i]);
            && (es[i].id in now ==> now[es[i].id] == es[i])
            && edges + EdgeMap(es[..i + 1]) == now[es[i].id := es[i]]
  {
    var m := EdgeMap(es[..i]);
    assert EdgeMap(es[..i + 1]) == m[es[i].id := es[i]] by { assert es[..i + 1][..i] == es[..i]; }
    hide EdgeMap;
    MergeUpdate(edges, m, es[i].id, es[i]);
    if es[i].id in m {
      assert m[es[i].id] in es[..i] && m[es[i].id].id == es[i].id;
    }
  }

  lemma MergeUpdate<K, V>(a: map<K, V>, b: map<K, V>, k: K, v: V)
    ensures a + b[k := v] == (a + b)[k := v]
  {
  }

  lemma ValuesMinus(levels: map<nat, StoredLevel>, removed: set<nat>)
    ensures Values(levels - removed) == Values(levels) - removed
    ensures forall level :: level in levels ==> level in Values(levels) && Values(levels)[level] == levels[level].value
  {
  }

  lemma ValuesKeys(levels: map<nat, StoredLevel>)
    ensures Values(levels).Keys == levels.Keys
  {
  }

  lemma MaterializeStep(levels: map<nat, Level>, snapshots: seq<LevelCommitted>, i: nat, edges: Edges, extent: LevelExtent, es: seq<Edge>)
    requires i < |snapshots|
    ensures var before := Materialize(levels, snapshots[..i], edges, extent, es);
            Materialize(levels, snapshots[..i + 1], edges, extent, es) ==
            if Admits(edges, extent, es, snapshots[i].level)
            then before[snapshots[i].level := Materialized(Get(before, snapshots[i].level), snapshots[i])] else before
  {
    assert snapshots[..i + 1][..i] == snapshots[..i];
  }

  /** A stored count is positive exactly for the parent levels of retained edges. */
  lemma LevelUsage(edges: Edges, levels: map<nat, StoredLevel>, level: nat)
    requires Grounded(edges, Values(levels)) && UsageCounted(edges, levels)
    ensures (level in levels && levels[level].usageCount > 0) <==> level in ParentLevels(edges)
    ensures level !in levels ==> Usage(edges, level) == 0
  {
    UsagePositive(edges, level);
    if level in ParentLevels(edges) {
      assert level in Values(levels);
    }
  }

  lemma GroundedGrows(edges: Edges, levels: map<nat, Level>, level: nat, value: Level)
    requires Grounded(edges, levels)
    ensures Grounded(edges, levels[level := value])
  {
  }

  /** Usage counted against the edges before a delta: decrements stand for the edges
      it displaced, the rest were kept, and increments stand for those it stored. */
  lemma RemoveNothing(edges: Edges, ids: set<EdgeId>)
    ensures edges - (ids - ids) == edges
    ensures ids - {} == ids
  {
  }

  lemma GroundedAt(edges: Edges, levels: map<nat, Level>, id: EdgeId)
    requires Grounded(edges, levels) && id in edges
    ensures edges[id].ParentLevel() in levels
  {
  }

  lemma PrefixCounts(s: seq<nat>, i: nat)
    requires i < |s|
    ensures multiset(s[..i + 1]) == multiset(s[..i]) + multiset{s[i]}
    ensures multiset(s[..i + 1]) <= multiset(s)
  {
    assert s[..i + 1] == s[..i] + [s[i]];
    assert s == s[..i + 1] + s[i + 1..];
  }

  lemma BalancedAtStart(edges: Edges)
    ensures Balanced(edges, edges, edges, multiset{}, multiset{})
  {
  }

  lemma UsedOutsideNone(edges: Edges, level: nat)
    requires UsedOutside(edges, {}, level)
    ensures level in ParentLevels(edges)
  {
  }

  lemma PatchAll(edges: Edges, changes: map<EdgeId, Option<Edge>>)
    ensures Patch(edges, Done(changes, changes.Keys)) == edges
    ensures Done(changes, {}) == changes
  {
  }

  ghost predicate Balanced(before: Edges, kept: Edges, now: Edges, decrements: multiset<nat>, increments: multiset<nat>) {
    forall level: nat ::
      && Usage(now, level) + decrements[level] == Usage(before, level) + increments[level]
      && decrements[level] + Usage(kept, level) == Usage(before, level)
  }

  lemma BalancedDrop(before: Edges, kept: Edges, now: Edges, decrements: multiset<nat>, increments: multiset<nat>, id: EdgeId)
    requires Balanced(before, kept, now, decrements, increments)
    requires id in now && id in kept && kept[id] == now[id]
    ensures Balanced(before, kept - {id}, now - {id}, decrements + multiset{now[id].ParentLevel()}, increments)
  {
    forall level: nat { UsageDrops(now, id, level); }
    forall level: nat { UsageDrops(kept, id, level); }
  }

  lemma BalancedAdd(before: Edges, kept: Edges, now: Edges, decrements: multiset<nat>, increments: multiset<nat>, e: Edge)
    requires Balanced(before, kept, now, decrements, increments) && e.id !in now
    ensures Balanced(before, kept, now[e.id := e], decrements, increments + multiset{e.ParentLevel()})
  {
    forall level: nat { UsageAdds(now, e, level); }
  }

  function Overwrite(edges: Edges, id: EdgeId, change: Option<Edge>): Edges {
    if change.Some? then edges[id := change.value] else edges - {id}
  }

  predicate UsedOutside(edges: Edges, todo: set<EdgeId>, level: nat) {
    exists id :: id in edges && id !in todo && edges[id].ParentLevel() == level
  }

  lemma UsedOutsideStep(edges: Edges, todo: set<EdgeId>, id: EdgeId, change: Option<Edge>)
    requires id in todo
    ensures var now := Overwrite(edges, id, change);
            && (forall level :: UsedOutside(edges, todo, level) ==> UsedOutside(now, todo - {id}, level))
            && (change.Some? ==> UsedOutside(now, todo - {id}, change.value.ParentLevel()))
  {
    var now := Overwrite(edges, id, change);
    forall level | UsedOutside(edges, todo, level)
      ensures UsedOutside(now, todo - {id}, level)
    {
      var other :| other in edges && other !in todo && edges[other].ParentLevel() == level;
      assert other in now && now[other] == edges[other];
    }
    if change.Some? {
      assert id in now;
    }
  }

  lemma FieldsTwice(blocks: Blocks, vspc: map<BlockHash, FieldChange<bool>>, colors: map<BlockHash, FieldChange<Color>>)
    ensures ApplyFields(ApplyFields(blocks, vspc, map[]), map[], colors) == ApplyFields(blocks, vspc, colors)
  {
  }

  lemma VspcStep(blocks: Blocks, vspc: map<BlockHash, FieldChange<bool>>, h: BlockHash, change: FieldChange<bool>)
    ensures var now := ApplyFields(blocks, vspc, map[]);
            ApplyFields(blocks, vspc[h := change], map[]) ==
            if h in now then now[h := now[h].(isInVspc := change.after)] else now
  {
  }

  lemma ColorStep(blocks: Blocks, colors: map<BlockHash, FieldChange<Color>>, h: BlockHash, change: FieldChange<Color>)
    ensures var now := ApplyFields(blocks, map[], colors);
            ApplyFields(blocks, map[], colors[h := change]) ==
            if h in now then now[h := now[h].(color := change.after)] else now
  {
  }
}
