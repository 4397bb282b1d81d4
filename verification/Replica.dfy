/** A writer view and a replica that only ever applies the writer's deltas. */
module Replica {
  import opened Maps
  import opened Graph
  import opened Core
  import opened ViewState
  import opened ReplayLaws
  import opened Compose
  import opened Lineage
  import V = GraphView

  lemma EdgeKeys(before: Core, after: Core)
    requires Grounded(after.edges, after.levels)
    ensures var changes := Diff(before.edges, after.edges);
            forall id :: id in changes && changes[id].Some? ==> changes[id].value.id == id
  {
  }

  /** Commits a block and replays its delta: the replica's complete stored state,
      indexes and counts included, stays equal to the writer's. */
  method ReplicateBlock(writer: V.GraphView, replica: V.GraphView, b: BlockCommitted, now: nat)
    requires writer != replica && writer.Valid() && replica.Valid() && writer.State() == replica.State()
    requires HeadWindow(writer.Now()) && Stored(writer.Now(), b)
    modifies writer, replica
    ensures writer.Valid() && replica.Valid() && writer.State() == replica.State()
    ensures HeadWindow(writer.Now()) && writer.Now() == HeadCommit(old(writer.Now()), b, now).0
  {
    ghost var before := writer.Now();
    StoredIsAdmissible(before, b);
    HeadCommitReplays(before, b, now);
    HeadCommitKeepsWindow(before, b, now);
    hide Coherent, HeadWindow, Stored, Replay, Grounded, Admissible, HeadGraph, BlockDelta;
    var d := writer.ApplyHeadBlockCommitted(b, now);
    if d.Some? {
      ValidGrounded(writer);
      CommittedDelta(before, b, now);
      var outcome := replica.ApplyDelta(d.value);
    }
    CoherentDecides(writer.State(), replica.State());
  }

  lemma ValidGrounded(view: V.GraphView)
    requires view.Valid()
    ensures Grounded(view.Now().edges, view.Now().levels) && view.Now().Shaped()
  {
  }

  lemma CommittedDelta(c: Core, b: BlockCommitted, now: nat)
    requires c.Shaped() && 1 <= b.coordinate.level
    requires Grounded(HeadCommit(c, b, now).0.edges, HeadCommit(c, b, now).0.levels)
    ensures var d := HeadCommit(c, b, now).1;
            d.Some? ==>
              && 1 <= d.value.headLevel && d.value.fromRevision == c.revision
              && forall id :: id in d.value.edges && d.value.edges[id].Some? ==> d.value.edges[id].value.id == id
  {
    EdgeKeys(c, HeadGraph(c, b));
  }

  /** The same for a VSPC transition. */
  method ReplicateVspc(writer: V.GraphView, replica: V.GraphView, v: VspcCommitted, now: nat)
    requires writer != replica && writer.Valid() && replica.Valid() && writer.State() == replica.State()
    requires HeadWindow(writer.Now())
    modifies writer, replica
    ensures writer.Valid() && replica.Valid() && writer.State() == replica.State()
    ensures HeadWindow(writer.Now()) && writer.Now() == HeadVspc(old(writer.Now()), v, now).0
  {
    ghost var before := writer.Now();
    HeadVspcReplays(before, v, now);
    HeadVspcKeepsWindow(before, v, now);
    hide Coherent, HeadWindow, Replay, Grounded, VspcGraph;
    var d := writer.ApplyHeadVspcCommitted(v, now);
    if d.Some? {
      ValidGrounded(writer);
      var outcome := replica.ApplyDelta(d.value);
    }
    CoherentDecides(writer.State(), replica.State());
  }

  /** A replica at the source of a lineage interval follows it to the target; the
      interval may be a single delta or any composition of a chain. */
  method Follow(replica: V.GraphView, d: Delta, ghost pre: Point, ghost post: Point)
    requires replica.Valid() && replica.policy.Head? && replica.Now() == pre.core
    requires Link(pre, d, post) && Settled(post)
    requires forall id :: id in d.edges && d.edges[id].Some? ==> d.edges[id].value.id == id
    requires 1 <= d.headLevel
    modifies replica
    ensures replica.Valid() && replica.Now() == post.core
  {
    LinkReplays(pre, d, post);
    HeadWindowGrounded(post.core);
    var outcome := replica.ApplyDelta(d);
  }
}
