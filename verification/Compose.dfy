/** Composition of graph deltas along one lineage. */
module Compose {
  import opened Maps
  import opened Graph
  import opened Core
  import opened ReplayLaws

  // ----- The composition operator ------------------------------------------

  /** Before-value of the left change and after-value of the right one. */
  function Joint<T>(left: Option<FieldChange<T>>, right: Option<FieldChange<T>>): FieldChange<T>
    requires left.Some? || right.Some?
  {
    if left.None? then right.value
    else if right.None? then left.value
    else FieldChange(left.value.before, right.value.after)
  }

  /** Folds two change maps key by key and drops changes that cancel. */
  function ComposeChanges<K, T(==)>(left: map<K, FieldChange<T>>, right: map<K, FieldChange<T>>): map<K, FieldChange<T>> {
    map k | k in left.Keys + right.Keys && Joint(Get(left, k), Get(right, k)).before != Joint(Get(left, k), Get(right, k)).after ::
      Joint(Get(left, k), Get(right, k))
  }

  /** The composition of two gapless intervals; absent for a revision gap. */
  function Compose(left: Delta, right: Delta): Option<Delta> {
    if left.toRevision != right.fromRevision then None else Some(Joined(left, right))
  }

  function Joined(left: Delta, right: Delta): Delta {
    Delta(left.fromRevision, right.toRevision, right.timestamp, right.headLevel,
          left.blocks + right.blocks, left.edges + right.edges,
          ComposeChanges(left.levels, right.levels),
          ComposeChanges(left.vspc, right.vspc), ComposeChanges(left.colors, right.colors))
  }

  /** What composition leaves for one key. */
  function JointAt<T(==)>(left: Option<FieldChange<T>>, right: Option<FieldChange<T>>): Option<FieldChange<T>> {
    if left.None? && right.None? then None
    else if Joint(left, right).before == Joint(left, right).after then None
    else Some(Joint(left, right))
  }

  lemma ComposeChangesAt<K, T>(left: map<K, FieldChange<T>>, right: map<K, FieldChange<T>>, k: K)
    ensures Get(ComposeChanges(left, right), k) == JointAt(Get(left, k), Get(right, k))
  {
  }

  /** Folds the right changes into a copy of the left ones, then drops those that
      cancelled. */
  method FoldChanges<K(==), T(==)>(left: map<K, FieldChange<T>>, right: map<K, FieldChange<T>>) returns (composed: map<K, FieldChange<T>>)
    ensures composed == ComposeChanges(left, right)
  {
    composed := left;
    var todo := right.Keys;
    while todo != {}
      invariant todo <= right.Keys
      invariant composed.Keys == left.Keys + (right.Keys - todo)
      invariant forall k :: k in composed ==> composed[k] == Joint(Get(left, k), if k in todo then None else Get(right, k))
      decreases todo
    {
      var k :| k in todo;
      composed := composed[k := if k in composed then FieldChange(composed[k].before, right[k].after) else right[k]];
      todo := todo - {k};
    }
    composed := map k | k in composed && composed[k].before != composed[k].after :: composed[k];
  }

  /** Composes an interval with the immediately following one. */
  method ComposeDeltas(left: Delta, right: Delta) returns (r: Option<Delta>)
    ensures r == Compose(left, right)
  {
    if left.toRevision != right.fromRevision {
      return None;
    }
    var levels := FoldChanges(left.levels, right.levels);
    var vspc := FoldChanges(left.vspc, right.vspc);
    var colors := FoldChanges(left.colors, right.colors);
    r := Some(Delta(left.fromRevision, right.toRevision, right.timestamp, right.headLevel,
                    left.blocks + right.blocks, left.edges + right.edges, levels, vspc, colors));
  }

  // ----- One block along a lineage ------------------------------------------------

  function FieldsAt(block: Option<Block>, vspc: Option<FieldChange<bool>>, color: Option<FieldChange<Color>>): Option<Block> {
    if block.None? then None
    else Some(block.value.(
                isInVspc := if vspc.Some? then vspc.value.after else block.value.isInVspc,
                color := if color.Some? then color.value.after else block.value.color))
  }

  function PatchAt<V>(base: Option<V>, change: Option<Option<V>>): Option<V> {
    if change.Some? then change.value else base
  }

  function Merge<V>(left: Option<V>, right: Option<V>): Option<V> {
    if right.Some? then right else left
  }

  /** A field change concerns a block that is live at the source or touched by the
      interval, and records the value that block had. */
  predicate FieldExact<T(==)>(before: Option<T>, touched: bool, inserted: Option<T>, change: Option<FieldChange<T>>) {
    change.Some? ==>
      && (before.Some? || touched)
      && change.value.before != change.value.after
      && (before.Some? ==> change.value.before == before.value)
      && (inserted.Some? ==> change.value.before == inserted.value)
  }

  function Vspc(b: Option<Block>): Option<bool> { if b.Some? then Some(b.value.isInVspc) else None }
  function Hue(b: Option<Block>): Option<Color> { if b.Some? then Some(b.value.color) else None }
  function Inserted(change: Option<Option<Block>>): Option<Block> { if change.Some? then change.value else None }

  /** How an interval may treat one block hash: replay reaches the block's state at
      the target, and a hash that has left the lineage never returns to it. */
  predicate LinkedAt(before: Option<Block>, seen: bool, change: Option<Option<Block>>, vspc: Option<FieldChange<bool>>,
                     color: Option<FieldChange<Color>>, after: Option<Block>, seenAfter: bool) {
    && (before.Some? ==> seen)
    && after == FieldsAt(PatchAt(before, change), vspc, color)
    && seenAfter == (seen || change.Some?)
    && (change.Some? ==> before.Some? == seen)
    && (Inserted(change).Some? ==> !seen)
    && FieldExact(Vspc(before), change.Some?, Vspc(Inserted(change)), vspc)
    && FieldExact(Hue(before), change.Some?, Hue(Inserted(change)), color)
  }

  lemma LinkedCompose(a: Option<Block>, sa: bool, l: Option<Option<Block>>, lv: Option<FieldChange<bool>>, lc: Option<FieldChange<Color>>,
                      b: Option<Block>, sb: bool, r: Option<Option<Block>>, rv: Option<FieldChange<bool>>, rc: Option<FieldChange<Color>>,
                      c: Option<Block>, sc: bool)
    requires LinkedAt(a, sa, l, lv, lc, b, sb) && LinkedAt(b, sb, r, rv, rc, c, sc)
    ensures LinkedAt(a, sa, Merge(l, r), JointAt(lv, rv), JointAt(lc, rc), c, sc)
  {
  }

  // ----- Lineages -----------------------------------------------------------

  /** A view state together with every block hash its lineage has ever held. */
  datatype Point = Point(core: Core, seen: set<BlockHash>)

  ghost predicate BlockLinked(pre: Point, d: Delta, post: Point, h: BlockHash) {
    LinkedAt(Get(pre.core.blocks, h), h in pre.seen, Get(d.blocks, h), Get(d.vspc, h), Get(d.colors, h),
             Get(post.core.blocks, h), h in post.seen)
  }

  /** An interval of one lineage, emitted by a view or composed from such
      intervals: replay reaches the target and level changes are exact. */
  ghost predicate Link(pre: Point, d: Delta, post: Point) {
    && pre.core.Shaped() && post.core.Shaped()
    && d.fromRevision == pre.core.revision < d.toRevision
    && Replay(pre.core, d).(blocks := post.core.blocks) == post.core
    && Related(pre, d, post)
  }

  ghost predicate Related(pre: Point, d: Delta, post: Point) {
    && d.levels == LevelDiff(pre.core.levels, post.core.levels)
    && forall h :: BlockLinked(pre, d, post, h)
  }

  lemma ReplayBlocks(c: Core, d: Delta, h: BlockHash)
    requires 1 <= c.maxDepth
    ensures Get(Replay(c, d).blocks, h) == FieldsAt(PatchAt(Get(c.blocks, h), Get(d.blocks, h)), Get(d.vspc, h), Get(d.colors, h))
  {
    assert h in Patch(c.blocks, d.blocks) <==> PatchAt(Get(c.blocks, h), Get(d.blocks, h)).Some?;
  }

  /** Replaying an interval of a lineage from its source reaches its target. */
  lemma LinkReplays(pre: Point, d: Delta, post: Point)
    requires Link(pre, d, post)
    ensures Replay(pre.core, d) == post.core
  {
    forall h
      ensures Get(Replay(pre.core, d).blocks, h) == Get(post.core.blocks, h)
    {
      assert BlockLinked(pre, d, post, h);
      ReplayBlocks(pre.core, d, h);
    }
    MapsEqual(Replay(pre.core, d).blocks, post.core.blocks);
  }

  function LevelDiffAt(before: Option<Level>, after: Option<Level>): Option<LevelChange> {
    if before == after then None else Some(FieldChange(before, after))
  }

  lemma LevelDiffIs(before: map<nat, Level>, after: map<nat, Level>, level: nat)
    ensures Get(LevelDiff(before, after), level) == LevelDiffAt(Get(before, level), Get(after, level))
  {
  }

  lemma ComposedLevelsExact(a: map<nat, Level>, b: map<nat, Level>, c: map<nat, Level>)
    ensures ComposeChanges(LevelDiff(a, b), LevelDiff(b, c)) == LevelDiff(a, c)
  {
    forall level
      ensures Get(ComposeChanges(LevelDiff(a, b), LevelDiff(b, c)), level) == Get(LevelDiff(a, c), level)
    {
      ComposeChangesAt(LevelDiff(a, b), LevelDiff(b, c), level);
      LevelDiffIs(a, b, level);
      LevelDiffIs(b, c, level);
      LevelDiffIs(a, c, level);
    }
    MapsEqual(ComposeChanges(LevelDiff(a, b), LevelDiff(b, c)), LevelDiff(a, c));
  }

  lemma BlockComposed(a: Point, left: Delta, b: Point, right: Delta, c: Point, h: BlockHash)
    requires BlockLinked(a, left, b, h) && BlockLinked(b, right, c, h)
    ensures BlockLinked(a, Joined(left, right), c, h)
  {
    LinkedCompose(Get(a.core.blocks, h), h in a.seen, Get(left.blocks, h), Get(left.vspc, h), Get(left.colors, h),
                  Get(b.core.blocks, h), h in b.seen, Get(right.blocks, h), Get(right.vspc, h), Get(right.colors, h),
                  Get(c.core.blocks, h), h in c.seen);
    ComposeChangesAt(left.vspc, right.vspc, h);
    ComposeChangesAt(left.colors, right.colors, h);
    assert Get(left.blocks + right.blocks, h) == Merge(Get(left.blocks, h), Get(right.blocks, h));
  }

  /** Composition preserves meaning: adjacent intervals of a lineage compose to an
      interval of the same lineage, whose replay reaches the same state. */
  lemma ComposedLink(a: Point, left: Delta, b: Point, right: Delta, c: Point)
    requires Link(a, left, b) && Link(b, right, c)
    ensures Compose(left, right) == Some(Joined(left, right))
    ensures Link(a, Joined(left, right), c)
  {
    forall h
      ensures BlockLinked(a, Joined(left, right), c, h)
    {
      assert BlockLinked(a, left, b, h) && BlockLinked(b, right, c, h);
      BlockComposed(a, left, b, right, c, h);
    }
    PatchMerge(a.core.edges, left.edges, right.edges);
    ComposedLevelsExact(a.core.levels, b.core.levels, c.core.levels);
    LevelDiffReplays(a.core.levels, c.core.levels);
  }

  lemma JointAssociative<T>(x: Option<FieldChange<T>>, y: Option<FieldChange<T>>, z: Option<FieldChange<T>>)
    requires x.Some? ==> x.value.before != x.value.after
    requires y.Some? ==> y.value.before != y.value.after
    requires z.Some? ==> z.value.before != z.value.after
    requires x.Some? && y.Some? ==> x.value.after == y.value.before
    requires y.Some? && z.Some? ==> y.value.after == z.value.before
    requires x.Some? && y.None? && z.Some? ==> x.value.after == z.value.before
    ensures JointAt(JointAt(x, y), z) == JointAt(x, JointAt(y, z))
  {
  }

  lemma BlockAssociative(a: Point, x: Delta, b: Point, y: Delta, c: Point, z: Delta, d: Point, h: BlockHash)
    requires BlockLinked(a, x, b, h) && BlockLinked(b, y, c, h) && BlockLinked(c, z, d, h)
    ensures JointAt(JointAt(Get(x.vspc, h), Get(y.vspc, h)), Get(z.vspc, h)) == JointAt(Get(x.vspc, h), JointAt(Get(y.vspc, h), Get(z.vspc, h)))
    ensures JointAt(JointAt(Get(x.colors, h), Get(y.colors, h)), Get(z.colors, h)) == JointAt(Get(x.colors, h), JointAt(Get(y.colors, h), Get(z.colors, h)))
  {
    JointAssociative(Get(x.vspc, h), Get(y.vspc, h), Get(z.vspc, h));
    JointAssociative(Get(x.colors, h), Get(y.colors, h), Get(z.colors, h));
  }

  lemma FieldsAssociative<T>(x: map<BlockHash, FieldChange<T>>, y: map<BlockHash, FieldChange<T>>, z: map<BlockHash, FieldChange<T>>)
    requires forall h: BlockHash :: JointAt(JointAt(Get(x, h), Get(y, h)), Get(z, h)) == JointAt(Get(x, h), JointAt(Get(y, h), Get(z, h)))
    ensures ComposeChanges(ComposeChanges(x, y), z) == ComposeChanges(x, ComposeChanges(y, z))
  {
    var left, right := ComposeChanges(ComposeChanges(x, y), z), ComposeChanges(x, ComposeChanges(y, z));
    forall h
      ensures Get(left, h) == Get(right, h)
    {
      RegroupAt(x, y, z, h);
    }
    MapsEqual(left, right);
  }

  lemma LevelsAssociative(a: map<nat, Level>, b: map<nat, Level>, c: map<nat, Level>, d: map<nat, Level>)
    ensures ComposeChanges(ComposeChanges(LevelDiff(a, b), LevelDiff(b, c)), LevelDiff(c, d)) ==
            ComposeChanges(LevelDiff(a, b), ComposeChanges(LevelDiff(b, c), LevelDiff(c, d)))
  {
    ComposedLevelsExact(a, b, c);
    ComposedLevelsExact(b, c, d);
    ComposedLevelsExact(a, c, d);
    ComposedLevelsExact(a, b, d);
  }

  lemma ChangesAssociative(a: Point, x: Delta, b: Point, y: Delta, c: Point, z: Delta, d: Point)
    requires Related(a, x, b) && Related(b, y, c) && Related(c, z, d)
    ensures ComposeChanges(ComposeChanges(x.vspc, y.vspc), z.vspc) == ComposeChanges(x.vspc, ComposeChanges(y.vspc, z.vspc))
    ensures ComposeChanges(ComposeChanges(x.colors, y.colors), z.colors) == ComposeChanges(x.colors, ComposeChanges(y.colors, z.colors))
    ensures ComposeChanges(ComposeChanges(x.levels, y.levels), z.levels) == ComposeChanges(x.levels, ComposeChanges(y.levels, z.levels))
  {
    forall h: BlockHash
      ensures JointAt(JointAt(Get(x.vspc, h), Get(y.vspc, h)), Get(z.vspc, h)) == JointAt(Get(x.vspc, h), JointAt(Get(y.vspc, h), Get(z.vspc, h)))
      ensures JointAt(JointAt(Get(x.colors, h), Get(y.colors, h)), Get(z.colors, h)) == JointAt(Get(x.colors, h), JointAt(Get(y.colors, h), Get(z.colors, h)))
    {
      assert BlockLinked(a, x, b, h) && BlockLinked(b, y, c, h) && BlockLinked(c, z, d, h);
      BlockAssociative(a, x, b, y, c, z, d, h);
    }
    FieldsAssociative(x.vspc, y.vspc, z.vspc);
    FieldsAssociative(x.colors, y.colors, z.colors);
    LevelsAssociative(a.core.levels, b.core.levels, c.core.levels, d.core.levels);
  }

  /** Composition is associative along a lineage, although it drops cancelled
      changes at every step. */
  lemma ComposeAssociative(a: Point, x: Delta, b: Point, y: Delta, c: Point, z: Delta, d: Point)
    requires Related(a, x, b) && Related(b, y, c) && Related(c, z, d)
    ensures Joined(Joined(x, y), z) == Joined(x, Joined(y, z))
  {
    ChangesAssociative(a, x, b, y, c, z, d);
    MergeAssociative(x.blocks, y.blocks, z.blocks);
    MergeAssociative(x.edges, y.edges, z.edges);
  }

  lemma MergeAssociative<K, V>(x: map<K, V>, y: map<K, V>, z: map<K, V>)
    ensures x + y + z == x + (y + z)
  {
  }

  lemma RegroupAt<K, T>(x: map<K, FieldChange<T>>, y: map<K, FieldChange<T>>, z: map<K, FieldChange<T>>, k: K)
    ensures Get(ComposeChanges(ComposeChanges(x, y), z), k) == JointAt(JointAt(Get(x, k), Get(y, k)), Get(z, k))
    ensures Get(ComposeChanges(x, ComposeChanges(y, z)), k) == JointAt(Get(x, k), JointAt(Get(y, k), Get(z, k)))
  {
    ComposeChangesAt(x, y, k);
    ComposeChangesAt(y, z, k);
    ComposeChangesAt(ComposeChanges(x, y), z, k);
    ComposeChangesAt(x, ComposeChanges(y, z), k);
  }

  // ----- Composition without the once-only insertion of hashes ------------------

  /** The interval's before-values describe the state it is applied to. */
  ghost predicate Exact(c: Core, d: Delta) {
    && c.Shaped()
    && d.levels == LevelDiff(c.levels, Replay(c, d).levels)
    && forall h :: BlockExact(c, d, h)
  }

  predicate BlockExact(c: Core, d: Delta, h: BlockHash) {
    var before, change := Get(c.blocks, h), Get(d.blocks, h);
    && FieldExact(Vspc(before), change.Some?, Vspc(Inserted(change)), Get(d.vspc, h))
    && FieldExact(Hue(before), change.Some?, Hue(Inserted(change)), Get(d.colors, h))
  }

  /** An earlier field change survives a later insertion of the same hash unharmed. */
  predicate FieldSurvives<T(==)>(earlier: Option<FieldChange<T>>, inserted: T, later: Option<FieldChange<T>>) {
    earlier.None? || (if later.Some? then earlier.value.before != later.value.after else earlier.value.after == inserted)
  }

  predicate Compatible(x: Delta, y: Delta, h: BlockHash) {
    h in y.blocks && y.blocks[h].Some? ==>
      && FieldSurvives(Get(x.vspc, h), y.blocks[h].value.isInVspc, Get(y.vspc, h))
      && FieldSurvives(Get(x.colors, h), y.blocks[h].value.color, Get(y.colors, h))
  }

  lemma SurvivesAt(a: Option<Block>, l: Option<Option<Block>>, lv: Option<FieldChange<bool>>, lc: Option<FieldChange<Color>>,
                   r: Option<Option<Block>>, rv: Option<FieldChange<bool>>, rc: Option<FieldChange<Color>>)
    requires FieldExact(Vspc(a), l.Some?, Vspc(Inserted(l)), lv) && FieldExact(Hue(a), l.Some?, Hue(Inserted(l)), lc)
    requires var b := FieldsAt(PatchAt(a, l), lv, lc);
             FieldExact(Vspc(b), r.Some?, Vspc(Inserted(r)), rv) && FieldExact(Hue(b), r.Some?, Hue(Inserted(r)), rc)
    ensures FieldsAt(PatchAt(a, Merge(l, r)), JointAt(lv, rv), JointAt(lc, rc)) ==
              FieldsAt(PatchAt(FieldsAt(PatchAt(a, l), lv, lc), r), rv, rc)
            <==>
            (Inserted(r).Some? ==> FieldSurvives(lv, r.value.value.isInVspc, rv) && FieldSurvives(lc, r.value.value.color, rc))
  {
  }

  lemma CompatibleAt(c: Core, x: Delta, y: Delta, h: BlockHash)
    requires c.Shaped() && BlockExact(c, x, h) && BlockExact(Replay(c, x), y, h)
    ensures Get(Replay(c, Joined(x, y)).blocks, h) == Get(Replay(Replay(c, x), y).blocks, h) <==> Compatible(x, y, h)
  {
    ReplayBlocks(c, x, h);
    ReplayBlocks(Replay(c, x), y, h);
    ReplayBlocks(c, Joined(x, y), h);
    ComposeChangesAt(x.vspc, y.vspc, h);
    ComposeChangesAt(x.colors, y.colors, h);
    assert Get(x.blocks + y.blocks, h) == Merge(Get(x.blocks, h), Get(y.blocks, h));
    SurvivesAt(Get(c.blocks, h), Get(x.blocks, h), Get(x.vspc, h), Get(x.colors, h), Get(y.blocks, h), Get(y.vspc, h), Get(y.colors, h));
  }

  /** For any two adjacent intervals with exact before-values, composition preserves
      meaning if and only if no inserted hash inherits a stale field change. */
  lemma ComposePreservesIffCompatible(c: Core, x: Delta, y: Delta)
    requires Exact(c, x) && Exact(Replay(c, x), y)
    ensures Replay(c, Joined(x, y)) == Replay(Replay(c, x), y) <==> forall h :: Compatible(x, y, h)
  {
    var once, twice := Replay(c, Joined(x, y)), Replay(Replay(c, x), y);
    PatchMerge(c.edges, x.edges, y.edges);
    ComposedLevelsExact(c.levels, Replay(c, x).levels, twice.levels);
    LevelDiffReplays(c.levels, twice.levels);
    forall h
      ensures Get(once.blocks, h) == Get(twice.blocks, h) <==> Compatible(x, y, h)
    {
      assert BlockExact(c, x, h) && BlockExact(Replay(c, x), y, h);
      CompatibleAt(c, x, y, h);
    }
    if forall h :: Compatible(x, y, h) {
      forall h
        ensures Get(once.blocks, h) == Get(twice.blocks, h)
      {
        assert Compatible(x, y, h);
      }
      MapsEqual(once.blocks, twice.blocks);
    }
  }

  /** A recolouring followed by a re-insertion of the same hash is incompatible. */
  lemma ReinsertionDiverges()
    ensures exists c: Core, x: Delta, y: Delta ::
              && c.Shaped() && c.policy.Head? && x.fromRevision == c.revision && x.toRevision == y.fromRevision
              && Replay(c, Joined(x, y)) != Replay(Replay(c, x), y)
  {
    var gray := Block(1, Coordinate(1, 0), 0, 0, None, [], [], [], Gray, false);
    var c := Core(1, LevelExtent(1, 1), 0, 0, Head, map[], map[1 := gray], map[]);
    var x := Delta(0, 1, 0, 1, map[], map[], map[], map[], map[1 := FieldChange(Gray, Blue)]);
    var y := Delta(1, 2, 0, 1, map[1 := Some(gray)], map[], map[], map[], map[]);
    ReplayBlocks(c, x, 1);
    CompatibleAt(c, x, y, 1);
    assert !Compatible(x, y, 1);
  }
}
