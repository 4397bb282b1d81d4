/** The dyadic ladder of replay targets and the decisions taken on it. */
module Ladder {
  import opened Maps
  import opened History
  import opened Words

  const BASE_SPAN: nat := 4
  const MAX_SPAN: nat := 128

  /** The largest power of two dividing a positive revision: its lowest set bit. */
  function LowestOne(x: nat): (bit: nat)
    requires 0 < x
    ensures 1 <= bit <= x
  {
    if x % 2 == 1 then 1 else 2 * LowestOne(x / 2)
  }

  /** The next boundary of the ordinary replay lattice; a cursor off the base
      lattice first moves a whole base span and then up to the lattice. */
  function OrdinarySuccessor(source: nat): nat {
    if source == 0 || LowestOne(source) < BASE_SPAN then
      var minimum := source + BASE_SPAN;
      if minimum % BASE_SPAN == 0 then minimum else minimum + (BASE_SPAN - minimum % BASE_SPAN)
    else
      source + Min(LowestOne(source), MAX_SPAN)
  }

  /** The revisions whose successor does not overflow 64 bits. */
  predicate Fits(source: nat) { OrdinarySuccessor(source) <= U64_MAX }

  function NextPowerOfTwo(n: nat): (p: nat)
    requires 0 < n
    ensures n <= p
  {
    PowerFrom(1, n)
  }

  function PowerFrom(p: nat, n: nat): (r: nat)
    requires 0 < p
    ensures n <= r
    decreases n - p
  {
    if n <= p then p else PowerFrom(2 * p, n)
  }

  /** The first multiple of a span strictly after a revision. */
  function NextMultiple(source: nat, span: nat): nat
    requires 0 < span
  {
    (source / span + 1) * span
  }

  function Interior(source: nat, successor: nat, span: nat, last: nat): seq<nat> {
    if span == 0 then []
    else
      var target := NextMultiple(source, span);
      if target < successor && target != last then [target] + Interior(source, successor, span / 2, target)
      else Interior(source, successor, span / 2, last)
  }

  /** A source's targets from farthest to nearest. */
  function Boundaries(source: nat): seq<nat> {
    var successor := OrdinarySuccessor(source);
    [successor] + (SuccessorAhead(source); Interior(source, successor, NextPowerOfTwo(successor - source) / 2, successor))
  }

  /** No checked step of the ladder overflows unless its first target does. */
  method TargetBoundaries(source: nat) returns (targets: seq<nat>)
    requires Fits(source)
    ensures targets == Boundaries(source)
    ensures forall t :: t in targets ==> t <= U64_MAX
  {
    var successor := OrdinarySuccessor(source);
    SuccessorAhead(source);
    HalfPowerBelow(1, successor - source);
    targets := [successor];
    var span := NextPowerOfTwo(successor - source) / 2;
    while span > 0
      invariant 0 <= span < successor - source
      invariant targets != [] && targets + Interior(source, successor, span, targets[|targets| - 1]) == Boundaries(source)
      invariant forall t :: t in targets ==> t <= U64_MAX
    {
      MultipleWithin(source, span);
      var target := (source / span + 1) * span;
      if target < successor && targets[|targets| - 1] != target {
        targets := targets + [target];
      }
      span := span / 2;
    }
  }

  lemma MultipleWithin(source: nat, span: nat)
    requires 0 < span
    ensures NextMultiple(source, span) <= source + span
  {
    assert source == span * (source / span) + source % span;
  }

  lemma {:induction false} HalfPowerBelow(p: nat, n: nat)
    requires 0 < p <= n
    ensures PowerFrom(p, n) / 2 < n
    decreases n - p
  {
    if 2 * p <= n {
      HalfPowerBelow(2 * p, n);
    } else if p < n {
      assert PowerFrom(2 * p, n) == 2 * p;
    }
  }

  // ----- Powers of two -------------------------------------------------------------

  predicate Power(p: nat) {
    p == 1 || (p > 1 && p % 2 == 0 && Power(p / 2))
  }

  /** Divisibility by a power of two, by halving both numbers. */
  predicate Divides(p: nat, x: nat)
    decreases p
  {
    p <= 1 || (x % 2 == 0 && Divides(p / 2, x / 2))
  }

  lemma {:induction false} DividesMod(p: nat, x: nat)
    requires Power(p) && Divides(p, x)
    ensures x % p == 0
  {
    if p > 1 {
      DividesMod(p / 2, x / 2);
      DoubleMod(p / 2, x / 2);
    }
  }

  lemma DoubleMod(d: nat, x: nat)
    requires 0 < d && x % d == 0
    ensures (2 * x) % (2 * d) == 0
  {
    assert 2 * x == (2 * d) * (x / d);
    ZeroRemainder(2 * x, 2 * d, x / d);
  }

  lemma ZeroRemainder(x: nat, d: nat, q: nat)
    requires 0 < d && x == d * q
    ensures x % d == 0
  {
    var k, r := x / d, x % d;
    assert x == d * k + r;
    assert d * (q - k) == r;
    ProductBound(d, q - k);
  }

  lemma ProductBound(d: nat, n: int)
    requires 0 < d
    ensures n >= 1 ==> d * n >= d
    ensures n <= -1 ==> d * n + d <= 0
  {
    assert d * (n - 1) == d * n - d;
    assert d * (n + 1) == d * n + d;
  }

  /** A power of two divides a revision exactly up to its lowest bit. */
  lemma {:induction false} DividesUpToLowest(p: nat, x: nat)
    requires 0 < x && Power(p)
    ensures Divides(p, x) <==> p <= LowestOne(x)
  {
    if p > 1 && x % 2 == 0 {
      DividesUpToLowest(p / 2, x / 2);
    }
  }

  lemma {:induction false} LowestIsPower(x: nat)
    requires 0 < x
    ensures Power(LowestOne(x))
  {
    if x % 2 == 0 {
      LowestIsPower(x / 2);
    }
  }

  lemma {:induction false} DividesSum(p: nat, x: nat, y: nat)
    requires Divides(p, x) && Divides(p, y)
    ensures Divides(p, x + y)
  {
    if p > 1 {
      DividesSum(p / 2, x / 2, y / 2);
      assert (x + y) / 2 == x / 2 + y / 2;
    }
  }

  /** Adding the lowest bit carries into the next one. */
  lemma {:induction false} LowestCarries(x: nat)
    requires 0 < x
    ensures Divides(2 * LowestOne(x), x + LowestOne(x))
  {
    if x % 2 == 0 {
      LowestCarries(x / 2);
      assert (x + LowestOne(x)) / 2 == x / 2 + LowestOne(x / 2);
    } else {
      assert Divides(1, (x + 1) / 2);
    }
  }

  lemma {:induction false} DividesDown(p: nat, q: nat, x: nat)
    requires Power(p) && Power(q) && q <= p && Divides(p, x)
    ensures Divides(q, x)
  {
    if q > 1 {
      DividesDown(p / 2, q / 2, x / 2);
    }
  }

  lemma SmallPowers()
    ensures Power(1) && Power(2) && Power(4) && Power(8) && Power(16) && Power(32) && Power(64) && Power(128)
  {
    assert Power(2) && Power(4);
    assert Power(8) && Power(16);
    assert Power(32) && Power(64);
  }

  lemma DividesFour(x: nat)
    ensures Divides(4, x) <==> x % 4 == 0
  {
    assert Divides(4, x) <==> x % 2 == 0 && Divides(2, x / 2);
    assert Divides(2, x / 2) <==> (x / 2) % 2 == 0 && Divides(1, x / 2 / 2);
  }

  /** The ordinary span is the lowest bit capped at the maximum, a power of two. */
  function Span(source: nat): nat
    requires 0 < source
  {
    Min(LowestOne(source), MAX_SPAN)
  }

  lemma SpanAligns(source: nat)
    requires 0 < source
    ensures Power(Span(source)) && Divides(Span(source), source)
    ensures source % 4 == 0 <==> LowestOne(source) >= 4
  {
    SmallPowers();
    LowestIsPower(source);
    DividesUpToLowest(Span(source), source);
    DividesUpToLowest(4, source);
    DividesFour(source);
  }

  lemma {:induction false} ModDivides(p: nat, x: nat)
    requires Power(p) && x % p == 0
    ensures Divides(p, x)
  {
    if p > 1 {
      HalfMod(p / 2, x);
      ModDivides(p / 2, x / 2);
    }
  }

  lemma HalfMod(half: nat, x: nat)
    requires half > 0 && x % (2 * half) == 0
    ensures x % 2 == 0 && (x / 2) % half == 0
  {
    var k := x / (2 * half);
    assert x == 2 * half * k;
    assert x == 2 * (half * k);
    assert x / 2 == half * k;
    ZeroRemainder(x / 2, half, k);
  }

  /** The span of an aligned source is the largest power of two up to 128 that divides it. */
  lemma SpanIsLargest(source: nat, p: nat)
    requires 0 < source && Power(p) && p <= 128
    ensures source % p == 0 <==> p <= Span(source)
  {
    SpanAligns(source);
    DividesUpToLowest(p, source);
    if source % p == 0 {
      ModDivides(p, source);
    }
    if p <= Span(source) {
      DividesMod(p, source);
    }
  }

  // ----- Shape ------------------------------------------------------------------------

  lemma SuccessorIs(source: nat)
    ensures OrdinarySuccessor(source) - source ==
            if source == 0 then 4 else if source % 4 == 0 then Span(source) else 8 - source % 4
  {
    if source > 0 {
      SpanAligns(source);
    }
  }

  lemma SuccessorAhead(source: nat)
    ensures source + 4 <= OrdinarySuccessor(source) <= source + 128
  {
    SuccessorIs(source);
    if source > 0 {
      SpanAligns(source);
    }
  }

  /** The targets of an aligned source: halving spans down to one. */
  function Halvings(source: nat, span: nat): seq<nat> {
    if span == 0 then [] else [source + span] + Halvings(source, span / 2)
  }

  lemma ExactMultiple(x: nat, d: nat)
    requires 0 < d && x % d == 0
    ensures (x / d + 1) * d == x + d
  {
  }

  lemma AlignedMultiple(source: nat, span: nat)
    requires Power(span) && Divides(span, source)
    ensures NextMultiple(source, span) == source + span && Divides(span / 2, source)
  {
    DividesMod(span, source);
    ExactMultiple(source, span);
    if span > 1 {
      DividesDown(span, span / 2, source);
    }
  }

  lemma {:induction false} InteriorHalves(source: nat, successor: nat, span: nat, last: nat)
    requires span == 0 || (Power(span) && Divides(span, source) && source + span < successor && source + span < last)
    ensures Interior(source, successor, span, last) == Halvings(source, span)
  {
    if span > 0 {
      AlignedMultiple(source, span);
      InteriorHalves(source, successor, span / 2, source + span);
    }
  }

  lemma {:induction false} PowerFromPower(p: nat, n: nat)
    requires Power(p) && Power(n) && p <= n
    ensures PowerFrom(p, n) == n
    decreases n - p
  {
    if p < n {
      PowersApart(p, n);
      PowerFromPower(2 * p, n);
    }
  }

  lemma {:induction false} PowersApart(p: nat, n: nat)
    requires Power(p) && Power(n) && p < n
    ensures 2 * p <= n && Power(2 * p)
  {
    if p > 1 {
      PowersApart(p / 2, n / 2);
    }
  }

  lemma SmallMultiples(source: nat)
    ensures NextMultiple(source, 4) == source + 4 - source % 4
    ensures NextMultiple(source, 2) == source + 2 - source % 2
    ensures NextMultiple(source, 1) == source + 1
  {
  }

  lemma NextMultiples(k: nat, r: nat)
    requires 1 <= r <= 3
    ensures NextMultiple(4 * k + r, 4) == 4 * k + 4
    ensures NextMultiple(4 * k + r, 2) == 4 * k + if r == 1 then 2 else 4
    ensures NextMultiple(4 * k + r, 1) == 4 * k + r + 1
  {
    assert (4 * k + r) / 4 == k;
    assert (4 * k + r) / 2 == 2 * k + if r == 1 then 0 else 1;
    assert (4 * k + r) / 1 == 4 * k + r;
  }

  lemma InteriorNext(source: nat, successor: nat, span: nat, last: nat)
    requires span > 0
    ensures var target := NextMultiple(source, span);
            Interior(source, successor, span, last) ==
            if target < successor && target != last then [target] + Interior(source, successor, span / 2, target)
            else Interior(source, successor, span / 2, last)
  {
  }

  lemma OffLatticeOf(k: nat, r: nat)
    requires 1 <= r <= 3
    ensures var source, successor := 4 * k + r, 4 * k + 8;
            Interior(source, successor, 4, successor) ==
            if r == 1 then [4 * k + 4, 4 * k + 2] else if r == 2 then [4 * k + 4, 4 * k + 3] else [4 * k + 4]
  {
    var source, successor := 4 * k + r, 4 * k + 8;
    NextMultiples(k, r);
    var m4, m2, m1 := 4 * k + 4, 4 * k + if r == 1 then 2 else 4, source + 1;
    InteriorNext(source, successor, 4, successor);
    InteriorNext(source, successor, 2, m4);
    InteriorNext(source, successor, 1, m4);
    InteriorNext(source, successor, 1, m2);
    assert Interior(source, successor, 0, m1) == [] && Interior(source, successor, 0, m2) == [] && Interior(source, successor, 0, m4) == [];
    hide NextMultiple, Interior;
  }

  lemma OffLatticeInterior(source: nat)
    requires source % 4 != 0
    ensures var successor := source + 8 - source % 4;
            Interior(source, successor, 4, successor) ==
            if source % 4 == 1 then [source + 3, source + 1] else if source % 4 == 2 then [source + 2, source + 1] else [source + 1]
  {
    hide Interior;
    assert source == 4 * (source / 4) + source % 4;
    OffLatticeOf(source / 4, source % 4);
  }

  /** The ladder in closed form. */
  lemma BoundariesAre(source: nat)
    ensures Boundaries(source) ==
            if source == 0 then [4, 2, 1]
            else if source % 4 == 1 then [source + 7, source + 3, source + 1]
            else if source % 4 == 2 then [source + 6, source + 2, source + 1]
            else if source % 4 == 3 then [source + 5, source + 1]
            else Halvings(source, Span(source))
  {
    SuccessorIs(source);
    SmallPowers();
    var successor := OrdinarySuccessor(source);
    if source == 0 {
      PowerFromPower(1, 4);
      InteriorHalves(0, 4, 2, 4);
      assert Halvings(0, 2) == [2] + Halvings(0, 1);
    } else if source % 4 == 0 {
      SpanAligns(source);
      PowerFromPower(1, Span(source));
      AlignedMultiple(source, Span(source));
      InteriorHalves(source, successor, Span(source) / 2, successor);
    } else {
      assert PowerFrom(1, successor - source) == PowerFrom(4, successor - source) == 8;
      OffLatticeInterior(source);
    }
  }

  predicate NextAligned(source: nat, target: nat) {
    exists span :: 1 <= span <= 128 && Power(span) && target == NextMultiple(source, span)
  }

  /** Targets fall strictly from the first to the one right after the source. */
  predicate Descends(source: nat, targets: seq<nat>) {
    && targets != [] && targets[|targets| - 1] == source + 1
    && forall i, j :: 0 <= i < j < |targets| ==> targets[j] < targets[i]
  }

  lemma {:induction false} HalvingsShape(source: nat, span: nat)
    requires Power(span) && Divides(span, source) && span <= 128
    ensures Descends(source, Halvings(source, span)) && Halvings(source, span)[0] == source + span
    ensures forall t :: t in Halvings(source, span) ==> NextAligned(source, t)
  {
    AlignedMultiple(source, span);
    assert NextAligned(source, source + span);
    if span > 1 {
      HalvingsShape(source, span / 2);
    } else {
      assert Halvings(source, 1) == [source + 1];
    }
  }

  lemma {:induction false} HalvingsLength(source: nat, span: nat, n: nat)
    requires span < Pow2(n)
    ensures |Halvings(source, span)| <= n
  {
    if span > 0 {
      HalvingsLength(source, span / 2, n - 1);
    }
  }

  /** Every ladder descends strictly from the ordinary successor to the next
      revision, has at most eight targets, and every later target is the next
      multiple of a power of two. */
  lemma LadderShape(source: nat)
    ensures var targets := Boundaries(source);
            && Descends(source, targets) && |targets| <= 8
            && targets[0] == OrdinarySuccessor(source)
            && (forall t :: t in targets ==> source < t <= OrdinarySuccessor(source))
            && (forall i :: 0 < i < |targets| ==> NextAligned(source, targets[i]))
  {
    BoundariesAre(source);
    SuccessorIs(source);
    SmallPowers();
    var targets := Boundaries(source);
    if source != 0 && source % 4 == 0 {
      SpanAligns(source);
      HalvingsShape(source, Span(source));
      assert Pow2(8) == 2 * Pow2(7) == 4 * Pow2(6) == 8 * Pow2(5) == 16 * Pow2(4) == 256;
      HalvingsLength(source, Span(source), 8);
    } else {
      assert NextAligned(source, NextMultiple(source, 4)) && NextAligned(source, NextMultiple(source, 2)) && NextAligned(source, NextMultiple(source, 1));
      SmallMultiples(source);
    }
    forall t | t in targets
      ensures source < t <= OrdinarySuccessor(source)
    {
      var i :| 0 <= i < |targets| && targets[i] == t;
      if i > 0 { assert targets[i] < targets[0]; }
      if i < |targets| - 1 { assert targets[|targets| - 1] < targets[i]; }
    }
  }

  // ----- Convergence -------------------------------------------------------------------

  function Successors(source: nat, n: nat): nat {
    if n == 0 then source else OrdinarySuccessor(Successors(source, n - 1))
  }

  /** An ordinary step from an aligned revision doubles its alignment. */
  lemma SuccessorDoubles(x: nat, a: nat)
    requires 0 < x && Power(a) && 4 <= a <= 64 && Divides(a, x)
    ensures OrdinarySuccessor(x) > 0 && Divides(2 * a, OrdinarySuccessor(x))
  {
    var l := LowestOne(x);
    SmallPowers();
    DividesUpToLowest(a, x);
    LowestIsPower(x);
    assert Power(2 * a) && Power(2 * l);
    if l <= 128 {
      LowestCarries(x);
      DividesDown(2 * l, 2 * a, x + l);
    } else {
      DividesUpToLowest(2 * a, x);
      DividesUpToLowest(128, 128);
      DividesDown(128, 2 * a, 128);
      DividesSum(2 * a, x, 128);
    }
  }

  lemma SuccessorOnBase(source: nat)
    ensures OrdinarySuccessor(source) > 0 && Divides(4, OrdinarySuccessor(source))
  {
    hide OrdinarySuccessor, Divides, Span, LowestOne;
    SuccessorIs(source);
    DividesFour(OrdinarySuccessor(source));
    if source > 0 && source % 4 == 0 {
      SpanDivides(source);
      DividesFour(Span(source));
      FourSum(source, Span(source));
    }
  }

  lemma FourSum(a: nat, b: nat)
    requires a % 4 == 0 && b % 4 == 0
    ensures (a + b) % 4 == 0
  {
  }

  lemma SpanDivides(source: nat)
    requires 0 < source && source % 4 == 0
    ensures Divides(4, Span(source))
  {
    SpanAligns(source);
    SmallPowers();
    PowerDividesItself(Span(source));
    DividesDown(Span(source), 4, Span(source));
  }

  lemma {:induction false} PowerDividesItself(p: nat)
    requires Power(p)
    ensures Divides(p, p)
  {
    if p > 1 {
      PowerDividesItself(p / 2);
    }
  }

  lemma SixSteps(source: nat)
    ensures Successors(source, 6) > 0 && Divides(128, Successors(source, 6))
  {
    SmallPowers();
    hide OrdinarySuccessor, Divides, Power;
    SuccessorOnBase(Successors(source, 0));
    SuccessorDoubles(Successors(source, 1), 4);
    SuccessorDoubles(Successors(source, 2), 8);
    SuccessorDoubles(Successors(source, 3), 16);
    SuccessorDoubles(Successors(source, 4), 32);
    SuccessorDoubles(Successors(source, 5), 64);
  }

  lemma LatticeStep(x: nat)
    requires 0 < x && Divides(128, x)
    ensures OrdinarySuccessor(x) == x + 128 && Divides(128, x + 128)
  {
    SmallPowers();
    DividesUpToLowest(128, x);
    PowerDividesItself(128);
    DividesSum(128, x, 128);
  }

  /** After six ordinary steps every cursor is on a positive multiple of the maximum
      span, and no later step leaves that lattice. */
  lemma {:induction false} SuccessorsConverge(source: nat, n: nat)
    requires 6 <= n
    ensures Successors(source, n) > 0 && Divides(128, Successors(source, n)) && Successors(source, n) % 128 == 0
  {
    hide OrdinarySuccessor, Divides;
    if n > 6 {
      SuccessorsConverge(source, n - 1);
      LatticeStep(Successors(source, n - 1));
    } else {
      SixSteps(source);
    }
    SmallPowers();
    DividesMod(128, Successors(source, n));
  }
}
