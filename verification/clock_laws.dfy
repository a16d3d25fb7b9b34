/**
 Algebraic laws of the vector-clock operations: the comparison is a strict
 partial-order test, merge is a monotone, idempotent join, and each local
 event moves a clock strictly forward.
 */
module ClockLaws {
  import opened Wrappers
  import opened VectorClocks

  /** The verdict seen from the other side. */
  function Converse(o: Order): Order {
    match o
    case HappensBefore => HappensAfter
    case HappensAfter => HappensBefore
    case Equal => Equal
    case Concurrent => Concurrent
  }

  lemma CompareReflexive(a: VectorClock)
    ensures Compare(a, a) == Equal
  {
  }

  /** Swapping the operands swaps "before" and "after" and keeps the others. */
  lemma CompareAntisymmetric(a: VectorClock, b: VectorClock)
    ensures Compare(a, b) == HappensAfter <==> Compare(b, a) == HappensBefore
    ensures Compare(a, b) == HappensBefore <==> Compare(b, a) == HappensAfter
    ensures Compare(a, b) == Equal <==> Compare(b, a) == Equal
    ensures Compare(a, b) == Concurrent <==> Compare(b, a) == Concurrent
    ensures Compare(b, a) == Converse(Compare(a, b))
  {
  }

  lemma LeqTransitive(a: Clock, b: Clock, c: Clock)
    requires Leq(a, b) && Leq(b, c)
    ensures Leq(a, c)
  {
  }

  /** Happens-before is transitive. */
  lemma HappensBeforeTransitive(a: VectorClock, b: VectorClock, c: VectorClock)
    requires Compare(a, b) == HappensBefore && Compare(b, c) == HappensBefore
    ensures Compare(a, c) == HappensBefore
  {
  }

  /** `Equal` means every label (absent ones read as 0) carries the same counter. */
  lemma CompareEqualIsPointwise(a: VectorClock, b: VectorClock)
    ensures Compare(a, b) == Equal <==> forall n :: Get(a.clock, n) == Get(b.clock, n)
  {
  }

  /** A label stored at 0 is invisible to `Compare` but not to `__eq__`. */
  lemma ZeroEntryIsComparedEqualButNotEquals()
    ensures var a := VectorClock("A", map["A" := 0]);
            var b := VectorClock("B", map[]);
            Compare(a, b) == Equal && !Equals(a, b)
  {
    var a := VectorClock("A", map["A" := 0]);
    var b := VectorClock("B", map[]);
    assert "A" in a.clock && "A" !in b.clock;
    CompareEqualIsPointwise(a, b);
  }

  /** The owner label plays no part in `__eq__`. */
  lemma EqualsIgnoresOwner(c: Clock, x: string, y: string)
    ensures Equals(VectorClock(x, c), VectorClock(y, c))
  {
  }

  /** A local event: the clock before an increment happens before the clock after it. */
  lemma IncrementHappensAfter(vc: VectorClock, node: Option<string>)
    ensures Compare(vc, Increment(vc, node)) == HappensBefore
    ensures Compare(Increment(vc, node), vc) == HappensAfter
  {
  }

  /** Merging the same clock twice has no further effect. */
  lemma UpdateIdempotent(x: VectorClock, y: VectorClock)
    ensures Update(Update(x, y), y) == Update(x, y)
  {
  }

  /** After `x.update(y)`, `x` is pointwise at least `y`, provided `x` holds no
      negative counter: merging creates a missing label at 0, so a negative
      counter only in `x` stays below `y`'s implicit 0. */
  lemma UpdateDominatesOther(x: VectorClock, y: VectorClock)
    requires NonNegative(x.clock)
    ensures Leq(y.clock, Update(x, y).clock)
    ensures Compare(y, Update(x, y)) in {Equal, HappensBefore}
  {
  }

  /** Why `UpdateDominatesOther` needs non-negative counters. */
  lemma UpdateWithNegativeCounterDoesNotDominate()
    ensures var x := VectorClock("x", map["A" := -1]);
            var y := VectorClock("y", map[]);
            Compare(y, Update(x, y)) == HappensAfter
  {
    var x := VectorClock("x", map["A" := -1]);
    var y := VectorClock("y", map[]);
    var r := Update(x, y);
    assert Get(r.clock, "A") == -1 < Get(y.clock, "A");
  }

  /** Merge is the least upper bound: any clock above both operands is above the merge. */
  lemma UpdateIsLeastUpperBound(x: VectorClock, y: VectorClock, z: Clock)
    requires Leq(x.clock, z) && Leq(y.clock, z)
    ensures Leq(Update(x, y).clock, z)
  {
  }

  /** On non-negative clocks, merging is commutative (owners aside). */
  lemma UpdateCommutative(x: VectorClock, y: VectorClock)
    requires NonNegative(x.clock) && NonNegative(y.clock)
    ensures Update(x, y).clock == Update(y, x).clock
  {
  }

  /** On non-negative clocks, merging is associative. */
  lemma UpdateAssociative(x: VectorClock, y: VectorClock, z: VectorClock)
    requires NonNegative(x.clock) && NonNegative(y.clock) && NonNegative(z.clock)
    ensures Update(Update(x, y), z).clock == Update(x, Update(y, z)).clock
  {
  }

  /** Merge is the pointwise maximum, with absent labels read as 0. */
  lemma UpdateIsPointwiseMax(x: VectorClock, y: VectorClock)
    requires NonNegative(x.clock)
    ensures forall n :: Get(Update(x, y).clock, n) == Max(Get(x.clock, n), Get(y.clock, n))
  {
  }

  /** A fresh clock reads 0 everywhere, so it is `Equal` to the empty clock. */
  lemma InitIsEmptyHistory(nodeId: string, allNodes: seq<string>, other: string)
    ensures Compare(Init(nodeId, allNodes), VectorClock(other, map[])) == Equal
    ensures NonNegative(Init(nodeId, allNodes).clock)
  {
  }

  /** Export then import gives back the same counters under any owner. The
      protocol imports under a label other than the exporter's (the server
      imports as "client", the client imports as "server"); `ToDict`'s own
      contract covers only the exporter's label. */
  lemma ToDictFromDictRoundTrip(vc: VectorClock, nodeId: string)
    ensures FromDict(ClockObject(Encode(ToDict(vc))), nodeId) == Success(VectorClock(nodeId, vc.clock))
  {
    var r := FromDict(ClockObject(Encode(ToDict(vc))), nodeId);
    assert r.Success?;
    assert r.value.clock == vc.clock;
  }
}
