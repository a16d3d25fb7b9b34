/**
 The two-node scenario of the vector-clock self-test, and two clocks that
 each counted only their own event, as lemmas over concrete clocks.
 */
module ClockScenarios {
  import opened Wrappers
  import opened VectorClocks

  /** A fresh clock over labels A and B. */
  lemma InitOverAB(nodeId: string)
    ensures Init(nodeId, ["A", "B"]).clock == map["A" := 0, "B" := 0]
  {
  }

  /** The clocks of nodes A and B in the self-test, step by step: both start
      at zero, A increments, B increments, A increments again, B merges A. */
  lemma TwoNodeClocks()
    ensures Init("A", ["A", "B"]).clock == map["A" := 0, "B" := 0]
    ensures Increment(Init("A", ["A", "B"]), None).clock == map["A" := 1, "B" := 0]
    ensures Increment(Init("B", ["A", "B"]), None).clock == map["A" := 0, "B" := 1]
    ensures Increment(VectorClock("A", map["A" := 1, "B" := 0]), None).clock == map["A" := 2, "B" := 0]
    ensures Update(VectorClock("B", map["A" := 0, "B" := 1]), VectorClock("A", map["A" := 2, "B" := 0])).clock
            == map["A" := 2, "B" := 1]
  {
    InitOverAB("A");
    InitOverAB("B");
  }

  /** Compare of two clocks over labels A and B only. */
  lemma CompareOverAB(a0: int, b0: int, a1: int, b1: int)
    ensures var o := Compare(VectorClock("A", map["A" := a0, "B" := b0]), VectorClock("B", map["A" := a1, "B" := b1]));
            && (a0 == a1 && b0 == b1 ==> o == Equal)
            && (a0 <= a1 && b0 <= b1 && (a0 < a1 || b0 < b1) ==> o == HappensBefore)
            && (a0 >= a1 && b0 >= b1 && (a0 > a1 || b0 > b1) ==> o == HappensAfter)
            && ((a0 < a1 && b0 > b1) || (a0 > a1 && b0 < b1) ==> o == Concurrent)
  {
    var x := map["A" := a0, "B" := b0];
    var y := map["A" := a1, "B" := b1];
    assert Get(x, "A") == a0 && Get(x, "B") == b0;
    assert Get(y, "A") == a1 && Get(y, "B") == b1;
    assert forall n :: n != "A" && n != "B" ==> Get(x, n) == 0 && Get(y, n) == 0;
  }

  /** The verdicts the self-test prints for A against B after each step. */
  lemma TwoNodeScenario()
    ensures var a0 := Init("A", ["A", "B"]);
            var b0 := Init("B", ["A", "B"]);
            var a1 := Increment(a0, None);
            var b1 := Increment(b0, None);
            var a2 := Increment(a1, None);
            var b2 := Update(b1, a2);
            && Compare(a0, b0) == Equal
            && Compare(a1, b0) == HappensAfter
            && Compare(a1, b1) == Concurrent
            && Compare(a2, b1) == Concurrent
            && b2.clock == map["A" := 2, "B" := 1]
            && Compare(a2, b2) == HappensBefore
  {
    TwoNodeClocks();
    CompareOverAB(0, 0, 0, 0);
    CompareOverAB(1, 0, 0, 0);
    CompareOverAB(1, 0, 0, 1);
    CompareOverAB(2, 0, 0, 1);
    CompareOverAB(2, 0, 2, 1);
  }

  /** A third node that has only counted its own event is concurrent with A. */
  lemma ThirdNodeIsConcurrent()
    ensures var a := VectorClock("A", map["A" := 2, "B" := 0]);
            var c := Increment(Init("C", ["A", "B", "C"]), None);
            c.clock == map["A" := 0, "B" := 0, "C" := 1] && Compare(a, c) == Concurrent
  {
    var a := VectorClock("A", map["A" := 2, "B" := 0]);
    var c0 := Init("C", ["A", "B", "C"]);
    var c := Increment(c0, None);
    assert c0.clock == map["A" := 0, "B" := 0, "C" := 0];
    assert Get(a.clock, "A") > Get(c.clock, "A");
    assert Get(c.clock, "C") > Get(a.clock, "C");
  }

  /** Two clocks that each counted only their own event are concurrent. */
  lemma IndependentEventsAreConcurrent()
    ensures Compare(VectorClock("x", map["x" := 1]), VectorClock("y", map["y" := 1])) == Concurrent
  {
    var x := VectorClock("x", map["x" := 1]);
    var y := VectorClock("y", map["y" := 1]);
    assert Get(x.clock, "x") > Get(y.clock, "x");
    assert Get(y.clock, "y") > Get(x.clock, "y");
  }
}
