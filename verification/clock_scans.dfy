/**
 The source's loops for merge and compare, written as loops over the label
 sets and proved equal to the functional definitions they implement.
 */
module ClockScans {
  import opened VectorClocks

  /** The merge loop: walk `other`'s labels one at a time, create a missing
      label at 0, then keep the larger counter. */
  method UpdateByScan(vc: VectorClock, other: VectorClock) returns (r: VectorClock)
    ensures r == Update(vc, other)
  {
    var clock := vc.clock;
    var todo := other.clock.Keys;
    while todo != {}
      invariant todo <= other.clock.Keys
      invariant clock.Keys == vc.clock.Keys + (other.clock.Keys - todo)
      invariant forall n :: n in clock ==>
        clock[n] == (if n in other.clock && n !in todo then Max(Get(vc.clock, n), other.clock[n]) else vc.clock[n])
      decreases todo
    {
      var node :| node in todo;
      if node !in clock {
        clock := clock[node := 0];
      }
      clock := clock[node := Max(clock[node], other.clock[node])];
      todo := todo - {node};
    }
    r := vc.(clock := clock);
  }

  /** The compare loop: one pass over the union of labels setting the two
      "ahead" flags, then the four-way verdict. */
  method CompareByScan(a: VectorClock, b: VectorClock) returns (o: Order)
    ensures o == Compare(a, b)
  {
    var allNodes := a.clock.Keys + b.clock.Keys;
    var aAhead, bAhead := false, false;
    var todo := allNodes;
    while todo != {}
      invariant todo <= allNodes
      invariant aAhead <==> exists n :: n in allNodes - todo && Get(a.clock, n) > Get(b.clock, n)
      invariant bAhead <==> exists n :: n in allNodes - todo && Get(b.clock, n) > Get(a.clock, n)
      decreases todo
    {
      var node :| node in todo;
      var aVal := Get(a.clock, node);
      var bVal := Get(b.clock, node);
      if aVal > bVal {
        aAhead := true;
      } else if bVal > aVal {
        bAhead := true;
      }
      todo := todo - {node};
    }
    assert aAhead == Ahead(a.clock, b.clock);
    assert bAhead == Ahead(b.clock, a.clock);
    if aAhead && !bAhead {
      o := HappensAfter;
    } else if bAhead && !aAhead {
      o := HappensBefore;
    } else if !aAhead && !bAhead {
      o := Equal;
    } else {
      o := Concurrent;
    }
  }
}
