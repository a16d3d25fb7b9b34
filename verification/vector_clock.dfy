/**
 Vector clocks: a mapping from node label to counter, owned by one node.

 A label that is absent from the mapping reads as 0. Counters are unbounded
 integers; the import path coerces values with no sign check, so a counter
 can be negative when it came straight from an imported mapping. Every clock
 built only by `Init`, `Increment` and `Update` from non-negative clocks stays
 non-negative.
 */
module VectorClocks {
  import opened Wrappers

  /** Node label -> counter. */
  type Clock = map<string, int>

  /** A clock together with the label this instance increments by default. */
  datatype VectorClock = VectorClock(nodeId: string, clock: Clock)

  /** The four verdicts of `Compare`, read as "first operand ... second operand". */
  datatype Order = HappensBefore | HappensAfter | Equal | Concurrent

  /** One imported counter value: one that Python's int() accepts (and what
      it coerces to), or one it rejects. */
  datatype RawCounter = Coercible(value: int) | NotCoercible

  /** An imported clock: a JSON object of counters, or any other JSON value. */
  datatype RawClock = ClockObject(entries: map<string, RawCounter>) | NotAnObject

  /** Raised by `FromDict` on input it cannot import. */
  datatype ClockError = MalformedClock

  function Max(x: int, y: int): int {
    if x >= y then x else y
  }

  /** The counter of label `n`, reading an absent label as 0. */
  function Get(c: Clock, n: string): int {
    if n in c then c[n] else 0
  }

  /** Pointwise order over all labels, absent labels read as 0. This is the
      reference definition that `Compare` is checked against. */
  ghost predicate Leq(a: Clock, b: Clock) {
    forall n :: Get(a, n) <= Get(b, n)
  }

  /** Every stored counter is at least 0. */
  ghost predicate NonNegative(c: Clock) {
    forall n :: n in c ==> c[n] >= 0
  }

  /** A new clock: every label of `allNodes` at 0, or only `nodeId` at 0 when
      `allNodes` is empty (Python's `None` and `[]` are both falsy). */
  function Init(nodeId: string, allNodes: seq<string>): (vc: VectorClock)
    ensures vc.nodeId == nodeId
    ensures forall n :: n in allNodes ==> n in vc.clock
    ensures |allNodes| == 0 ==> nodeId in vc.clock
    ensures forall n :: n in vc.clock ==> n in allNodes || (|allNodes| == 0 && n == nodeId)
    ensures forall n :: Get(vc.clock, n) == 0
  {
    if |allNodes| > 0 then
      VectorClock(nodeId, map n | n in allNodes :: 0)
    else
      VectorClock(nodeId, map[nodeId := 0])
  }

  /** The label `Increment` acts on: the given one, or the owner by default. */
  function Target(vc: VectorClock, node: Option<string>): string {
    if node.Some? then node.value else vc.nodeId
  }

  /** Add one to the counter of `node` (default: the owner), creating it at 0
      first when absent. */
  function Increment(vc: VectorClock, node: Option<string>): (r: VectorClock)
    ensures r.nodeId == vc.nodeId
    ensures r.clock.Keys == vc.clock.Keys + {Target(vc, node)}
    ensures Get(r.clock, Target(vc, node)) == Get(vc.clock, Target(vc, node)) + 1
    ensures forall m :: m != Target(vc, node) ==> Get(r.clock, m) == Get(vc.clock, m)
    ensures NonNegative(vc.clock) ==> NonNegative(r.clock)
  {
    var n := Target(vc, node);
    vc.(clock := vc.clock[n := Get(vc.clock, n) + 1])
  }

  /** Merge `other` into `vc`: every label of `other` takes the larger of the
      two counters (a label missing from `vc` is created at 0 first); labels
      only in `vc` keep their counter. The owner label is kept. */
  function Update(vc: VectorClock, other: VectorClock): (r: VectorClock)
    ensures r.nodeId == vc.nodeId
    ensures r.clock.Keys == vc.clock.Keys + other.clock.Keys
    ensures forall n :: n in other.clock ==> r.clock[n] == Max(Get(vc.clock, n), other.clock[n])
    ensures forall n :: n in vc.clock && n !in other.clock ==> r.clock[n] == vc.clock[n]
    ensures Leq(vc.clock, r.clock)
    ensures NonNegative(vc.clock) ==> NonNegative(r.clock)
  {
    var merged := map n | n in vc.clock.Keys + other.clock.Keys ::
      if n in other.clock then Max(Get(vc.clock, n), other.clock[n]) else vc.clock[n];
    assert forall n :: Get(vc.clock, n) <= Get(merged, n);
    vc.(clock := merged)
  }

  /** Some label of the union where `a`'s counter exceeds `b`'s. */
  predicate Ahead(a: Clock, b: Clock) {
    exists n :: n in a.Keys + b.Keys && Get(a, n) > Get(b, n)
  }

  lemma AheadIsNotLeq(a: Clock, b: Clock)
    ensures Ahead(a, b) <==> !Leq(a, b)
  {
  }

  /** The causal verdict of `a` against `b`, over the union of their
      labels with absent labels read as 0. Owner labels play no part. */
  function Compare(a: VectorClock, b: VectorClock): (o: Order)
    ensures o == Equal <==> Leq(a.clock, b.clock) && Leq(b.clock, a.clock)
    ensures o == HappensBefore <==> Leq(a.clock, b.clock) && !Leq(b.clock, a.clock)
    ensures o == HappensAfter <==> Leq(b.clock, a.clock) && !Leq(a.clock, b.clock)
    ensures o == Concurrent <==> !Leq(a.clock, b.clock) && !Leq(b.clock, a.clock)
  {
    AheadIsNotLeq(a.clock, b.clock);
    AheadIsNotLeq(b.clock, a.clock);
    var aAhead := Ahead(a.clock, b.clock);
    var bAhead := Ahead(b.clock, a.clock);
    if aAhead && !bAhead then HappensAfter
    else if bAhead && !aAhead then HappensBefore
    else if !aAhead && !bAhead then Equal
    else Concurrent
  }

  /** Export of the counters as a plain mapping. Importing the export, sent
      as integers, under the same owner gives back the same clock. */
  function ToDict(vc: VectorClock): (c: Clock)
    ensures FromDict(ClockObject(Encode(c)), vc.nodeId) == Success(vc)
  {
    var imported := FromDict(ClockObject(Encode(vc.clock)), vc.nodeId);
    assert imported.Success?;
    assert imported.value.clock == vc.clock;
    vc.clock
  }

  /** How an exported clock travels: every counter as an integer. */
  function Encode(c: Clock): map<string, RawCounter> {
    map n | n in c :: Coercible(c[n])
  }

  /** Import a clock owned by `nodeId`. Fails when the input is not a mapping
      or some value is not coercible; the result holds exactly the imported
      labels (the owner label is not added). */
  function FromDict(data: RawClock, nodeId: string): (r: Result<VectorClock, ClockError>)
    ensures r.Success? <==> data.ClockObject? && forall k :: k in data.entries ==> data.entries[k].Coercible?
    ensures r.Success? ==> r.value.nodeId == nodeId && r.value.clock.Keys == data.entries.Keys
    ensures r.Success? ==> forall k :: k in data.entries ==> r.value.clock[k] == data.entries[k].value
  {
    match data
    case NotAnObject => Failure(MalformedClock)
    case ClockObject(entries) =>
      if forall k :: k in entries ==> entries[k].Coercible? then
        Success(VectorClock(nodeId, map k | k in entries :: entries[k].value))
      else
        Failure(MalformedClock)
  }

  /** Python's `__eq__`: the mappings are identical; owners are ignored.
      It is `Compare`'s `Equal` plus identical label sets, so a label stored
      at 0 is seen here but not by `Compare`. */
  function Equals(a: VectorClock, b: VectorClock): (r: bool)
    ensures r <==> Compare(a, b) == Equal && a.clock.Keys == b.clock.Keys
  {
    assert Compare(a, b) == Equal && a.clock.Keys == b.clock.Keys ==> a.clock == b.clock by {
      if Compare(a, b) == Equal && a.clock.Keys == b.clock.Keys {
        forall n | n in a.clock ensures a.clock[n] == b.clock[n] {
          assert Get(a.clock, n) <= Get(b.clock, n) && Get(b.clock, n) <= Get(a.clock, n);
        }
      }
    }
    a.clock == b.clock
  }
}
