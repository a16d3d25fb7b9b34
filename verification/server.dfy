/**
 The clock-handling path of the server's POST handler, as one atomic pure
 step: import the client's clock (if any), merge it, increment the server's
 own counter once, then answer with the new clock and the causal verdict of
 the server's clock against the client's clock as received.
 HTTP, JSON decoding and the add/multiply arithmetic are not modelled; the
 result of operand validation is an input.
 */
module Server {
  import opened Wrappers
  import opened VectorClocks
  import opened ClockLaws

  /** The server's own label. */
  const ServerLabel: string := "server"

  /** The clock the server starts with: its own label at 0. */
  function InitialServer(): (vc: VectorClock)
    ensures vc.nodeId == ServerLabel && vc.clock == map[ServerLabel := 0]
  {
    Init(ServerLabel, [ServerLabel])
  }

  /** The request path. */
  datatype Route = Add | Multiply | Unknown

  /** What the parsed body amounts to for the clock path:
      - Unreadable: no body, undecodable JSON, or a falsy JSON value;
      - Scalar: a truthy number or `true`, on which the membership test for
        the clock field raises before any clock change and no response is sent;
      - Body: an object (or a truthy list or string), with the raw value of
        its clock field if present (a list or string that has the field reads
        as a non-object clock) and the outcome of operand validation. */
  datatype Payload =
    | Unreadable
    | Scalar
    | Body(vectorClock: Option<RawClock>, operands: OperandCheck)

  /** The outcome of operand validation on a known path: the operands convert;
      they are missing or rejected (a 400); or the conversion raises an error
      the validation does not catch (an integer too large for a float raises
      `OverflowError`), so the handler raises after the clock step and sends
      nothing. */
  datatype OperandCheck = Valid | Invalid | Raises

  /** The relationship reported in the causality block. */
  datatype Relationship = Related(order: Order) | NoClientClock

  datatype Causality = Causality(serverClock: Clock, clientClock: Option<Clock>, relationship: Relationship)

  /** The response as far as clocks are concerned: the 400 for an unreadable
      body carries no clock; the 400 for bad operands and the 404 do; the 200
      carries the clock and the causality block. `Aborted`: the handler raised
      and sent nothing. */
  datatype Response =
    | InvalidJson
    | Rejected(status: nat, vectorClock: Clock)
    | Answered(vectorClock: Clock, causality: Causality)
    | Aborted

  datatype Step = Step(server: VectorClock, response: Response)

  /** The client's clock as imported by the server: absent when the field is
      missing or the import raises (the error is caught and logged). */
  function ImportClientClock(field: Option<RawClock>): (r: Option<VectorClock>)
    ensures r.Some? <==> field.Some? && FromDict(field.value, "client").Success?
    ensures r.Some? ==> r.value.clock.Keys == field.value.entries.Keys
    ensures r.Some? ==> forall k :: k in field.value.entries ==> r.value.clock[k] == field.value.entries[k].value
  {
    if field.None? then None
    else
      match FromDict(field.value, "client")
      case Success(vc) => Some(vc)
      case Failure(_) => None
  }

  /** Merge the client's clock when there is one, then count the request as
      one event of the server's own. */
  function Observe(server: VectorClock, client: Option<VectorClock>): (r: VectorClock)
    ensures r.nodeId == server.nodeId
    ensures r.clock.Keys == server.clock.Keys + (if client.Some? then client.value.clock.Keys else {}) + {server.nodeId}
    ensures Leq(server.clock, r.clock)
    ensures Get(r.clock, server.nodeId) > Get(server.clock, server.nodeId)
    ensures client.None? ==> forall n :: n != server.nodeId ==> Get(r.clock, n) == Get(server.clock, n)
    ensures client.None? ==> Get(r.clock, server.nodeId) == Get(server.clock, server.nodeId) + 1
    ensures client.Some? ==> Get(r.clock, server.nodeId) == Get(Update(server, client.value).clock, server.nodeId) + 1
    ensures client.Some? ==> forall n :: n != server.nodeId ==> Get(r.clock, n) == Get(Update(server, client.value).clock, n)
    ensures NonNegative(server.clock) ==> NonNegative(r.clock)
  {
    var merged := if client.Some? then Update(server, client.value) else server;
    LeqTransitive(server.clock, merged.clock, Increment(merged, None).clock);
    Increment(merged, None)
  }

  /** One POST request against the server's clock. */
  function HandlePost(server: VectorClock, payload: Payload, route: Route): (s: Step)
    ensures !payload.Body? ==> s.server == server
    ensures payload.Unreadable? ==> s.response == InvalidJson
    ensures payload.Scalar? ==> s.response == Aborted
    ensures payload.Body? ==> s.server == Observe(server, ImportClientClock(payload.vectorClock))
    ensures payload.Body? && route == Unknown ==> s.response == Rejected(404, s.server.clock)
    ensures payload.Body? && route != Unknown && payload.operands.Invalid? ==> s.response == Rejected(400, s.server.clock)
    ensures payload.Body? && route != Unknown && payload.operands.Raises? ==> s.response == Aborted
    ensures s.response.Answered? <==> payload.Body? && route != Unknown && payload.operands.Valid?
    ensures s.response.Answered? ==>
      && s.response.vectorClock == s.server.clock
      && s.response.causality.serverClock == s.server.clock
    // the reported client clock is the one imported, and the relationship is the
    // verdict of the merged-and-incremented server clock against it
    ensures s.response.Answered? ==>
      var imp := ImportClientClock(payload.vectorClock);
      && s.response.causality.clientClock == (if imp.Some? then Some(imp.value.clock) else None)
      && s.response.causality.relationship == (if imp.Some? then Related(Compare(s.server, imp.value)) else NoClientClock)
  {
    match payload
    case Unreadable => Step(server, InvalidJson)
    case Scalar => Step(server, Aborted)
    case Body(field, operands) =>
      var client := ImportClientClock(field);
      var next := Observe(server, client);
      if route == Unknown then
        Step(next, Rejected(404, next.clock))
      else if operands.Invalid? then
        Step(next, Rejected(400, next.clock))
      else if operands.Raises? then
        Step(next, Aborted)
      else
        var causality := Causality(
          next.clock,
          if client.Some? then Some(ToDict(client.value)) else None,
          if client.Some? then Related(Compare(next, client.value)) else NoClientClock);
        Step(next, Answered(next.clock, causality))
  }

  /** The server's clock after merging and incrementing strictly follows the
      client's clock it merged, provided the server's clock held no negative
      counter (which `ReachableServerIsNonNegative` shows for every reachable state). */
  lemma ObserveHappensAfterClient(server: VectorClock, client: VectorClock)
    requires NonNegative(server.clock)
    ensures Compare(Observe(server, Some(client)), client) == HappensAfter
  {
  }

  /** Whenever the client sent a clock that imports, the relationship the
      server reports is "happens-after". */
  lemma AnsweredRelationshipIsHappensAfter(server: VectorClock, payload: Payload, route: Route)
    requires NonNegative(server.clock)
    requires HandlePost(server, payload, route).response.Answered?
    ensures var s := HandlePost(server, payload, route);
            var client := ImportClientClock(payload.vectorClock);
            client.Some? ==>
              && s.response.causality.clientClock == Some(client.value.clock)
              && s.response.causality.relationship == Related(HappensAfter)
  {
  }

  /** A request the server sees: its body and its path. */
  datatype Request = Request(payload: Payload, route: Route)

  /** The server's clock after handling `reqs` in order, one at a time. */
  function ServeAll(server: VectorClock, reqs: seq<Request>): VectorClock
    decreases |reqs|
  {
    if |reqs| == 0 then server
    else ServeAll(HandlePost(server, reqs[0].payload, reqs[0].route).server, reqs[1..])
  }

  /** How many of `reqs` have a body the clock path handles. */
  function ParsedCount(reqs: seq<Request>): nat
    decreases |reqs|
  {
    if |reqs| == 0 then 0
    else (if reqs[0].payload.Body? then 1 else 0) + ParsedCount(reqs[1..])
  }

  /** Across any run of requests no counter decreases, the server's own counter
      advances at least once per parsed request, and non-negativity is kept. */
  lemma {:induction false} ServeAllIsMonotone(server: VectorClock, reqs: seq<Request>)
    ensures ServeAll(server, reqs).nodeId == server.nodeId
    ensures Leq(server.clock, ServeAll(server, reqs).clock)
    ensures Get(ServeAll(server, reqs).clock, server.nodeId) >= Get(server.clock, server.nodeId) + ParsedCount(reqs)
    ensures NonNegative(server.clock) ==> NonNegative(ServeAll(server, reqs).clock)
    decreases |reqs|
  {
    if |reqs| > 0 {
      var next := HandlePost(server, reqs[0].payload, reqs[0].route).server;
      ServeAllIsMonotone(next, reqs[1..]);
      LeqTransitive(server.clock, next.clock, ServeAll(next, reqs[1..]).clock);
    }
  }

  /** Every clock the server reaches from its initial clock is non-negative. */
  lemma ReachableServerIsNonNegative(reqs: seq<Request>)
    ensures NonNegative(ServeAll(InitialServer(), reqs).clock)
  {
    ServeAllIsMonotone(InitialServer(), reqs);
  }

  /** In every reachable state, a request whose client clock imports gets a
      200 answer reporting "happens-after". */
  lemma ReachableAnswerIsHappensAfter(history: seq<Request>, payload: Payload, route: Route)
    requires HandlePost(ServeAll(InitialServer(), history), payload, route).response.Answered?
    requires ImportClientClock(payload.vectorClock).Some?
    ensures HandlePost(ServeAll(InitialServer(), history), payload, route).response.causality.relationship
            == Related(HappensAfter)
  {
    ReachableServerIsNonNegative(history);
    AnsweredRelationshipIsHappensAfter(ServeAll(InitialServer(), history), payload, route);
  }

  /** Importing `{A:2, B:1}` sent as integers. */
  lemma ImportTwoLabels()
    ensures ImportClientClock(Some(ClockObject(map["A" := Coercible(2), "B" := Coercible(1)])))
            == Some(VectorClock("client", map["A" := 2, "B" := 1]))
  {
    var r := FromDict(ClockObject(map["A" := Coercible(2), "B" := Coercible(1)]), "client");
    assert r.Success?;
    assert r.value.clock == map["A" := 2, "B" := 1];
  }

  /** Merging `{A:2, B:1}` into a fresh server clock and counting the request. */
  lemma ObserveTwoLabelsOnFreshServer()
    ensures Observe(InitialServer(), Some(VectorClock("client", map["A" := 2, "B" := 1]))).clock
            == map["A" := 2, "B" := 1, ServerLabel := 1]
  {
    var merged := Update(InitialServer(), VectorClock("client", map["A" := 2, "B" := 1]));
    assert merged.clock == map["A" := 2, "B" := 1, ServerLabel := 0];
  }

  /** A request carrying `{A:2, B:1}` against a fresh server. */
  lemma FreshServerScenario()
    ensures var payload := Body(Some(ClockObject(map["A" := Coercible(2), "B" := Coercible(1)])), Valid);
            var s := HandlePost(InitialServer(), payload, Add);
            && s.server.clock == map["A" := 2, "B" := 1, ServerLabel := 1]
            && s.response.causality.relationship == Related(HappensAfter)
  {
    var payload := Body(Some(ClockObject(map["A" := Coercible(2), "B" := Coercible(1)])), Valid);
    ImportTwoLabels();
    ObserveTwoLabelsOnFreshServer();
    AnsweredRelationshipIsHappensAfter(InitialServer(), payload, Add);
  }
}
