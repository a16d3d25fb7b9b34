/**
 The request/response exchange as a whole: a client step, the server step on
 the request it produced, and the client step on the server's 200 reply.
 */
module Protocol {
  import opened Wrappers
  import opened VectorClocks
  import opened ClockLaws
  import opened Server
  import opened Client

  /** The payload the server sees for a request sent with `env` whose operands
      validate. The business fields matter to the server only through operand
      validation, whose result is an input here, so only the 200 exchange is
      described. */
  function Delivers<V>(env: Envelope<V>): Payload {
    Body(Some(ClockObject(Encode(env.vectorClock))), Valid)
  }

  /** The transport result the client sees for the server's 200 reply. */
  function Replies(resp: Response): Transport
    requires resp.Answered?
  {
    Delivered(Decoded(Some(ClockObject(Encode(resp.vectorClock)))))
  }

  /** The server's side of an exchange: a request carrying clock `sent` is
      answered with "happens-after", echoes `sent`, and leaves the server's
      clock above `sent` on every label `sent` has. */
  lemma ServerAnswersExchange(server: VectorClock, sent: Clock, route: Route)
    requires NonNegative(server.clock)
    requires route != Unknown
    ensures var step := HandlePost(server, Body(Some(ClockObject(Encode(sent))), Valid), route);
            && step.response.Answered?
            && step.response.vectorClock == step.server.clock
            && step.response.causality.clientClock == Some(sent)
            && step.response.causality.relationship == Related(HappensAfter)
            && sent.Keys <= step.server.clock.Keys
            && Leq(sent, step.server.clock)
  {
    var payload := Body(Some(ClockObject(Encode(sent))), Valid);
    var clientId := "client";
    ToDictFromDictRoundTrip(VectorClock(clientId, sent), clientId);
    var imported := ImportClientClock(payload.vectorClock);
    assert imported == Some(VectorClock(clientId, sent));
    AnsweredRelationshipIsHappensAfter(server, payload, route);
    var next := HandlePost(server, payload, route).server;
    UpdateDominatesOther(server, imported.value);
    LeqTransitive(sent, Update(server, imported.value).clock, next.clock);
  }

  /** Merging a clock that is above `x` on every label, and has all of `x`'s
      labels, adopts that clock's counters. */
  lemma UpdateAdoptsDominatingClock(x: VectorClock, y: VectorClock)
    requires x.clock.Keys <= y.clock.Keys && Leq(x.clock, y.clock)
    ensures Update(x, y).clock == y.clock
  {
  }

  /** The client's side of receiving a 200 reply with clock `clk`. */
  lemma ClientReceivesClock(c: RpcClient, clk: Clock)
    ensures var r := Receive(c, Delivered(Decoded(Some(ClockObject(Encode(clk))))));
            r.outcome == Returned && r.client.vectorClock == Update(c.vectorClock, VectorClock(ServerLabel, clk))
  {
  }

  /** A full exchange against a server with no negative counter: the server
      answers "happens-after" against exactly the clock the client sent, and
      afterwards the client's clock is identical to the server's. */
  lemma RoundTripSynchronises<V>(c: RpcClient, server: VectorClock, payload: map<string, V>, route: Route)
    requires NonNegative(server.clock)
    requires route != Unknown
    ensures var out := Send(c, payload);
            var step := HandlePost(server, Delivers(out.envelope), route);
            && step.response.Answered?
            && step.response.causality.clientClock == Some(out.envelope.vectorClock)
            && step.response.causality.relationship == Related(HappensAfter)
            && Receive(out.client, Replies(step.response)).outcome == Returned
            && Receive(out.client, Replies(step.response)).client.vectorClock.clock == step.server.clock
  {
    var out := Send(c, payload);
    var sent := out.envelope.vectorClock;
    ServerAnswersExchange(server, sent, route);
    var step := HandlePost(server, Delivers(out.envelope), route);
    ClientReceivesClock(out.client, step.server.clock);
    UpdateAdoptsDominatingClock(out.client.vectorClock, VectorClock(ServerLabel, step.server.clock));
  }

  /** Two clients calling one after the other: the second reply's clock
      strictly follows the first reply's, and the first request. */
  lemma SequentialCallsAreOrdered<V>(a: RpcClient, b: RpcClient, server: VectorClock,
                                     pa: map<string, V>, pb: map<string, V>, ra: Route, rb: Route)
    requires NonNegative(server.clock)
    requires ra != Unknown && rb != Unknown
    ensures var outA := Send(a, pa);
            var stepA := HandlePost(server, Delivers(outA.envelope), ra);
            var finalA := Receive(outA.client, Replies(stepA.response)).client;
            var outB := Send(b, pb);
            var stepB := HandlePost(stepA.server, Delivers(outB.envelope), rb);
            var finalB := Receive(outB.client, Replies(stepB.response)).client;
            && Compare(finalA.vectorClock, finalB.vectorClock) == HappensBefore
            && Compare(VectorClock(a.clientId, outA.envelope.vectorClock), finalB.vectorClock) == HappensBefore
  {
    var outA := Send(a, pa);
    var stepA := HandlePost(server, Delivers(outA.envelope), ra);
    RoundTripSynchronises(a, server, pa, ra);
    var finalA := Receive(outA.client, Replies(stepA.response)).client;
    var outB := Send(b, pb);
    var s1 := stepA.server;
    assert NonNegative(s1.clock);
    var stepB := HandlePost(s1, Delivers(outB.envelope), rb);
    RoundTripSynchronises(b, s1, pb, rb);
    var finalB := Receive(outB.client, Replies(stepB.response)).client;
    assert finalA.vectorClock.clock == s1.clock;
    assert finalB.vectorClock.clock == stepB.server.clock;
    assert Leq(s1.clock, stepB.server.clock);
    assert Get(stepB.server.clock, server.nodeId) > Get(s1.clock, server.nodeId);
    // the first request's clock is below the first reply's
    assert stepA.response.causality.relationship == Related(HappensAfter);
    LeqTransitive(outA.envelope.vectorClock, s1.clock, stepB.server.clock);
  }
}
