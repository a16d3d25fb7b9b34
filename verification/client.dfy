/**
 The clock-handling path of the RPC client: increment before sending, attach
 the post-increment clock, and merge the reply's clock when one comes back.
 The transport is abstract: the call receives what came back (a decoded
 reply, an HTTP error status, or a URL error) as an input.
 */
module Client {
  import opened Wrappers
  import opened VectorClocks
  import opened ClockLaws
  import Server

  /** The request field that carries the clock. */
  const VectorClockField: string := "vector_clock"

  datatype RpcClient = RpcClient(clientId: string, vectorClock: VectorClock)

  /** A new client knows its own label and the server's, both at 0. */
  function NewClient(clientId: string): (c: RpcClient)
    ensures c.clientId == clientId && c.vectorClock.nodeId == clientId
    ensures c.vectorClock.clock == map[clientId := 0, Server.ServerLabel := 0]
    ensures NonNegative(c.vectorClock.clock)
  {
    RpcClient(clientId, Init(clientId, [clientId, Server.ServerLabel]))
  }

  /** The request body sent: the caller's fields other than the clock field,
      and the clock snapshot in the clock field. */
  datatype Envelope<V> = Envelope(fields: map<string, V>, vectorClock: Clock)

  /** A 2xx reply body: undecodable, or a JSON object with the raw value of
      its clock field if present. */
  datatype ReplyBody = Undecodable | Decoded(vectorClock: Option<RawClock>)

  /** What the transport produced. Error statuses (the server's 400 and 404)
      arrive as `HttpFailure`, whatever their body carries. */
  datatype Transport = Delivered(body: ReplyBody) | HttpFailure(code: int) | UrlFailure(timedOut: bool)

  /** How the call ended: it returned the reply, it returned `(None, None)`
      after a transport failure, or an exception escaped it. */
  datatype CallOutcome = Returned | Failed | Raised

  datatype Sending<V> = Sending(client: RpcClient, envelope: Envelope<V>)

  datatype Receipt = Receipt(client: RpcClient, outcome: CallOutcome)

  datatype Call<V> = Call(client: RpcClient, sent: Envelope<V>, outcome: CallOutcome)

  /** Count the send as a local event and build the request from a copy of
      the caller's fields. */
  function Send<V>(c: RpcClient, payload: map<string, V>): (s: Sending<V>)
    ensures s.client.clientId == c.clientId && s.client.vectorClock.nodeId == c.vectorClock.nodeId
    // the client's own counter goes up by exactly one, nothing else changes
    ensures Get(s.client.vectorClock.clock, c.vectorClock.nodeId) == Get(c.vectorClock.clock, c.vectorClock.nodeId) + 1
    ensures forall n :: n != c.vectorClock.nodeId ==> Get(s.client.vectorClock.clock, n) == Get(c.vectorClock.clock, n)
    ensures s.client.vectorClock.clock.Keys == c.vectorClock.clock.Keys + {c.vectorClock.nodeId}
    // the request carries the post-increment clock and the caller's other fields
    ensures s.envelope.vectorClock == s.client.vectorClock.clock
    ensures s.envelope.fields.Keys == payload.Keys - {VectorClockField}
    ensures forall k :: k in s.envelope.fields ==> s.envelope.fields[k] == payload[k]
  {
    var next := c.(vectorClock := Increment(c.vectorClock, None));
    Sending(next, Envelope(payload - {VectorClockField}, ToDict(next.vectorClock)))
  }

  /** Merge the reply's clock, when the call was delivered and the reply has one. */
  function Receive(c: RpcClient, t: Transport): (r: Receipt)
    ensures r.client.clientId == c.clientId
    ensures r.client.vectorClock.nodeId == c.vectorClock.nodeId
    // receiving never rolls the clock back
    ensures Leq(c.vectorClock.clock, r.client.vectorClock.clock)
    // a transport failure returns (None, None) with the clock untouched
    ensures (t.HttpFailure? || t.UrlFailure?) ==> r == Receipt(c, Failed)
    ensures t == Delivered(Undecodable) ==> r == Receipt(c, Raised)
    ensures t == Delivered(Decoded(None)) ==> r == Receipt(c, Returned)
    // a reply clock is merged when it imports; otherwise the call raises
    ensures t.Delivered? && t.body.Decoded? && t.body.vectorClock.Some? ==>
      var imported := FromDict(t.body.vectorClock.value, Server.ServerLabel);
      && (imported.Failure? ==> r == Receipt(c, Raised))
      && (imported.Success? ==>
            && r.outcome == Returned
            && r.client.vectorClock == Update(c.vectorClock, imported.value)
            && r.client.vectorClock.clock.Keys == c.vectorClock.clock.Keys + imported.value.clock.Keys
            && (NonNegative(c.vectorClock.clock) ==> Leq(imported.value.clock, r.client.vectorClock.clock)))
  {
    match t
    case HttpFailure(_) => Receipt(c, Failed)
    case UrlFailure(_) => Receipt(c, Failed)
    case Delivered(Undecodable) => Receipt(c, Raised)
    case Delivered(Decoded(None)) => Receipt(c, Returned)
    case Delivered(Decoded(Some(raw))) =>
      match FromDict(raw, Server.ServerLabel)
      case Failure(_) => Receipt(c, Raised)
      case Success(reply) => Receipt(c.(vectorClock := Update(c.vectorClock, reply)), Returned)
  }

  /** One call: send, then receive what the transport produced. */
  function CallRpc<V>(c: RpcClient, payload: map<string, V>, t: Transport): (call: Call<V>)
    // exactly one increment of the client's own counter, before sending
    ensures var own := c.vectorClock.nodeId;
      && Get(call.sent.vectorClock, own) == Get(c.vectorClock.clock, own) + 1
      && (forall n :: n != own ==> Get(call.sent.vectorClock, n) == Get(c.vectorClock.clock, n))
      && call.sent.vectorClock.Keys == c.vectorClock.clock.Keys + {own}
    // the caller's fields travel unchanged, except that the clock field is replaced
    ensures call.sent.fields.Keys == payload.Keys - {VectorClockField}
    ensures forall k :: k in call.sent.fields ==> call.sent.fields[k] == payload[k]
    // no rollback: the clock never ends below what was sent
    ensures call.client.clientId == c.clientId
    ensures call.client.vectorClock.nodeId == c.vectorClock.nodeId
    ensures Leq(call.sent.vectorClock, call.client.vectorClock.clock)
    ensures (t.HttpFailure? || t.UrlFailure?) ==> call.outcome == Failed && call.client.vectorClock.clock == call.sent.vectorClock
    ensures t == Delivered(Decoded(None)) ==> call.outcome == Returned && call.client.vectorClock.clock == call.sent.vectorClock
    ensures t == Delivered(Undecodable) ==> call.outcome == Raised && call.client.vectorClock.clock == call.sent.vectorClock
    // a reply clock that imports is merged, one that does not makes the call raise
    ensures t.Delivered? && t.body.Decoded? && t.body.vectorClock.Some? ==>
      var imported := FromDict(t.body.vectorClock.value, Server.ServerLabel);
      && (imported.Failure? ==> call.outcome == Raised && call.client.vectorClock.clock == call.sent.vectorClock)
      && (imported.Success? ==>
            && call.outcome == Returned
            && call.client.vectorClock.clock == Update(Send(c, payload).client.vectorClock, imported.value).clock)
    ensures NonNegative(c.vectorClock.clock) ==> NonNegative(call.client.vectorClock.clock)
  {
    var s := Send(c, payload);
    var r := Receive(s.client, t);
    Call(r.client, s.envelope, r.outcome)
  }

  /** After a reply whose clock imports, the client's clock is pointwise at
      least the reply's clock. */
  lemma CallRpcDominatesReply<V>(c: RpcClient, payload: map<string, V>, raw: RawClock)
    requires NonNegative(c.vectorClock.clock)
    requires FromDict(raw, Server.ServerLabel).Success?
    ensures var call := CallRpc(c, payload, Delivered(Decoded(Some(raw))));
            && call.outcome == Returned
            && Leq(FromDict(raw, Server.ServerLabel).value.clock, call.client.vectorClock.clock)
  {
  }

  /** The clock the client holds after any sequence of calls, with the
      transport outcome of each. */
  function CallAll<V>(c: RpcClient, calls: seq<(map<string, V>, Transport)>): RpcClient
    decreases |calls|
  {
    if |calls| == 0 then c
    else CallAll(CallRpc(c, calls[0].0, calls[0].1).client, calls[1..])
  }

  /** Whatever the transport does, each call advances the client's own counter
      at least once and no counter ever decreases. */
  lemma {:induction false} CallAllIsMonotone<V>(c: RpcClient, calls: seq<(map<string, V>, Transport)>)
    ensures CallAll(c, calls).clientId == c.clientId
    ensures CallAll(c, calls).vectorClock.nodeId == c.vectorClock.nodeId
    ensures Leq(c.vectorClock.clock, CallAll(c, calls).vectorClock.clock)
    ensures Get(CallAll(c, calls).vectorClock.clock, c.vectorClock.nodeId)
            >= Get(c.vectorClock.clock, c.vectorClock.nodeId) + |calls|
    ensures NonNegative(c.vectorClock.clock) ==> NonNegative(CallAll(c, calls).vectorClock.clock)
    decreases |calls|
  {
    if |calls| > 0 {
      var call := CallRpc(c, calls[0].0, calls[0].1);
      var next := call.client;
      IncrementHappensAfter(c.vectorClock, None);
      LeqTransitive(c.vectorClock.clock, call.sent.vectorClock, next.vectorClock.clock);
      CallAllIsMonotone(next, calls[1..]);
      LeqTransitive(c.vectorClock.clock, next.vectorClock.clock, CallAll(next, calls[1..]).vectorClock.clock);
    }
  }

  /** A client that started from its initial clock and made any sequence of
      calls, whatever their transport outcomes, ends a call whose reply clock
      imports pointwise at least that reply clock. */
  lemma ReachableClientDominatesReply<V>(id: string, history: seq<(map<string, V>, Transport)>,
                                          payload: map<string, V>, raw: RawClock)
    requires FromDict(raw, Server.ServerLabel).Success?
    ensures var c := CallAll(NewClient(id), history);
            Leq(FromDict(raw, Server.ServerLabel).value.clock,
                CallRpc(c, payload, Delivered(Decoded(Some(raw)))).client.vectorClock.clock)
  {
    CallAllIsMonotone(NewClient(id), history);
    CallRpcDominatesReply(CallAll(NewClient(id), history), payload, raw);
  }
}
