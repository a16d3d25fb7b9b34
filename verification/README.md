# Vector-clock RPC: a Dafny model

This project models the causality core of a small RPC system in which a
client and a server exchange vector clocks alongside each request and
response.

- **Vector clock** (`vector_clock.dfy`, module `VectorClocks`). A clock maps
  node labels to counters. It supports `Init`, `Increment`, `Update` (the
  pointwise-maximum merge), `Compare` (the four verdicts `happens-before`,
  `happens-after`, `equal` and `concurrent`), and export/import (`ToDict`,
  `FromDict`). `Equals` is the source's `__eq__`. An absent label reads as 0.
- **Laws** (`clock_laws.dfy`, module `ClockLaws`). `Compare` and the ordering
  laws are checked against an independent reference: the pointwise order
  `Leq` over all labels. These laws are reflexivity, antisymmetry,
  transitivity, least upper bound, dominance after a merge, and strict
  progress of increment. Idempotence, commutativity and associativity of
  merge, and the export/import round trip, are stated as equalities of
  clocks.
- **Loops as written** (`clock_scans.dfy`, module `ClockScans`). The source's
  merge loop and compare loop, each proved equal to its functional definition.
- **Self-test scenarios** (`clock_scenarios.dfy`). The two-node scenario of
  `test_vector_clock`, and two clocks that each counted only their own event, as lemmas.
- **Server step** (`server.dfy`, module `Server`). The clock path of the POST
  handler as one pure step. It imports the client clock, merges it, increments
  `"server"` once, then answers. The step returns the new server clock and the
  response, and there is a lemma about runs of many requests.
- **Client step** (`client.dfy`, module `Client`). The clock path of
  `RpcClient.call_rpc`. It increments, sends the post-increment snapshot, and
  merges the reply's clock when one arrives. The transport result is an input.
- **Exchange** (`protocol.dfy`, module `Protocol`). One full round trip, and
  two clients calling one after the other.

Counters are unbounded `int`s, not `nat`s. `from_dict` coerces with `int(v)`
and has no sign check, so an imported clock can hold negative counters.
`update` creates a missing label at 0 before it takes the maximum. Every
property that needs non-negative counters says so with `NonNegative`. The
model proves that every clock the server reaches from its initial clock is
non-negative (`Server.ReachableServerIsNonNegative`). It also proves that
increment and merge keep a non-negative clock non-negative.

Where a strict importer or a conventional vector clock would differ, the model follows the code:

- Import does not reject negative counters.
- A malformed client clock does not reject the request. The error is caught.
  The request proceeds without a merge, still increments, and reports
  `no_client_clock`.
- The merge and the increment happen before operand validation. A request with
  missing operands therefore still changes the server clock, and its 400
  response carries the new clock.
- `from_dict` does not add the owner label to the imported clock.
- Merge is commutative and associative only on non-negative clocks.

## Model

| member | source | states |
|---|---|---|
| VectorClocks.Init | vector_clock.py:20-36 | every listed label (or only the owner when the list is empty) is present, and nothing else; every label reads 0 |
| VectorClocks.Increment | vector_clock.py:38-54 | the target (the owner when none is given) gains exactly one, and is created if it was absent; every other label is unchanged; the owner is kept; non-negativity is kept |
| VectorClocks.Update | vector_clock.py:56-72 | the labels are the union; a label of the other clock holds the max, with a missing own label taken as 0; a label only in self is untouched; no counter decreases; a non-negative clock stays non-negative whatever is merged in |
| VectorClocks.AheadIsNotLeq | vector_clock.py:94-101 | "some label of the union is strictly ahead" holds exactly when the pointwise order fails |
| VectorClocks.Compare | vector_clock.py:74-111 | each of the four verdicts holds exactly when the matching combination of the pointwise orders holds in both directions |
| VectorClocks.FromDict | vector_clock.py:117-122 | import succeeds exactly when the input is a mapping whose values all coerce; it then holds exactly the input's labels and values under the given owner |
| ClockScans.UpdateByScan | vector_clock.py:67-72 | the label-by-label loop that creates at 0 and then takes the max computes `Update` |
| ClockScans.CompareByScan | vector_clock.py:87-111 | the single pass that sets the two flags, then the if/elif chain, computes `Compare` |
| ClockLaws.CompareReflexive | vector_clock.py:94-109 | every clock compares `equal` to itself |
| ClockLaws.CompareAntisymmetric | vector_clock.py:94-111 | `happens-after` one way holds iff `happens-before` holds the other way; `equal` and `concurrent` are symmetric |
| ClockLaws.HappensBeforeTransitive | vector_clock.py:98-107 | `happens-before` is transitive |
| ClockLaws.CompareEqualIsPointwise | vector_clock.py:94-109 | `equal` holds iff every label reads the same counter in both clocks, with absent labels read as 0 |
| VectorClocks.ToDict | vector_clock.py:113-115 | the export, sent as integers and imported under the same owner, gives back the same clock |
| VectorClocks.Equals | vector_clock.py:132-136 | `__eq__` holds iff the clocks compare `equal` and have the same label set |
| ClockLaws.ZeroEntryIsComparedEqualButNotEquals | vector_clock.py:94-96 | `{A:0}` and `{}` compare `equal`, yet `__eq__` reports them unequal |
| ClockLaws.EqualsIgnoresOwner | vector_clock.py:132-136 | `__eq__` ignores the owner label |
| ClockLaws.IncrementHappensAfter | vector_clock.py:48-53 | the clock before an increment is `happens-before` the clock after it, and the converse reads `happens-after` |
| ClockLaws.UpdateIdempotent | vector_clock.py:68-71 | merging the same clock a second time changes nothing |
| ClockLaws.UpdateDominatesOther | vector_clock.py:67-72 | after `x.update(y)` with `x` non-negative, `x` is pointwise at least `y`, so `y` compares `equal` or `happens-before` against it |
| ClockLaws.UpdateWithNegativeCounterDoesNotDominate | vector_clock.py:69-71 | without non-negativity that fails: `{A:-1}` merged with `{}` stays below `{}` |
| ClockLaws.UpdateIsLeastUpperBound | vector_clock.py:67-72 | any clock pointwise above both operands is above their merge |
| ClockLaws.UpdateCommutative | vector_clock.py:67-72 | on non-negative clocks the merge order does not affect the counters |
| ClockLaws.UpdateAssociative | vector_clock.py:67-72 | on non-negative clocks merging is associative |
| ClockLaws.UpdateIsPointwiseMax | vector_clock.py:67-72 | when self is non-negative, every label of the merge reads the max of the two clocks' readings |
| ClockLaws.InitIsEmptyHistory | vector_clock.py:31-36 | a fresh clock is non-negative and compares `equal` to the empty clock |
| ClockLaws.ToDictFromDictRoundTrip | vector_clock.py:113-122 | exporting and then importing gives the same counters under the new owner |
| ClockScenarios.InitOverAB | vector_clock.py:32-34 | a clock initialised over A and B is `{A:0, B:0}` |
| ClockScenarios.TwoNodeClocks | vector_clock.py:143-166 | the self-test's clocks at each step, ending with B = `{A:2, B:1}` after the merge |
| ClockScenarios.CompareOverAB | vector_clock.py:94-111 | the four verdicts for clocks over labels A and B, by the counters' ordering |
| ClockScenarios.TwoNodeScenario | vector_clock.py:143-168 | the self-test's verdicts: `equal`, `happens-after`, `concurrent`, `concurrent`, then `happens-before` after B merges A |
| ClockScenarios.ThirdNodeIsConcurrent | vector_clock.py:170-174 | a new node C after its own increment is `concurrent` with A |
| ClockScenarios.IndependentEventsAreConcurrent | vector_clock.py:110-111 | `{x:1}` and `{y:1}` are `concurrent` |
| Server.InitialServer | server.py:43 | the server starts as `{server:0}`, owned by `"server"` |
| Server.ImportClientClock | server.py:67-75 | the client clock is present iff the field exists and imports; a failed import is swallowed; a present clock holds exactly the field's labels and values |
| Server.Observe | server.py:69-78 | merge (when a client clock is present) and then one increment: the labels are the server's, the client's and the owner; the own counter is one above the merged value, other labels read as merged (or are unchanged when there is no client clock), and nothing decreases |
| Server.HandlePost | server.py:60-120 | an unreadable body leaves the clock unchanged and gets a 400 without a clock; a truthy scalar body raises before any clock change; any other body merges and increments once, whatever the path or operands; 404, 400 and 200 all carry the new clock; operands whose conversion raises an uncaught error (an integer too large for a float) leave the clock stepped and no response sent; the causality block carries the new clock, the imported client clock (or null), and the verdict of the new server clock against the imported client clock (or `no_client_clock`) |
| Server.ObserveHappensAfterClient | server.py:73-78 | after merging a client clock and incrementing, a non-negative server clock is `happens-after` that client clock |
| Server.AnsweredRelationshipIsHappensAfter | server.py:89-96 | a 200 answer to a request whose clock imported echoes that clock and reports `happens-after` |
| Server.ServeAllIsMonotone | server.py:73-78 | over any run of requests no counter decreases, the own counter rises by at least the number of parsed requests, and non-negativity is kept |
| Server.ReachableServerIsNonNegative | server.py:43 | every clock reachable from the initial server clock is non-negative |
| Server.ReachableAnswerIsHappensAfter | server.py:109-116 | in every reachable state, a 200 answer to a request whose clock imported reports `happens-after` |
| Server.FreshServerScenario | server.py:68-96 | `{A:2, B:1}` sent to a fresh server leaves it at `{A:2, B:1, server:1}` and reports `happens-after` |
| Client.NewClient | client.py:18-22 | a new client's clock is `{client_id:0, server:0}` and is owned by the client |
| Client.Send | client.py:27-31 | the own counter rises by exactly one (created if absent) and nothing else changes, label set included; the request carries the post-increment clock and the caller's fields other than the clock field, unchanged |
| Client.Receive | client.py:37-46 | the clock never goes back; an HTTP or URL error returns `(None, None)` with the clock untouched; a reply without a clock returns with the clock untouched; an undecodable reply or a reply clock that does not import raises with the clock untouched; a reply clock that imports is merged into the clock (exactly `update`), after which a non-negative clock is pointwise at least the reply clock |
| Client.CallRpc | client.py:24-70 | one increment of the own counter before sending, with everything else unchanged, label set included; the client and the clock keep their owner, so the next call increments the same counter; the caller's fields are sent unchanged except the clock field, which carries the post-increment clock; on an HTTP or URL error, a reply without a clock, or an undecodable reply, the clock stays incremented; a reply clock that imports is merged; one that does not makes the call raise; the clock never ends below what was sent |
| Client.CallRpcDominatesReply | client.py:44-46 | for a client whose clock is non-negative: after a reply whose clock imports, the client's clock is pointwise at least that clock |
| Client.CallAllIsMonotone | client.py:27-46 | over any run of calls, whatever the transport does, no counter decreases, the own counter rises at least once per call, and a non-negative clock stays non-negative |
| Client.ReachableClientDominatesReply | client.py:18-46 | for every client that starts from its initial clock and makes any run of calls, a reply whose clock imports leaves the client's clock pointwise at least that clock, with no extra requirement |
| Protocol.ServerAnswersExchange | server.py:68-96 | for a non-negative server clock, a known route and valid operands (a 404 or 400 otherwise, per `HandlePost`), a request carrying clock `c` gets a 200 that echoes `c`, reports `happens-after`, and leaves the server above `c` |
| Protocol.UpdateAdoptsDominatingClock | vector_clock.py:67-72 | merging a clock that is above self and has all of self's labels adopts that clock's counters |
| Protocol.ClientReceivesClock | client.py:44-46 | a 200 reply carrying a clock returns normally and merges exactly that clock |
| Protocol.RoundTripSynchronises | client.py:27-46 | for a non-negative server clock and a 200 exchange only (known path, valid operands; the business fields play no part in the clock path): after one full exchange the server reports `happens-after` against exactly the clock the client sent, and the client's clock equals the server's |
| Protocol.SequentialCallsAreOrdered | client.py:138-153 | the first comparison of `demo_causality`, for a non-negative server clock and two 200 exchanges (known routes, valid operands): when two clients call one after the other, the first client's final clock and its sent clock are both `happens-before` the second client's final clock |

## Left out

- HTTP transport and JSON encoding and decoding (`json_response`, `parse_json`, `urlopen`, `run`, `do_GET`, the module-level `call_rpc`). The server sees an abstract `Payload`; the client sees an abstract `Transport` result.
- `validate_operands` and the add/multiply arithmetic. These are float business logic; the validation outcome (valid, rejected, or raising an uncaught error) is an input to `Server.HandlePost`, and the numeric result is not modelled.
- The coercion that Python's `int()` applies to strings, floats and booleans. An imported value is either `Coercible(n)`, with `n` being what `int()` returns, or `NotCoercible`.
- Concurrency on the server's class-level shared clock. Each request is one atomic step over an explicit clock value.
- The `TypeError` guard in `compare`. It is vacuous under static typing.
- `__str__`, `__repr__`, `get_clock` (the same as `to_dict`), all printing including the client's causality log, and the demo entry points (`main`, `demo_vector_clocks.py`, and the printing and later calls of `demo_causality`). These only narrate; the first comparison of `demo_causality` is `Protocol.SequentialCallsAreOrdered`.
- What the client sees when the server handler raises (`Aborted`). The transport result is an input, so no particular exception is modelled.
- Client.CallRpc: the caller's payload is a map with opaque values, and a 2xx reply is assumed to decode to a JSON object. Non-object reply bodies, and a causality block without `relationship` (which would raise during logging), are not modelled.
- ClockLaws.UpdateDominatesOther, ClockLaws.UpdateCommutative, ClockLaws.UpdateAssociative and ClockLaws.UpdateIsPointwiseMax require non-negative clocks. These are the usual laws of a vector-clock merge, which the source comments describe only as taking the maximum of the two values; they fail for negative imported counters (`ClockLaws.UpdateWithNegativeCounterDoesNotDominate`). Every clock the server or client holds is non-negative: `Server.ReachableServerIsNonNegative` and `Client.CallAllIsMonotone` from `Client.NewClient` prove it.
- Server.ObserveHappensAfterClient and Server.AnsweredRelationshipIsHappensAfter require a non-negative server clock for the same reason. `Server.ReachableAnswerIsHappensAfter` removes that requirement for every state reachable from the initial clock.
- Client.CallRpcDominatesReply requires a non-negative client clock for the same reason; `Client.ReachableClientDominatesReply` removes that requirement for every client reachable from `Client.NewClient`.
- Protocol.ServerAnswersExchange, Protocol.RoundTripSynchronises and Protocol.SequentialCallsAreOrdered require a non-negative server clock, which `Server.ReachableServerIsNonNegative` discharges for every server reachable from its initial clock, and describe only 200 exchanges (known routes, valid operands); the 404, 400 and aborted cases are stated by `Server.HandlePost`.
