# Endpoint record of the multi-endpoint failover layer

This project models `Endpoint`, the small mutable record that grpc-gcp's
multi-endpoint failover layer keeps for each destination it can route to. Each
record has:

- a constant id;
- a health state (`UNAVAILABLE`, `AVAILABLE` or `RECOVERING`);
- an integer priority;
- a slot for at most one pending "change state" future.

The setters replace state and priority without validation.
`setChangeStateFuture` first resets, which cancels the future it holds, and then
stores the new future. `resetStateChangeFuture` cancels the held future with
`cancel(true)`.

Three modules:

- `EndpointSpec` (endpoint_spec.dfy) is the model as values. `Snapshot` holds the
  record's fields plus a log of every cancel the record has issued. `Call` is one
  mutator call and `Step` is its effect. `Run` applies a sequence of calls. The
  lemmas about `Run` state what any sequence of calls does.
- `MultiEndpoint` (endpoint.dfy) has `class Endpoint`, with the Java fields as
  fields. Each setter assigns in place, lists in its `modifies` clause exactly the
  fields it may touch, states the new fields, and is proved equal to `Step`
  through the ghost function `View()`. The cancel log is the ghost field
  `cancelled`. Each log entry records the future and the `mayInterruptIfRunning`
  flag passed to `cancel`.
- `EndpointScenarios` (endpoint_scenarios.dfy) holds clients of the class.
  `Apply` makes any sequence of calls on an endpoint through its methods, and
  proves that the endpoint ends as `Run` says. The other methods each build an
  `Endpoint`, make a fixed sequence of calls, and state what they then observe.

## Reset never clears the slot

`resetStateChangeFuture` cancels the held future but never assigns the field
(Endpoint.java:73-77). A caller might expect a method of that name to empty the
slot and to be a no-op when called again. The model follows the code:

- after a reset the slot still holds the future, which is now cancelled;
- each further reset cancels that future again
  (`EndpointSpec.ResetsRecancelHeldFuture`, `EndpointSpec.ResetTwiceCancelsTwice`);
- create, set RECOVERING, store f, set AVAILABLE, reset: this run ends with f
  cancelled once and still held (`EndpointScenarios.EndToEnd`);
- the slot is emptied only by `setChangeStateFuture(null)`, which is `None` here.

Three further consequences of the code:

- replacing the future with the same future cancels it and then stores it again;
- a fresh record, or a record whose slot was emptied by
  `setChangeStateFuture(null)`, does treat reset as a no-op
  (`EndpointSpec.ResetsOnEmptySlotChangeNothing`);
- no stored future is leaked: after any sequence of calls, every future passed
  to setChangeStateFuture is either still held or has been cancelled
  (`EndpointSpec.StoredFutureHeldOrCancelled`).

## Model

| member | source | states |
|---|---|---|
| `MultiEndpoint.Endpoint.constructor` | grpc-gcp/src/main/java/com/google/cloud/grpc/multiendpoint/Endpoint.java:37-46 | id, state and priority are the arguments; no future is held (the field is never assigned, so it stays null); no cancel has been issued |
| `MultiEndpoint.Endpoint.GetId` | grpc-gcp/src/main/java/com/google/cloud/grpc/multiendpoint/Endpoint.java:37-50 | returns the constant id, the one given at construction |
| `MultiEndpoint.Endpoint.GetState` | grpc-gcp/src/main/java/com/google/cloud/grpc/multiendpoint/Endpoint.java:52-54 | returns the current state and changes nothing |
| `MultiEndpoint.Endpoint.GetPriority` | grpc-gcp/src/main/java/com/google/cloud/grpc/multiendpoint/Endpoint.java:56-58 | returns the current priority and changes nothing |
| `MultiEndpoint.Endpoint.SetState` | grpc-gcp/src/main/java/com/google/cloud/grpc/multiendpoint/Endpoint.java:60-62 | the state becomes the argument without validation; priority, the future slot and the cancel log are unchanged (the frame allows only `state`) |
| `MultiEndpoint.Endpoint.SetPriority` | grpc-gcp/src/main/java/com/google/cloud/grpc/multiendpoint/Endpoint.java:64-66 | the priority becomes any 32-bit argument, with no range check; state, the slot and the log are unchanged |
| `MultiEndpoint.Endpoint.SetChangeStateFuture` | grpc-gcp/src/main/java/com/google/cloud/grpc/multiendpoint/Endpoint.java:68-71 | the previously held future, if any, is cancelled once with interruption; then the slot holds the argument, possibly null, which this call does not cancel; state and priority are unchanged |
| `MultiEndpoint.Endpoint.ResetStateChangeFuture` | grpc-gcp/src/main/java/com/google/cloud/grpc/multiendpoint/Endpoint.java:73-77 | an empty slot issues no cancel; a held future is appended to the log once, with interruption; no field changes, so the slot keeps the future |
| `EndpointSpec.IdIsFixed` | grpc-gcp/src/main/java/com/google/cloud/grpc/multiendpoint/Endpoint.java:37-77 | no sequence of calls changes the id |
| `EndpointSpec.StateUntouched` | grpc-gcp/src/main/java/com/google/cloud/grpc/multiendpoint/Endpoint.java:60-77 | a sequence with no setState leaves the state as it was |
| `EndpointSpec.LastStateWins` | grpc-gcp/src/main/java/com/google/cloud/grpc/multiendpoint/Endpoint.java:60-62 | after any sequence of calls, the state is the argument of the last setState (last write wins, nothing is queued) |
| `EndpointSpec.PriorityUntouched` | grpc-gcp/src/main/java/com/google/cloud/grpc/multiendpoint/Endpoint.java:64-77 | a sequence with no setPriority leaves the priority as it was |
| `EndpointSpec.LastPriorityWins` | grpc-gcp/src/main/java/com/google/cloud/grpc/multiendpoint/Endpoint.java:64-66 | after any sequence of calls, the priority is the argument of the last setPriority |
| `EndpointSpec.CancelsOnlyStoredFutures` | grpc-gcp/src/main/java/com/google/cloud/grpc/multiendpoint/Endpoint.java:68-77 | over any sequence of calls the cancel log only grows; every new cancel requests interruption; every cancelled future was held at the start or was passed to setChangeStateFuture |
| `EndpointSpec.HeldFutureStaysHeldOrCancelled` | grpc-gcp/src/main/java/com/google/cloud/grpc/multiendpoint/Endpoint.java:60-77 | a held future, whatever calls follow, is still held at the end or has been cancelled with interruption; the log only grows |
| `EndpointSpec.StoredFutureHeldOrCancelled` | grpc-gcp/src/main/java/com/google/cloud/grpc/multiendpoint/Endpoint.java:68-77 | in any sequence of calls, mixing resets, setState, setPriority and null futures, every future passed to setChangeStateFuture ends either held or cancelled with interruption: none is leaked |
| `EndpointSpec.SupersedeCancelsAllButLast` | grpc-gcp/src/main/java/com/google/cloud/grpc/multiendpoint/Endpoint.java:68-77 | a run of setChangeStateFuture calls leaves the last future held; it cancels, in order and with interruption, the future held before and every passed future but the last; id, state and priority are unchanged |
| `EndpointSpec.SupersededOnceEach` | grpc-gcp/src/main/java/com/google/cloud/grpc/multiendpoint/Endpoint.java:68-77 | from an empty slot, with distinct futures, exactly one future survives; each of the others is cancelled exactly once; the survivor is not cancelled |
| `EndpointSpec.ReplaceTwice` | grpc-gcp/src/main/java/com/google/cloud/grpc/multiendpoint/Endpoint.java:68-77 | from an empty slot, setChangeStateFuture(f1) then setChangeStateFuture(f2) logs exactly one cancel, of f1, and holds f2 |
| `EndpointSpec.ResetsOnEmptySlotChangeNothing` | grpc-gcp/src/main/java/com/google/cloud/grpc/multiendpoint/Endpoint.java:73-77 | any number of resets on an empty slot issue no cancel and change nothing |
| `EndpointSpec.ResetsRecancelHeldFuture` | grpc-gcp/src/main/java/com/google/cloud/grpc/multiendpoint/Endpoint.java:73-77 | k resets while future f is held cancel f k times, each time with interruption; f stays held and nothing else changes |
| `EndpointSpec.ResetTwiceCancelsTwice` | grpc-gcp/src/main/java/com/google/cloud/grpc/multiendpoint/Endpoint.java:73-77 | two consecutive resets while f is held cancel f twice, and f is still held |
| `EndpointScenarios.Apply` | grpc-gcp/src/main/java/com/google/cloud/grpc/multiendpoint/Endpoint.java:60-77 | making any sequence of calls on an endpoint through its methods leaves its fields and cancel log exactly as `EndpointSpec.Run` gives them |
| `EndpointScenarios.ConstructAndRead` | grpc-gcp/src/main/java/com/google/cloud/grpc/multiendpoint/Endpoint.java:42-58 | a new endpoint's getters return its construction arguments, and it holds no future |
| `EndpointScenarios.ResetFresh` | grpc-gcp/src/main/java/com/google/cloud/grpc/multiendpoint/Endpoint.java:42-77 | resetting a new endpoint issues no cancel and leaves the slot empty |
| `EndpointScenarios.StoreTwice` | grpc-gcp/src/main/java/com/google/cloud/grpc/multiendpoint/Endpoint.java:68-77 | on an object, storing f1 then f2 holds f2 and logs exactly one cancel, of f1 |
| `EndpointScenarios.StoreThenResetTwice` | grpc-gcp/src/main/java/com/google/cloud/grpc/multiendpoint/Endpoint.java:68-77 | on an object, storing f then resetting twice logs two cancels of f, and f is still held |
| `EndpointScenarios.EndToEnd` | grpc-gcp/src/main/java/com/google/cloud/grpc/multiendpoint/Endpoint.java:42-77 | "ep-1", created UNAVAILABLE with priority 10, then set RECOVERING, given f, set AVAILABLE and reset: it ends AVAILABLE with priority 10 and f cancelled once; f is still held |

## Left out

- Locking: the `synchronized` on setChangeStateFuture and resetStateChangeFuture, and any thread interleaving. Each method is one atomic step of a sequential model. For N setChangeStateFuture calls with distinct futures, starting from an empty slot, `EndpointSpec.SupersededOnceEach` holds for every serial order of the calls: the last one survives and each of the others is cancelled exactly once. Interleavings inside a call are not modelled.
- `ScheduledFuture` behaviour: timers, running and interrupting the deferred action, and the boolean that `cancel` returns, which the code ignores. A future is an opaque `Handle`, and a cancel is an entry in a ghost log.
- Java `null`: a null future is `None`. A null id or null state cannot be expressed, because `string` and `EndpointState` have no null value.
- Priority is a 32-bit `Int32` newtype. No arithmetic is done on it, so no wrap-around has to be modelled.
- The `@CheckReturnValue` annotation, Java packaging and the `final` class modifier. They have no behaviour to model.
- The orchestrator that creates endpoints, schedules the futures and decides transitions. It is not part of this model.
