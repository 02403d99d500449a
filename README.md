# A model of a small supervised-actor framework

This project models the core of a small Rust actor framework built on the
`bastion` runtime, and proves properties of the model in Dafny.

The core has four parts:

- **The client message-log aggregate.** `ClientState` holds an ordered log
  of strings. `handle` decides a command against the state and returns
  events. `apply` changes the state by one event. The event type carries a
  type tag and a schema version.
- **The generic actor builder `Actor<A>`.** It holds ten optional knobs:
  three for the supervisor and seven for the children group. Each fluent
  `with_*` setter sets one knob. `run` and `run_with_supervisor` pass the
  knobs to the runtime's builders. For the children group, the actor type's
  declared values are applied first and the builder's values second.
- **The state cell.** `State`/`WeakState` are the strong and weak handles
  to an actor's shared state.
- **The two client actors.** Each has a message loop over the shared state,
  its declared configuration, and `stop`/`kill`. One actor is the
  command/event variant. The other is an older variant that appends strings
  directly.

Modules (one file each):

| file | module | models |
|---|---|---|
| wrappers.dfy | `Wrappers` | `Option`, `Result` |
| errors.dfy | `Errors` | `ActorError` (src/error.rs) |
| events.dfy | `ClientEvents` | src/aggregates/client/events.rs |
| aggregate.dfy | `ClientAggregate` | src/aggregates/client/aggregate.rs |
| state.dfy | `ActorState` | src/actors/state.rs |
| bastion.dfy | `Bastion` | the runtime interface the builder uses (abstract) |
| actors.dfy | `Actors` | src/actors/mod.rs, with the `TActor` accessors of src/actors/traits.rs |
| cqrs_client.dfy | `CqrsClientActor` | src/actors/client.rs |
| legacy_client.dfy | `LegacyClientActor` | src/client.rs |

How the model is built:

- **The state cell.** The shared `Arc<RwLock<S>>` is a heap object
  `ActorState.Cell`. It has the stored `value` and an `alive` flag, which says
  whether a strong owner still exists. `State` and `WeakState` are values that
  hold a reference to a cell. Two handles point to the same state exactly when
  they hold the same cell. `upgrade` returns `Upgraded(state)` or
  `UpgradePanic("Upgrade state failed!")`. The second outcome stands for the
  panic.
- **The runtime's builders.** The supervisor builder and the children builder
  are represented by the sequence of calls made on them.
  `Bastion.ConfigureChildren` and `Bastion.ConfigureSupervisor` read a call
  sequence as a configuration, in which a later call on a knob replaces an
  earlier one. `A::executor` is the last call, `ChildrenWithExec`. It installs
  the processing routine over a clone of the weak handle, as both actor types
  do.
- **Actor types.** The `TActor` trait is not modelled as a trait. An actor
  type is represented by the `Actors.Knobs` value its ten accessors return
  (`CqrsClientActor.Declared`, `LegacyClientActor.Declared`).
  `A::with_supervisor` becomes `Actors.ActorHandle`.
- **Message loops.** Each loop is a method with a `while` loop over a finite
  `inbox`: the messages received before the child is stopped. The method
  changes the cell's `value` in place. It is proved equal to a specification
  function (`RunLoop`), and the properties are lemmas about that function.
- **Runtime outcomes.** Answers from the runtime are boolean parameters:
  whether the supervisor or children group was accepted, and whether
  stop/kill was accepted. The supervisor's identity is also a parameter.

Three facts about the code that the model makes explicit:

- **Knob count.** The builder and `TActor` have ten knobs: three for the
  supervisor and seven for the children group (src/actors/mod.rs:18-28).
- **Supervisor knobs in `run`.** `run` configures the supervisor from the
  builder's three supervisor knobs only. It never reads the actor type's
  declared supervisor knobs (src/actors/mod.rs:112-123). `Actors.Run` and
  `Actors.ChildrenGroupIgnoresDeclaredSupervisorKnobs` state this.
- **Two commands before their events.** If two `Add` commands arrive before
  either event batch is applied, only the second command's messages remain
  once both batches are applied. Both commands are decided against the same
  state, because `handle` builds the event from the state it reads, and
  `apply` replaces the log. `CqrsClientActor.BackToBackAddsKeepOnlyLast`
  proves this, and `CqrsClientActor.CommandsSeeSameState` states the general
  rule.

## Model

| member | source | states |
|---|---|---|
| `ClientEvents.EventType` | src/aggregates/client/events.rs:11-16 | the tag is "Messages added" exactly for `MessagesAdded` (whatever its payload) and "Paniced" exactly for `Paniced` |
| `ClientEvents.EventVersion` | src/aggregates/client/events.rs:18-20 | the version is "1.0" |
| `ClientEvents.EventTypeIdentifiesVariant` | src/aggregates/client/events.rs:12-15 | two events have the same tag iff they are the same variant, so the two tags are distinct |
| `ClientEvents.EventVersionUniform` | src/aggregates/client/events.rs:18-20 | every event has the same version |
| `ClientAggregate.DefaultState` | src/aggregates/client/aggregate.rs:7-10 | the default state has an empty log |
| `ClientAggregate.AggregateType` | src/aggregates/client/aggregate.rs:19-21 | the aggregate type is "client" |
| `ClientAggregate.FlattenPair` | src/aggregates/client/aggregate.rs:30-33 | flattening `[old, msgs]` is `old + msgs`, in that order |
| `ClientAggregate.Flatten` | src/aggregates/client/aggregate.rs:30-33 | flattening no lists gives the empty list; the first list is a prefix of the result; every entry of the result comes from one of the lists |
| `ClientAggregate.Handle` | src/aggregates/client/aggregate.rs:23-38 | `handle` never fails; `Add(msgs)` gives exactly one event, `MessagesAdded(old + msgs)`; `Panic` gives exactly `[Paniced]`; the state is an input only |
| `ClientAggregate.Apply` | src/aggregates/client/aggregate.rs:40-47 | `MessagesAdded(l)` makes the log `l`; `Paniced` leaves the state as it was |
| `ClientAggregate.ApplyAll` | src/actors/client.rs:65-67 | after a batch the state is the starting state or its log is the payload of some `MessagesAdded` of the batch |
| `ClientAggregate.ApplyReplaces` | src/aggregates/client/aggregate.rs:42-44 | applying `MessagesAdded(l)` makes the log exactly `l` (replace, not append) |
| `ClientAggregate.ApplyPanicedUnchanged` | src/aggregates/client/aggregate.rs:45 | applying `Paniced` leaves the state unchanged |
| `ClientAggregate.ApplyIdempotent` | src/aggregates/client/aggregate.rs:40-47 | applying an event twice gives the state of applying it once |
| `ClientAggregate.ApplyAllAppend` | src/actors/client.rs:65-67 | applying a batch `a + b` in order is applying `a`, then `b` |
| `ClientAggregate.ApplyAllLastAdded` | src/actors/client.rs:62-70 | a batch with only `Paniced` leaves the state unchanged; otherwise the log ends as the payload of the batch's last `MessagesAdded` |
| `ClientAggregate.HandleAddThenApply` | src/aggregates/client/aggregate.rs:29-44 | applying every event `handle(Add(msgs))` yields makes the log `old + msgs` |
| `ClientAggregate.HandlePanicThenApply` | src/aggregates/client/aggregate.rs:36-45 | applying the events of `handle(Panic)` leaves the state unchanged (a no-op event, not a failure) |
| `ClientAggregate.ScenarioFirstAdd` | src/aggregates/client/aggregate.rs:29-44 | from `[]`, `Add(["hello"])` yields `[MessagesAdded(["hello"])]`, and applying it gives `["hello"]` |
| `ClientAggregate.ScenarioSecondAdd` | src/aggregates/client/aggregate.rs:29-44 | from `["hello"]`, `Add(["world"])` yields an event carrying `["hello","world"]`, and applying it gives that log |
| `ActorState.Cell.constructor` | src/actors/state.rs:19 | a new cell holds the initial value and is alive |
| `ActorState.Default` | src/actors/state.rs:18-20 | `State::default` gives a fresh, live cell holding the default value |
| `ActorState.Downgrade` | src/actors/state.rs:32-34 | the weak handle refers to the owner's cell; nothing is changed |
| `ActorState.Upgrade` | src/actors/state.rs:36-41 | it succeeds iff the cell is alive, and then gives a strong handle to that same cell; otherwise it is the panic "Upgrade state failed!" and gives no handle |
| `ActorState.Clone` | src/actors/state.rs:55-58 | the clone refers to the same cell |
| `ActorState.DropOwner` | src/actors/state.rs:12 | when the strong owner goes away the cell is no longer alive; only the flag changes |
| `ActorState.UpgradeDowngrade` | src/actors/state.rs:32-41 | upgrade after downgrade gives back the owner while it is alive, and panics once it is gone |
| `ActorState.UpgradeClone` | src/actors/state.rs:36-58 | a cloned weak handle upgrades exactly as the original does |
| `ActorState.OwnershipLifecycle` | src/actors/state.rs:18-58 | create, downgrade, clone and upgrade reach the owner's value; once the upgraded handle is released and the owner is dropped, the upgrade panics |
| `Actors.Default` | src/actors/mod.rs:37-51 | `Actor::default` leaves all ten knobs unset |
| `Actors.WithSupervisorCallbacks` | src/actors/mod.rs:130-133 | sets the supervisor callbacks to `Some(v)`; the other nine knobs are unchanged |
| `Actors.WithRestartStrategy` | src/actors/mod.rs:135-138 | sets the restart strategy to `Some(v)`; the other nine are unchanged |
| `Actors.WithStrategy` | src/actors/mod.rs:140-143 | sets the supervision strategy to `Some(v)`; the other nine are unchanged |
| `Actors.WithChildrenCallbacks` | src/actors/mod.rs:146-149 | sets the children callbacks to `Some(v)`; the other nine are unchanged |
| `Actors.WithDispatcher` | src/actors/mod.rs:151-154 | sets the dispatcher to `Some(v)`; the other nine are unchanged |
| `Actors.WithDistributor` | src/actors/mod.rs:156-159 | sets the distributor to `Some(v)`; the other nine are unchanged |
| `Actors.WithHeartbeatTick` | src/actors/mod.rs:161-164 | sets the heartbeat interval to `Some(v)`; the other nine are unchanged |
| `Actors.WithName` | src/actors/mod.rs:166-169 | sets the name to `Some(v)`; the other nine are unchanged |
| `Actors.WithRedundancy` | src/actors/mod.rs:171-174 | sets the redundancy to `Some(v)`; the other nine are unchanged |
| `Actors.WithResizer` | src/actors/mod.rs:176-179 | sets the resizer to `Some(v)`; the other nine are unchanged |
| `Actors.SettersLastWriteWins` | src/actors/mod.rs:130-179 | for every knob, setting it twice keeps the second value |
| `Actors.ChildrenKnobCalls` | src/actors/mod.rs:60-102 | the children-builder calls for a knob set never install the routine |
| `Actors.ApplyChildrenKnobs` | src/actors/mod.rs:60-80 | one block of seven conditional updates appends, in declaration order, one call for each children knob that is set |
| `Actors.ConfigureKnobCalls` | src/actors/mod.rs:82-102 | those calls overlay the configuration: each set knob takes its value, each unset knob keeps the earlier one |
| `Actors.ChildrenGroupPrecedence` | src/actors/mod.rs:60-104 | each children knob ends as the builder's value if set, otherwise the type's declared value (unset if neither is set), and the routine runs over the caller's state |
| `Actors.ChildrenGroupExecLast` | src/actors/mod.rs:104 | `A::executor` is called once, after all knob calls |
| `Actors.SupervisorFromBuilder` | src/actors/mod.rs:112-123 | the supervisor `run` configures has exactly the builder's three supervisor knobs |
| `Actors.ChildrenGroupIgnoresDeclaredSupervisorKnobs` | src/actors/mod.rs:111-127 | the children group does not depend on the type's declared supervisor knobs |
| `Actors.RunWithSupervisor` | src/actors/mod.rs:53-109 | the call sequence is the declared children knobs, then the builder's, then the executor; the precedence rule holds; a refused group gives `UnableToInitChildren`, otherwise `Ok` of the actor holding the same supervisor |
| `Actors.Run` | src/actors/mod.rs:111-127 | the supervisor is configured from the builder only; a refused supervisor gives `UnableToInitSupervisor` and no children group is configured; otherwise the outcome of `run_with_supervisor` on that supervisor |
| `CqrsClientActor.ReceiveAddCommand` | src/actors/client.rs:55-61 | a tell of `Add(msgs)` leaves the state unchanged and sends one batch `[MessagesAdded(old + msgs)]` to "client" |
| `CqrsClientActor.Receive` | src/actors/client.rs:54-71 | one iteration: an event batch is applied in order and sends nothing; any other message leaves the state unchanged; a command sends exactly one batch, `handle`'s events, to "client", and nothing else sends |
| `CqrsClientActor.RunLoop` | src/actors/client.rs:53-72 | the loop over an inbox sends at most one batch per message, every batch to "client"; without event batches in the inbox the state is unchanged |
| `CqrsClientActor.ReceivePanicCommand` | src/actors/client.rs:55-61 | a tell of `Panic` leaves the state unchanged and sends the batch `[Paniced]` |
| `CqrsClientActor.ReceiveEvents` | src/actors/client.rs:62-70 | a tell of an event batch makes the state the in-order fold of `apply` over it and sends nothing |
| `CqrsClientActor.ReceiveUnknown` | src/actors/client.rs:71 | a request, or a tell of another type, changes nothing and sends nothing |
| `CqrsClientActor.AddThenOwnBatch` | src/actors/client.rs:55-70 | `Add(msgs)` followed by the batch it sent leaves the log `old + msgs` |
| `CqrsClientActor.CommandsSeeSameState` | src/actors/client.rs:53-61 | until a batch arrives the state is unchanged, and every command's batch is decided against that same state, in receipt order |
| `CqrsClientActor.BackToBackAddsKeepOnlyLast` | src/actors/client.rs:53-70 | `Add(["hello"])` and `Add(["world"])` received before their batches: the log ends as `["world"]` |
| `CqrsClientActor.ApplyEvents` | src/actors/client.rs:64-68 | the batch is applied to the shared state in place, in list order |
| `CqrsClientActor.Exec` | src/actors/client.rs:47-75 | with a dead owner the routine panics and changes nothing; otherwise the state and sent batches equal the loop specification over the inbox |
| `CqrsClientActor.Declared` | src/actors/client.rs:77-115 | the type declares only `distributor = Named("client")`; the nine other knobs are unset |
| `CqrsClientActor.DefaultBuilder` | src/actors/client.rs:39-41 | `TActor::default` is the builder with no knob set |
| `CqrsClientActor.DefaultRunChildren` | src/actors/client.rs:97-99 | started from the default builder, the children group has distributor "client" and no other knob |
| `CqrsClientActor.BuilderDistributorOverrides` | src/actors/mod.rs:88-90 | a distributor set on the builder replaces the declared "client" |
| `CqrsClientActor.Stop` | src/actors/client.rs:23-27 | a runtime rejection gives `StopError`, otherwise `Ok` |
| `CqrsClientActor.Kill` | src/actors/client.rs:29-33 | a runtime rejection gives `KillError`, otherwise `Ok` |
| `LegacyClientActor.DefaultState` | src/client.rs:23-26 | the default state has an empty log |
| `LegacyClientActor.ReceiveAddAppends` | src/client.rs:67-73 | `TellClient::Add(s)` appends exactly `s` at the end and replies nothing |
| `LegacyClientActor.Receive` | src/client.rs:65-86 | one iteration: `Add(s)` appends `s` and nothing else changes the log; `Messages` replies with the current log, and nothing else replies |
| `LegacyClientActor.RunLoop` | src/client.rs:64-87 | the loop over an inbox only extends the log, replies at most once per message, and each reply lies between the starting and the final log |
| `LegacyClientActor.ReceiveAskReplies` | src/client.rs:74-84 | `AskClient::Messages` replies with the current log and leaves the state unchanged, whether or not the reply is delivered |
| `LegacyClientActor.ReceiveOther` | src/client.rs:85 | any other message changes nothing and sends nothing |
| `LegacyClientActor.RunAppendsAdded` | src/client.rs:65-86 | after any inbox the log is the old log followed by the added strings, in receipt order |
| `LegacyClientActor.RepliesAreSnapshots` | src/client.rs:74-83 | every reply extends the initial log and is a prefix of the final one |
| `LegacyClientActor.HelloScenario` | src/main.rs:29-31 | `Add("Hello, I am Tuong")` then `Messages` answers `["Hello, I am Tuong"]` |
| `LegacyClientActor.Exec` | src/client.rs:59-89 | with a dead owner the routine panics and changes nothing; otherwise the state and replies equal the loop specification over the inbox |
| `LegacyClientActor.Declared` | src/client.rs:91-129 | the type declares only `distributor = Named("client")`; the nine other knobs are unset |
| `LegacyClientActor.DefaultBuilder` | src/client.rs:51-53 | `TActor::default` is the builder with no knob set |
| `LegacyClientActor.DefaultRunChildren` | src/client.rs:111-113 | started from the default builder, as at src/main.rs:25, the children group has distributor "client" and no other knob |
| `LegacyClientActor.Stop` | src/client.rs:35-39 | a runtime rejection gives `StopError`, otherwise `Ok` |
| `LegacyClientActor.Kill` | src/client.rs:41-45 | a runtime rejection gives `KillError`, otherwise `Ok` |

## Left out

- The bastion runtime is not modelled. This covers supervisor and children creation, `Distributor` routing, `tell_one`, `request`, `reply`, `ctx.recv()` and `run!`. Runtime answers are boolean parameters, and the mailbox is a finite input sequence.
- The effective configuration assumes a later builder call on a knob replaces an earlier one. How the runtime's own builders store repeated calls is not part of this model. The call sequence itself is modelled exactly.
- Batches are not routed back to the actor. The command branch records each batch it sends to "client", and lemmas feed those batches back as later inbox messages.
- The tokio `RwLock` is not modelled: no read/write exclusion, no async suspension, no cancellation. Each loop iteration is one atomic step on the cell, so "a reader never sees a partial write" holds trivially and is not stated.
- ActorState.DropOwner: `Arc`/`Weak` reference counts are not modelled. A `State` returned by `upgrade` is not tracked as an owner, so `DropOwner` may be called while such a handle is still held; callers must release every upgraded handle first, as `ActorState.OwnershipLifecycle` does. `alive` only records whether a strong owner exists, and `DropOwner` is the moment the last one goes away.
- The knob payload types (`Callbacks`, `RestartStrategy`, `SupervisionStrategy`, `Dispatcher`, `Duration`, `OptimalSizeExploringResizer`) are opaque values. A `Distributor` is its name. `redundancy` is a `nat`: it is only stored, so `usize` width does not matter.
- Logging (`info!`, `warn!`) is left out.
- CqrsClientActor.Exec: the `unwrap` of a failed `tell_one` is not modelled, because it is a runtime failure. The `unwrap` of `handle` cannot fire (`ClientAggregate.Handle` never fails).
- CqrsClientActor.Exec and LegacyClientActor.Exec process a finite inbox and then end as a receive failure. The source loop is unbounded.
- CqrsClientActor.Stop, CqrsClientActor.Kill, LegacyClientActor.Stop and LegacyClientActor.Kill state only the returned result. The effect on the supervisor belongs to the runtime.
- src/main.rs (logger setup, runtime start, sleep, block until stopped) is left out. Only its Add-then-ask sequence is used, in `LegacyClientActor.HelloScenario`.
- `TActor` is not a trait here. src/actors/traits.rs, the trait src/actors/mod.rs uses, is not part of this model; it is taken to declare the same accessors as src/traits.rs:8-44. An actor type's accessors are its `Knobs` value, and `executor` is the `ChildrenWithExec` call. `TState` has no behaviour.
- src/error.rs is the `Errors.ActorError` datatype. src/actors/error.rs is not part of this model, so its `ActorError` is taken to have the same five variants.
- `ClientCommand` (src/aggregates/client/commands.rs) and `ClientError` are not part of this model. The commands are `Add(seq<string>)` and `Panic`, as `handle` matches them. `ClientError` is a placeholder that `handle` never returns.
- src/actor.rs and src/state.rs, the modules src/client.rs and src/traits.rs import, are not part of this model. `LegacyClientActor` assumes they behave like src/actors/mod.rs and src/actors/state.rs.
- Serde derives and `Deref` impls are left out. Reading or writing through a guard is direct access to `Cell.value`.
