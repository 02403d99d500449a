/** The parts of the actor runtime the builder talks to. The runtime itself is
    not part of this model: its configuration payloads are opaque values, and
    its supervisor and children builders are represented by the sequence of
    calls made on them. The configuration such a sequence denotes is read with
    a later call on a knob replacing an earlier one. */
module Bastion {
  import opened Wrappers
  import opened ActorState

  /** Opaque configuration payloads, identified by a value. */
  datatype Callbacks = Callbacks(id: nat)
  datatype RestartStrategy = RestartStrategy(id: nat)
  datatype SupervisionStrategy = SupervisionStrategy(id: nat)
  datatype Dispatcher = Dispatcher(id: nat)
  datatype Resizer = Resizer(id: nat)
  datatype Duration = Duration(millis: nat)

  /** `Distributor::named(name)`: a process-wide address. */
  datatype Distributor = Named(name: string)

  /** `SupervisorRef`: a handle to a running supervisor, identified by the runtime. */
  datatype SupervisorRef = SupervisorRef(id: nat)

  /** A call on the runtime's supervisor builder. */
  datatype SupervisorCall =
    | SupervisorWithCallbacks(callbacks: Callbacks)
    | SupervisorWithRestartStrategy(restartStrategy: RestartStrategy)
    | SupervisorWithStrategy(strategy: SupervisionStrategy)

  /** A call on the runtime's children builder; `WithExec` installs the
      processing routine, which works on the state behind `state`. */
  datatype ChildrenCall<S> =
    | ChildrenWithCallbacks(callbacks: Callbacks)
    | ChildrenWithDispatcher(dispatcher: Dispatcher)
    | ChildrenWithDistributor(distributor: Distributor)
    | ChildrenWithHeartbeatTick(interval: Duration)
    | ChildrenWithName(name: string)
    | ChildrenWithRedundancy(redundancy: nat)
    | ChildrenWithResizer(resizer: Resizer)
    | ChildrenWithExec(state: WeakState<S>)

  /** The supervisor configuration a sequence of calls denotes. */
  datatype SupervisorConfig = SupervisorConfig(
    callbacks: Option<Callbacks>,
    restartStrategy: Option<RestartStrategy>,
    strategy: Option<SupervisionStrategy>)

  /** The children-group configuration a sequence of calls denotes. */
  datatype ChildrenConfig<S> = ChildrenConfig(
    callbacks: Option<Callbacks>,
    dispatcher: Option<Dispatcher>,
    distributor: Option<Distributor>,
    heartbeatTick: Option<Duration>,
    name: Option<string>,
    redundancy: Option<nat>,
    resizer: Option<Resizer>,
    exec: Option<WeakState<S>>)

  function UnsetSupervisor(): SupervisorConfig
  {
    SupervisorConfig(None, None, None)
  }

  function UnsetChildren<S>(): ChildrenConfig<S>
  {
    ChildrenConfig(None, None, None, None, None, None, None, None)
  }

  function ApplySupervisorCall(c: SupervisorConfig, call: SupervisorCall): SupervisorConfig
  {
    match call
    case SupervisorWithCallbacks(cb) => c.(callbacks := Some(cb))
    case SupervisorWithRestartStrategy(rs) => c.(restartStrategy := Some(rs))
    case SupervisorWithStrategy(st) => c.(strategy := Some(st))
  }

  /** The configuration after the calls, applied in order. */
  function ConfigureSupervisor(c: SupervisorConfig, calls: seq<SupervisorCall>): SupervisorConfig
    decreases |calls|
  {
    if calls == [] then c else ConfigureSupervisor(ApplySupervisorCall(c, calls[0]), calls[1..])
  }

  function ApplyChildrenCall<S>(c: ChildrenConfig<S>, call: ChildrenCall<S>): ChildrenConfig<S>
  {
    match call
    case ChildrenWithCallbacks(cb) => c.(callbacks := Some(cb))
    case ChildrenWithDispatcher(d) => c.(dispatcher := Some(d))
    case ChildrenWithDistributor(d) => c.(distributor := Some(d))
    case ChildrenWithHeartbeatTick(t) => c.(heartbeatTick := Some(t))
    case ChildrenWithName(n) => c.(name := Some(n))
    case ChildrenWithRedundancy(r) => c.(redundancy := Some(r))
    case ChildrenWithResizer(r) => c.(resizer := Some(r))
    case ChildrenWithExec(w) => c.(exec := Some(w))
  }

  /** The configuration after the calls, applied in order. */
  function ConfigureChildren<S>(c: ChildrenConfig<S>, calls: seq<ChildrenCall<S>>): ChildrenConfig<S>
    decreases |calls|
  {
    if calls == [] then c else ConfigureChildren(ApplyChildrenCall(c, calls[0]), calls[1..])
  }

  /** Configuring with two sequences of calls is configuring with the first, then the second. */
  lemma {:induction false} ConfigureChildrenAppend<S>(c: ChildrenConfig<S>, a: seq<ChildrenCall<S>>, b: seq<ChildrenCall<S>>)
    ensures ConfigureChildren(c, a + b) == ConfigureChildren(ConfigureChildren(c, a), b)
    decreases |a|
  {
    if a == [] {
      assert a + b == b;
    } else {
      assert (a + b)[0] == a[0];
      assert (a + b)[1..] == a[1..] + b;
      ConfigureChildrenAppend(ApplyChildrenCall(c, a[0]), a[1..], b);
    }
  }

  /** Configuring with two sequences of calls is configuring with the first, then the second. */
  lemma {:induction false} ConfigureSupervisorAppend(c: SupervisorConfig, a: seq<SupervisorCall>, b: seq<SupervisorCall>)
    ensures ConfigureSupervisor(c, a + b) == ConfigureSupervisor(ConfigureSupervisor(c, a), b)
    decreases |a|
  {
    if a == [] {
      assert a + b == b;
    } else {
      assert (a + b)[0] == a[0];
      assert (a + b)[1..] == a[1..] + b;
      ConfigureSupervisorAppend(ApplySupervisorCall(c, a[0]), a[1..], b);
    }
  }
}
