/** The generic actor builder `Actor<A>` (src/actors/mod.rs) and the
    configuration an actor type declares (the `TActor` accessors of
    src/traits.rs).

    An actor type `A` is represented here by what its ten `with_*` accessors
    return, a `Knobs` value; the builder holds a `Knobs` value of its own.
    `A::executor`, as both actor types implement it, installs the processing
    routine over a clone of the weak state handle; `A::with_supervisor` wraps
    the supervisor in an `ActorHandle`. */
module Actors {
  import opened Wrappers
  import opened Errors
  import opened ActorState
  import opened Bastion

  /** The ten independently optional knobs: three for the supervisor, seven
      for the children group. */
  datatype Knobs = Knobs(
    supervisorCallbacks: Option<Callbacks>,
    restartStrategy: Option<RestartStrategy>,
    strategy: Option<SupervisionStrategy>,
    childrenCallbacks: Option<Callbacks>,
    dispatcher: Option<Dispatcher>,
    distributor: Option<Distributor>,
    heartbeatTick: Option<Duration>,
    name: Option<string>,
    redundancy: Option<nat>,
    resizer: Option<Resizer>)

  /** Names of the knobs, so that statements about "every other knob" can be made. */
  datatype Knob =
    | SupervisorCallbacksKnob | RestartStrategyKnob | StrategyKnob
    | ChildrenCallbacksKnob | DispatcherKnob | DistributorKnob | HeartbeatTickKnob
    | NameKnob | RedundancyKnob | ResizerKnob

  /** Whether knob `n` holds a value in `k`. */
  predicate IsSet(k: Knobs, n: Knob)
  {
    match n
    case SupervisorCallbacksKnob => k.supervisorCallbacks.Some?
    case RestartStrategyKnob => k.restartStrategy.Some?
    case StrategyKnob => k.strategy.Some?
    case ChildrenCallbacksKnob => k.childrenCallbacks.Some?
    case DispatcherKnob => k.dispatcher.Some?
    case DistributorKnob => k.distributor.Some?
    case HeartbeatTickKnob => k.heartbeatTick.Some?
    case NameKnob => k.name.Some?
    case RedundancyKnob => k.redundancy.Some?
    case ResizerKnob => k.resizer.Some?
  }

  /** Whether `a` and `b` agree on knob `n`. */
  predicate SameKnob(a: Knobs, b: Knobs, n: Knob)
  {
    match n
    case SupervisorCallbacksKnob => a.supervisorCallbacks == b.supervisorCallbacks
    case RestartStrategyKnob => a.restartStrategy == b.restartStrategy
    case StrategyKnob => a.strategy == b.strategy
    case ChildrenCallbacksKnob => a.childrenCallbacks == b.childrenCallbacks
    case DispatcherKnob => a.dispatcher == b.dispatcher
    case DistributorKnob => a.distributor == b.distributor
    case HeartbeatTickKnob => a.heartbeatTick == b.heartbeatTick
    case NameKnob => a.name == b.name
    case RedundancyKnob => a.redundancy == b.redundancy
    case ResizerKnob => a.resizer == b.resizer
  }

  /** `A::with_supervisor(supervisor)`: the running actor, holding its supervisor. */
  datatype ActorHandle = ActorHandle(supervisor: SupervisorRef)

  /** `Actor::default()`: no knob is set. */
  function Default(): (b: Knobs)
    ensures forall n :: !IsSet(b, n)
  {
    Knobs(None, None, None, None, None, None, None, None, None, None)
  }

  // The fluent setters: each sets its own knob and leaves the nine others as they were.

  function WithSupervisorCallbacks(b: Knobs, callbacks: Callbacks): (r: Knobs)
    ensures r.supervisorCallbacks == Some(callbacks)
    ensures forall n :: n != SupervisorCallbacksKnob ==> SameKnob(r, b, n)
  {
    b.(supervisorCallbacks := Some(callbacks))
  }

  function WithRestartStrategy(b: Knobs, restartStrategy: RestartStrategy): (r: Knobs)
    ensures r.restartStrategy == Some(restartStrategy)
    ensures forall n :: n != RestartStrategyKnob ==> SameKnob(r, b, n)
  {
    b.(restartStrategy := Some(restartStrategy))
  }

  function WithStrategy(b: Knobs, strategy: SupervisionStrategy): (r: Knobs)
    ensures r.strategy == Some(strategy)
    ensures forall n :: n != StrategyKnob ==> SameKnob(r, b, n)
  {
    b.(strategy := Some(strategy))
  }

  function WithChildrenCallbacks(b: Knobs, callbacks: Callbacks): (r: Knobs)
    ensures r.childrenCallbacks == Some(callbacks)
    ensures forall n :: n != ChildrenCallbacksKnob ==> SameKnob(r, b, n)
  {
    b.(childrenCallbacks := Some(callbacks))
  }

  function WithDispatcher(b: Knobs, dispatcher: Dispatcher): (r: Knobs)
    ensures r.dispatcher == Some(dispatcher)
    ensures forall n :: n != DispatcherKnob ==> SameKnob(r, b, n)
  {
    b.(dispatcher := Some(dispatcher))
  }

  function WithDistributor(b: Knobs, distributor: Distributor): (r: Knobs)
    ensures r.distributor == Some(distributor)
    ensures forall n :: n != DistributorKnob ==> SameKnob(r, b, n)
  {
    b.(distributor := Some(distributor))
  }

  function WithHeartbeatTick(b: Knobs, interval: Duration): (r: Knobs)
    ensures r.heartbeatTick == Some(interval)
    ensures forall n :: n != HeartbeatTickKnob ==> SameKnob(r, b, n)
  {
    b.(heartbeatTick := Some(interval))
  }

  function WithName(b: Knobs, name: string): (r: Knobs)
    ensures r.name == Some(name)
    ensures forall n :: n != NameKnob ==> SameKnob(r, b, n)
  {
    b.(name := Some(name))
  }

  function WithRedundancy(b: Knobs, redundancy: nat): (r: Knobs)
    ensures r.redundancy == Some(redundancy)
    ensures forall n :: n != RedundancyKnob ==> SameKnob(r, b, n)
  {
    b.(redundancy := Some(redundancy))
  }

  function WithResizer(b: Knobs, resizer: Resizer): (r: Knobs)
    ensures r.resizer == Some(resizer)
    ensures forall n :: n != ResizerKnob ==> SameKnob(r, b, n)
  {
    b.(resizer := Some(resizer))
  }

  /** Setting a knob twice keeps the value of the second call. */
  lemma SettersLastWriteWins(b: Knobs)
    ensures forall v1, v2 :: WithSupervisorCallbacks(WithSupervisorCallbacks(b, v1), v2) == WithSupervisorCallbacks(b, v2)
    ensures forall v1, v2 :: WithRestartStrategy(WithRestartStrategy(b, v1), v2) == WithRestartStrategy(b, v2)
    ensures forall v1, v2 :: WithStrategy(WithStrategy(b, v1), v2) == WithStrategy(b, v2)
    ensures forall v1, v2 :: WithChildrenCallbacks(WithChildrenCallbacks(b, v1), v2) == WithChildrenCallbacks(b, v2)
    ensures forall v1, v2 :: WithDispatcher(WithDispatcher(b, v1), v2) == WithDispatcher(b, v2)
    ensures forall v1, v2 :: WithDistributor(WithDistributor(b, v1), v2) == WithDistributor(b, v2)
    ensures forall v1, v2 :: WithHeartbeatTick(WithHeartbeatTick(b, v1), v2) == WithHeartbeatTick(b, v2)
    ensures forall v1, v2 :: WithName(WithName(b, v1), v2) == WithName(b, v2)
    ensures forall v1, v2 :: WithRedundancy(WithRedundancy(b, v1), v2) == WithRedundancy(b, v2)
    ensures forall v1, v2 :: WithResizer(WithResizer(b, v1), v2) == WithResizer(b, v2)
  {
  }

  /** The supervisor-builder calls `run` makes: one per supervisor knob that is
      set in `b`, in declaration order. */
  function SupervisorKnobCalls(b: Knobs): seq<SupervisorCall>
  {
    (if b.supervisorCallbacks.Some? then [SupervisorWithCallbacks(b.supervisorCallbacks.value)] else [])
    + (if b.restartStrategy.Some? then [SupervisorWithRestartStrategy(b.restartStrategy.value)] else [])
    + (if b.strategy.Some? then [SupervisorWithStrategy(b.strategy.value)] else [])
  }

  // The children-builder call for one children knob of `k`, if it is set.

  function CallbacksCall<S>(k: Knobs): seq<ChildrenCall<S>>
  {
    if k.childrenCallbacks.Some? then [ChildrenWithCallbacks(k.childrenCallbacks.value)] else []
  }

  function DispatcherCall<S>(k: Knobs): seq<ChildrenCall<S>>
  {
    if k.dispatcher.Some? then [ChildrenWithDispatcher(k.dispatcher.value)] else []
  }

  function DistributorCall<S>(k: Knobs): seq<ChildrenCall<S>>
  {
    if k.distributor.Some? then [ChildrenWithDistributor(k.distributor.value)] else []
  }

  function HeartbeatTickCall<S>(k: Knobs): seq<ChildrenCall<S>>
  {
    if k.heartbeatTick.Some? then [ChildrenWithHeartbeatTick(k.heartbeatTick.value)] else []
  }

  function NameCall<S>(k: Knobs): seq<ChildrenCall<S>>
  {
    if k.name.Some? then [ChildrenWithName(k.name.value)] else []
  }

  function RedundancyCall<S>(k: Knobs): seq<ChildrenCall<S>>
  {
    if k.redundancy.Some? then [ChildrenWithRedundancy(k.redundancy.value)] else []
  }

  function ResizerCall<S>(k: Knobs): seq<ChildrenCall<S>>
  {
    if k.resizer.Some? then [ChildrenWithResizer(k.resizer.value)] else []
  }

  /** The children-builder calls for the children knobs set in `k`, in
      declaration order; none of them installs the routine. */
  function ChildrenKnobCalls<S>(k: Knobs): (calls: seq<ChildrenCall<S>>)
    ensures forall c :: c in calls ==> !c.ChildrenWithExec?
  {
    CallbacksCall(k) + DispatcherCall(k) + DistributorCall(k) + HeartbeatTickCall(k)
    + NameCall(k) + RedundancyCall(k) + ResizerCall(k)
  }

  /** Everything `run_with_supervisor` does to the children builder: the
      type's declared knobs, then the builder's, then `A::executor`. */
  function ChildrenGroupCalls<S>(builder: Knobs, declared: Knobs, weak: WeakState<S>): seq<ChildrenCall<S>>
  {
    ChildrenKnobCalls(declared) + ChildrenKnobCalls(builder) + [ChildrenWithExec(Clone(weak))]
  }

  /** `c` with every children knob that `k` sets replaced by `k`'s value. */
  function Overlay<S>(c: ChildrenConfig<S>, k: Knobs): ChildrenConfig<S>
  {
    c.(callbacks := if k.childrenCallbacks.Some? then k.childrenCallbacks else c.callbacks,
       dispatcher := if k.dispatcher.Some? then k.dispatcher else c.dispatcher,
       distributor := if k.distributor.Some? then k.distributor else c.distributor,
       heartbeatTick := if k.heartbeatTick.Some? then k.heartbeatTick else c.heartbeatTick,
       name := if k.name.Some? then k.name else c.name,
       redundancy := if k.redundancy.Some? then k.redundancy else c.redundancy,
       resizer := if k.resizer.Some? then k.resizer else c.resizer)
  }

  /** The precedence rule, knob by knob: the builder's value if it is set,
      otherwise the type's declared value, which may itself be unset. */
  predicate Precedence<S>(c: ChildrenConfig<S>, builder: Knobs, declared: Knobs)
  {
    && c.callbacks == (if builder.childrenCallbacks.Some? then builder.childrenCallbacks else declared.childrenCallbacks)
    && c.dispatcher == (if builder.dispatcher.Some? then builder.dispatcher else declared.dispatcher)
    && c.distributor == (if builder.distributor.Some? then builder.distributor else declared.distributor)
    && c.heartbeatTick == (if builder.heartbeatTick.Some? then builder.heartbeatTick else declared.heartbeatTick)
    && c.name == (if builder.name.Some? then builder.name else declared.name)
    && c.redundancy == (if builder.redundancy.Some? then builder.redundancy else declared.redundancy)
    && c.resizer == (if builder.resizer.Some? then builder.resizer else declared.resizer)
  }

  lemma ConfigureOne<S>(c: ChildrenConfig<S>, call: ChildrenCall<S>)
    ensures ConfigureChildren(c, [call]) == ApplyChildrenCall(c, call)
  {
  }

  /** Configuring with at most one call. */
  lemma ConfigureOptional<S>(c: ChildrenConfig<S>, calls: seq<ChildrenCall<S>>)
    requires |calls| <= 1
    ensures ConfigureChildren(c, calls) == if calls == [] then c else ApplyChildrenCall(c, calls[0])
  {
  }

  /** Applying the calls for a knob set overlays that knob set. */
  lemma ConfigureKnobCalls<S>(c: ChildrenConfig<S>, k: Knobs)
    ensures ConfigureChildren(c, ChildrenKnobCalls(k)) == Overlay(c, k)
  {
    var p1, p2, p3, p4 := CallbacksCall<S>(k), DispatcherCall<S>(k), DistributorCall<S>(k), HeartbeatTickCall<S>(k);
    var p5, p6, p7 := NameCall<S>(k), RedundancyCall<S>(k), ResizerCall<S>(k);
    ConfigureChildrenAppend(c, p1 + p2 + p3 + p4 + p5 + p6, p7);
    ConfigureChildrenAppend(c, p1 + p2 + p3 + p4 + p5, p6);
    ConfigureChildrenAppend(c, p1 + p2 + p3 + p4, p5);
    ConfigureChildrenAppend(c, p1 + p2 + p3, p4);
    ConfigureChildrenAppend(c, p1 + p2, p3);
    ConfigureChildrenAppend(c, p1, p2);
    var c1 := ConfigureChildren(c, p1);
    ConfigureOptional(c, p1);
    var c2 := ConfigureChildren(c1, p2);
    ConfigureOptional(c1, p2);
    var c3 := ConfigureChildren(c2, p3);
    ConfigureOptional(c2, p3);
    var c4 := ConfigureChildren(c3, p4);
    ConfigureOptional(c3, p4);
    var c5 := ConfigureChildren(c4, p5);
    ConfigureOptional(c4, p5);
    var c6 := ConfigureChildren(c5, p6);
    ConfigureOptional(c5, p6);
    ConfigureOptional(c6, p7);
  }

  /** The children group `run_with_supervisor` configures obeys the precedence
      rule on every children knob, and runs the routine over the caller's state. */
  lemma ChildrenGroupPrecedence<S>(builder: Knobs, declared: Knobs, weak: WeakState<S>)
    ensures Precedence(ConfigureChildren(UnsetChildren(), ChildrenGroupCalls(builder, declared, weak)), builder, declared)
    ensures ConfigureChildren(UnsetChildren(), ChildrenGroupCalls(builder, declared, weak)).exec == Some(Clone(weak))
  {
    var a: seq<ChildrenCall<S>> := ChildrenKnobCalls(declared);
    var b: seq<ChildrenCall<S>> := ChildrenKnobCalls(builder);
    var unset: ChildrenConfig<S> := UnsetChildren();
    ConfigureChildrenAppend(unset, a + b, [ChildrenWithExec(Clone(weak))]);
    ConfigureChildrenAppend(unset, a, b);
    ConfigureKnobCalls(unset, declared);
    ConfigureKnobCalls(Overlay(unset, declared), builder);
    ConfigureOne(Overlay(Overlay(unset, declared), builder), ChildrenWithExec(Clone(weak)));
  }

  /** The routine is installed exactly once, by the last call. */
  lemma ChildrenGroupExecLast<S>(builder: Knobs, declared: Knobs, weak: WeakState<S>)
    ensures var calls := ChildrenGroupCalls(builder, declared, weak);
            |calls| > 0 && calls[|calls| - 1] == ChildrenWithExec(Clone(weak)) &&
            forall c :: c in calls[..|calls| - 1] ==> !c.ChildrenWithExec?
  {
    var a: seq<ChildrenCall<S>> := ChildrenKnobCalls(declared);
    var b: seq<ChildrenCall<S>> := ChildrenKnobCalls(builder);
    var calls := a + b + [ChildrenWithExec(Clone(weak))];
    assert calls[..|calls| - 1] == a + b;
  }

  /** The supervisor `run` configures has exactly the builder's three supervisor knobs. */
  lemma SupervisorFromBuilder(builder: Knobs)
    ensures ConfigureSupervisor(UnsetSupervisor(), SupervisorKnobCalls(builder))
            == SupervisorConfig(builder.supervisorCallbacks, builder.restartStrategy, builder.strategy)
  {
    var p1 := if builder.supervisorCallbacks.Some? then [SupervisorWithCallbacks(builder.supervisorCallbacks.value)] else [];
    var p2 := if builder.restartStrategy.Some? then [SupervisorWithRestartStrategy(builder.restartStrategy.value)] else [];
    var p3 := if builder.strategy.Some? then [SupervisorWithStrategy(builder.strategy.value)] else [];
    ConfigureSupervisorAppend(UnsetSupervisor(), p1 + p2, p3);
    ConfigureSupervisorAppend(UnsetSupervisor(), p1, p2);
    var c1 := ConfigureSupervisor(UnsetSupervisor(), p1);
    var c2 := ConfigureSupervisor(c1, p2);
    if builder.supervisorCallbacks.Some? { assert p1[1..] == []; }
    if builder.restartStrategy.Some? { assert p2[1..] == []; }
    if builder.strategy.Some? { assert p3[1..] == []; }
  }

  /** The children group does not depend on the type's declared supervisor knobs. */
  lemma ChildrenGroupIgnoresDeclaredSupervisorKnobs<S>(
    builder: Knobs, declared: Knobs, weak: WeakState<S>,
    callbacks: Option<Callbacks>, restartStrategy: Option<RestartStrategy>, strategy: Option<SupervisionStrategy>)
    ensures ChildrenGroupCalls(builder, declared, weak)
            == ChildrenGroupCalls(builder, declared.(supervisorCallbacks := callbacks, restartStrategy := restartStrategy, strategy := strategy), weak)
  {
  }

  /** `ChildrenKnobCalls` appended to earlier calls, one knob at a time. */
  lemma AppendKnobCalls<S>(children: seq<ChildrenCall<S>>, k: Knobs)
    ensures children + ChildrenKnobCalls(k)
            == children + CallbacksCall(k) + DispatcherCall(k) + DistributorCall(k) + HeartbeatTickCall(k)
               + NameCall(k) + RedundancyCall(k) + ResizerCall(k)
  {
    var p1, p2, p3, p4 := CallbacksCall<S>(k), DispatcherCall<S>(k), DistributorCall<S>(k), HeartbeatTickCall<S>(k);
    var p5, p6, p7 := NameCall<S>(k), RedundancyCall<S>(k), ResizerCall<S>(k);
    assert children + (p1 + p2 + p3 + p4 + p5 + p6 + p7) == children + (p1 + p2 + p3 + p4 + p5 + p6) + p7;
    assert children + (p1 + p2 + p3 + p4 + p5 + p6) == children + (p1 + p2 + p3 + p4 + p5) + p6;
    assert children + (p1 + p2 + p3 + p4 + p5) == children + (p1 + p2 + p3 + p4) + p5;
    assert children + (p1 + p2 + p3 + p4) == children + (p1 + p2 + p3) + p4;
    assert children + (p1 + p2 + p3) == children + (p1 + p2) + p3;
    assert children + (p1 + p2) == children + p1 + p2;
  }

  /** One block of seven conditional updates of `run_with_supervisor`: each
      children knob that `k` sets is passed on to the children builder. */
  method ApplyChildrenKnobs<S>(children: seq<ChildrenCall<S>>, k: Knobs) returns (r: seq<ChildrenCall<S>>)
    ensures r == children + ChildrenKnobCalls(k)
  {
    AppendKnobCalls(children, k);
    r := children;
    if k.childrenCallbacks.Some? { r := r + [ChildrenWithCallbacks(k.childrenCallbacks.value)]; }
    ghost var r1 := r;
    assert r1 == children + CallbacksCall(k);
    if k.dispatcher.Some? { r := r + [ChildrenWithDispatcher(k.dispatcher.value)]; }
    ghost var r2 := r;
    assert r2 == r1 + DispatcherCall(k);
    if k.distributor.Some? { r := r + [ChildrenWithDistributor(k.distributor.value)]; }
    ghost var r3 := r;
    assert r3 == r2 + DistributorCall(k);
    if k.heartbeatTick.Some? { r := r + [ChildrenWithHeartbeatTick(k.heartbeatTick.value)]; }
    ghost var r4 := r;
    assert r4 == r3 + HeartbeatTickCall(k);
    if k.name.Some? { r := r + [ChildrenWithName(k.name.value)]; }
    ghost var r5 := r;
    assert r5 == r4 + NameCall(k);
    if k.redundancy.Some? { r := r + [ChildrenWithRedundancy(k.redundancy.value)]; }
    ghost var r6 := r;
    assert r6 == r5 + RedundancyCall(k);
    if k.resizer.Some? { r := r + [ChildrenWithResizer(k.resizer.value)]; }
    assert r == r6 + ResizerCall(k);
  }

  /** `run_with_supervisor`: configure one children group under `supervisor`,
      applying first the type's declared children knobs and then the builder's,
      and last `A::executor`; the runtime may refuse the group. */
  method RunWithSupervisor<S>(builder: Knobs, declared: Knobs, supervisor: SupervisorRef, weak: WeakState<S>,
                              childrenAccepted: bool)
    returns (children: seq<ChildrenCall<S>>, r: Result<ActorHandle, ActorError>)
    ensures children == ChildrenGroupCalls(builder, declared, weak)
    ensures Precedence(ConfigureChildren(UnsetChildren(), children), builder, declared)
    ensures |children| > 0 && children[|children| - 1] == ChildrenWithExec(Clone(weak))
    ensures forall c :: c in children[..|children| - 1] ==> !c.ChildrenWithExec?
    ensures r == if childrenAccepted then Ok(ActorHandle(supervisor)) else Err(UnableToInitChildren)
  {
    children := ApplyChildrenKnobs([], declared);
    assert children == ChildrenKnobCalls(declared);
    children := ApplyChildrenKnobs(children, builder);

    // A::executor
    children := children + [ChildrenWithExec(Clone(weak))];
    ChildrenGroupPrecedence(builder, declared, weak);
    ChildrenGroupExecLast(builder, declared, weak);

    if !childrenAccepted {
      r := Err(UnableToInitChildren);
    } else {
      r := Ok(ActorHandle(supervisor));
    }
  }

  /** `run`: configure a new supervisor from the builder's own supervisor knobs
      only (the type's declared supervisor knobs are never read), then, if the
      runtime accepts the supervisor, continue as `run_with_supervisor` on it. */
  method Run<S>(builder: Knobs, declared: Knobs, weak: WeakState<S>,
                supervisorAccepted: bool, supervisorId: nat, childrenAccepted: bool)
    returns (sp: seq<SupervisorCall>, children: Option<seq<ChildrenCall<S>>>, r: Result<ActorHandle, ActorError>)
    ensures sp == SupervisorKnobCalls(builder)
    ensures ConfigureSupervisor(UnsetSupervisor(), sp)
            == SupervisorConfig(builder.supervisorCallbacks, builder.restartStrategy, builder.strategy)
    ensures !supervisorAccepted ==> children == None && r == Err(UnableToInitSupervisor)
    ensures supervisorAccepted ==> children == Some(ChildrenGroupCalls(builder, declared, weak))
    ensures supervisorAccepted ==>
              r == if childrenAccepted then Ok(ActorHandle(SupervisorRef(supervisorId))) else Err(UnableToInitChildren)
  {
    sp := [];
    if builder.supervisorCallbacks.Some? { sp := sp + [SupervisorWithCallbacks(builder.supervisorCallbacks.value)]; }
    if builder.restartStrategy.Some? { sp := sp + [SupervisorWithRestartStrategy(builder.restartStrategy.value)]; }
    if builder.strategy.Some? { sp := sp + [SupervisorWithStrategy(builder.strategy.value)]; }
    assert sp == SupervisorKnobCalls(builder);
    SupervisorFromBuilder(builder);

    if !supervisorAccepted {
      children := None;
      r := Err(UnableToInitSupervisor);
      return;
    }
    var group;
    group, r := RunWithSupervisor(builder, declared, SupervisorRef(supervisorId), weak, childrenAccepted);
    children := Some(group);
  }
}
