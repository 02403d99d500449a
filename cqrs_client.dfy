/** The command/event client actor (src/actors/client.rs): its message loop
    over the shared `ClientState`, its declared configuration and its
    lifecycle calls.

    The runtime's mailbox is the finite sequence `inbox` of messages received
    before the child is stopped; what the loop hands to the runtime (the event
    batches it sends) is returned as `sent`. Each iteration runs to completion
    before the next message is received. */
module CqrsClientActor {
  import opened Wrappers
  import opened Errors
  import opened ClientEvents
  import opened ClientAggregate
  import opened ActorState
  import opened Bastion
  import opened Actors

  /** The address the actor registers under and sends its event batches to. */
  const ClientAddress: string := "client"

  /** A received message, by the shape the handler chain tests for. */
  datatype Message =
    | TellCommand(command: ClientCommand)    // a tell carrying a `ClientCommand`
    | TellEvents(events: seq<ClientEvent>)   // a tell carrying a `Vec<ClientEvent>`
    | Ask(question: string)                  // a request: no handler, so the fallback
    | TellOther(payload: string)             // a tell of any other type: the fallback

  /** A batch handed to `Distributor::named(..).tell_one`. */
  datatype Sent = Sent(target: Distributor, events: seq<ClientEvent>)

  /** The state after some messages, and the batches sent meanwhile. */
  datatype Outcome = Outcome(state: ClientState, sent: seq<Sent>)

  /** How the processing routine ends: the upgrade of its weak state handle
      panicked, or receiving failed because the child was stopped. */
  datatype Exit = UpgradeFailed(message: string) | ReceiveEnded

  /** One iteration of the loop on the state `s`. */
  function Receive(s: ClientState, m: Message): (r: Outcome)
    ensures m.TellEvents? ==> r == Outcome(ApplyAll(s, m.events), [])
    ensures !m.TellEvents? ==> r.state == s
    ensures |r.sent| == (if m.TellCommand? then 1 else 0)
    ensures m.TellCommand? ==> r.sent[0] == Sent(Named("client"), Handle(s, m.command).value)
  {
    match m
    case TellCommand(cmd) => Outcome(s, [Sent(Named(ClientAddress), Handle(s, cmd).value)])
    case TellEvents(events) => Outcome(ApplyAll(s, events), [])
    case Ask(_) => Outcome(s, [])
    case TellOther(_) => Outcome(s, [])
  }

  /** The loop over the messages `inbox`, in receipt order. */
  function RunLoop(s: ClientState, inbox: seq<Message>): (r: Outcome)
    ensures |r.sent| <= |inbox|
    ensures (forall i :: 0 <= i < |inbox| ==> !inbox[i].TellEvents?) ==> r.state == s
    ensures forall k :: 0 <= k < |r.sent| ==> r.sent[k].target == Named("client")
    decreases |inbox|
  {
    if inbox == [] then Outcome(s, [])
    else
      var before := RunLoop(s, inbox[..|inbox| - 1]);
      var last := Receive(before.state, inbox[|inbox| - 1]);
      Outcome(last.state, before.sent + last.sent)
  }

  /** The commands among `inbox`, in receipt order. */
  function CommandsOf(inbox: seq<Message>): seq<ClientCommand>
    decreases |inbox|
  {
    if inbox == [] then []
    else
      var m := inbox[|inbox| - 1];
      CommandsOf(inbox[..|inbox| - 1]) + (if m.TellCommand? then [m.command] else [])
  }

  /** The batches the commands `cmds` yield when each is decided against `s`. */
  function BatchesAgainst(s: ClientState, cmds: seq<ClientCommand>): seq<Sent>
    decreases |cmds|
  {
    if cmds == [] then []
    else BatchesAgainst(s, cmds[..|cmds| - 1]) + [Sent(Named(ClientAddress), Handle(s, cmds[|cmds| - 1]).value)]
  }

  /** A command is decided against the current state, which it leaves as it
      is; `Add(msgs)` sends the single event carrying the old log followed by
      `msgs`, as one batch to "client". */
  lemma ReceiveAddCommand(s: ClientState, msgs: seq<string>)
    ensures Receive(s, TellCommand(Add(msgs))) == Outcome(s, [Sent(Named("client"), [MessagesAdded(s.messages + msgs)])])
  {
  }

  /** `Panic` sends the single event `Paniced` and leaves the state as it is. */
  lemma ReceivePanicCommand(s: ClientState)
    ensures Receive(s, TellCommand(Panic)) == Outcome(s, [Sent(Named("client"), [Paniced])])
  {
  }

  /** An event batch is applied one event at a time, in list order, and sends nothing. */
  lemma ReceiveEvents(s: ClientState, events: seq<ClientEvent>)
    ensures Receive(s, TellEvents(events)) == Outcome(ApplyAll(s, events), [])
  {
  }

  /** A message no handler accepts changes nothing and sends nothing. */
  lemma ReceiveUnknown(s: ClientState, text: string)
    ensures Receive(s, Ask(text)) == Outcome(s, [])
    ensures Receive(s, TellOther(text)) == Outcome(s, [])
  {
  }

  /** A command `Add(msgs)` followed by the batch it sent leaves the old log
      followed by `msgs`. */
  lemma AddThenOwnBatch(s: ClientState, msgs: seq<string>)
    ensures var o := RunLoop(s, [TellCommand(Add(msgs))]);
            |o.sent| == 1 &&
            RunLoop(s, [TellCommand(Add(msgs)), TellEvents(o.sent[0].events)]).state.messages == s.messages + msgs
  {
  }

  /** Until an event batch arrives the state does not change: every command
      is decided against the same state, and their batches are sent in
      receipt order. */
  lemma {:induction false} CommandsSeeSameState(s: ClientState, inbox: seq<Message>)
    requires forall i :: 0 <= i < |inbox| ==> !inbox[i].TellEvents?
    ensures RunLoop(s, inbox) == Outcome(s, BatchesAgainst(s, CommandsOf(inbox)))
    decreases |inbox|
  {
    if inbox != [] {
      var prefix := inbox[..|inbox| - 1];
      var m := inbox[|inbox| - 1];
      CommandsSeeSameState(s, prefix);
      var cmds := CommandsOf(prefix);
      if m.TellCommand? {
        assert (cmds + [m.command])[..|cmds|] == cmds;
      } else {
        assert cmds + [] == cmds;
      }
    }
  }

  /** Two `Add` commands received before either batch is applied: both are
      decided against the empty log, so once both batches are applied only
      the second command's messages remain. */
  lemma BackToBackAddsKeepOnlyLast()
    ensures RunLoop(DefaultState(), [TellCommand(Add(["hello"])), TellCommand(Add(["world"]))]).sent
            == [Sent(Named("client"), [MessagesAdded(["hello"])]), Sent(Named("client"), [MessagesAdded(["world"])])]
    ensures RunLoop(DefaultState(), [TellCommand(Add(["hello"])), TellCommand(Add(["world"])),
                                     TellEvents([MessagesAdded(["hello"])]), TellEvents([MessagesAdded(["world"])])]).state.messages
            == ["world"]
  {
    var c1, c2 := TellCommand(Add(["hello"])), TellCommand(Add(["world"]));
    var e1, e2 := TellEvents([MessagesAdded(["hello"])]), TellEvents([MessagesAdded(["world"])]);
    var s0 := DefaultState();
    assert [] + ["hello"] == ["hello"] && [] + ["world"] == ["world"];
    assert [c1, c2][..1] == [c1];
    assert [c1][..0] == [];
    assert CommandsOf([c1]) == [] + [Add(["hello"])];
    CommandsSeeSameState(s0, [c1, c2]);
    assert CommandsOf([c1, c2]) == [Add(["hello"]), Add(["world"])];
    assert [Add(["hello"]), Add(["world"])][..1] == [Add(["hello"])];
    assert [Add(["hello"])][..0] == [];
    assert [c1, c2, e1, e2][..3] == [c1, c2, e1];
    assert [c1, c2, e1][..2] == [c1, c2];
    assert [MessagesAdded(["world"])][..0] == [];
  }

  /** The event branch: apply the batch to the shared state in place, one event at a time. */
  method ApplyEvents(cell: Cell<ClientState>, events: seq<ClientEvent>)
    modifies cell`value
    ensures cell.value == ApplyAll(old(cell.value), events)
  {
    for i := 0 to |events|
      invariant cell.value == ApplyAll(old(cell.value), events[..i])
    {
      assert events[..i + 1][..i] == events[..i];
      cell.value := Apply(cell.value, events[i]);
    }
    assert events[..|events|] == events;
  }

  /** The processing routine that `executor` installs: upgrade the weak handle
      (panicking if the owner is gone), then handle each received message in
      turn until receiving fails. */
  method Exec(weak: WeakState<ClientState>, inbox: seq<Message>) returns (exit: Exit, sent: seq<Sent>)
    modifies weak.cell`value
    ensures !weak.cell.alive ==>
              exit == UpgradeFailed("Upgrade state failed!") && sent == [] && weak.cell.value == old(weak.cell.value)
    ensures weak.cell.alive ==>
              exit == ReceiveEnded && Outcome(weak.cell.value, sent) == RunLoop(old(weak.cell.value), inbox)
  {
    var upgraded := Upgrade(weak);
    if upgraded.UpgradePanic? {
      return UpgradeFailed(upgraded.message), [];
    }
    var state := upgraded.state;
    sent := [];
    var i := 0;
    while i < |inbox|
      invariant 0 <= i <= |inbox|
      invariant state.cell == weak.cell
      invariant Outcome(state.cell.value, sent) == RunLoop(old(weak.cell.value), inbox[..i])
    {
      assert inbox[..i + 1][..i] == inbox[..i];
      match inbox[i] {
        case TellCommand(cmd) =>
          var read := state.cell.value;
          var events := Handle(read, cmd).value;
          sent := sent + [Sent(Named(ClientAddress), events)];
        case TellEvents(events) =>
          ApplyEvents(state.cell, events);
        case Ask(_) =>
        case TellOther(_) =>
      }
      i := i + 1;
    }
    assert inbox[..|inbox|] == inbox;
    exit := ReceiveEnded;
  }

  /** The configuration this actor type declares: only the distributor
      "client" is set. */
  function Declared(): (k: Knobs)
    ensures k.distributor == Some(Named("client"))
    ensures forall n :: n != DistributorKnob ==> !IsSet(k, n)
  {
    Actors.Default().(distributor := Some(Named(ClientAddress)))
  }

  /** `TActor::default`: the builder with no knob set. */
  function DefaultBuilder(): (b: Knobs)
    ensures forall n :: !IsSet(b, n)
  {
    Actors.Default()
  }

  /** Started from its default builder, the actor's children group is
      addressed as "client" and has no other knob set. */
  lemma DefaultRunChildren(weak: WeakState<ClientState>)
    ensures ConfigureChildren(UnsetChildren(), ChildrenGroupCalls(DefaultBuilder(), Declared(), weak))
            == UnsetChildren().(distributor := Some(Named("client")), exec := Some(Clone(weak)))
  {
    ChildrenGroupPrecedence(DefaultBuilder(), Declared(), weak);
  }

  /** A distributor given to the builder replaces the declared "client". */
  lemma BuilderDistributorOverrides(weak: WeakState<ClientState>, d: Distributor)
    ensures ConfigureChildren(UnsetChildren(), ChildrenGroupCalls(WithDistributor(DefaultBuilder(), d), Declared(), weak)).distributor
            == Some(d)
  {
    ChildrenGroupPrecedence(WithDistributor(DefaultBuilder(), d), Declared(), weak);
  }

  /** `stop`: a runtime rejection becomes `StopError`, otherwise `Ok`. */
  function Stop(actor: ActorHandle, runtimeAccepts: bool): (r: Result<(), ActorError>)
    ensures r.Ok? <==> runtimeAccepts
    ensures r.Err? ==> r.error == StopError
  {
    if runtimeAccepts then Ok(()) else Err(StopError)
  }

  /** `kill`: a runtime rejection becomes `KillError`, otherwise `Ok`. */
  function Kill(actor: ActorHandle, runtimeAccepts: bool): (r: Result<(), ActorError>)
    ensures r.Ok? <==> runtimeAccepts
    ensures r.Err? ==> r.error == KillError
  {
    if runtimeAccepts then Ok(()) else Err(KillError)
  }
}
