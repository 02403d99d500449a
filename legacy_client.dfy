/** The earlier client actor (src/client.rs), which keeps its message log
    without commands or events: a tell appends one string in place and a
    request is answered with a copy of the log.

    The mailbox is the finite sequence `inbox` of messages received before
    the child is stopped; the replies the loop attempts are returned, each
    with whether the asking party was still there to receive it. */
module LegacyClientActor {
  import opened Wrappers
  import opened Errors
  import opened ActorState
  import opened Bastion
  import opened Actors

  /** The address the actor registers under. */
  const ClientAddress: string := "client"

  /** `ClientState` of this actor: the ordered message log. */
  datatype ClientState = ClientState(messages: seq<string>)

  /** `ClientState::default()` (derived `Default`): the empty log. */
  function DefaultState(): (s: ClientState)
    ensures s.messages == []
  {
    ClientState([])
  }

  /** A received message, by the shape the handler chain tests for. */
  datatype Message =
    | TellAdd(text: string)               // `TellClient::Add`
    | AskMessages(askerWaiting: bool)     // `AskClient::Messages`; whether the reply can be delivered
    | Other(payload: string)              // anything else: the fallback

  /** A reply sent to an `AskMessages` request. */
  datatype Reply = Reply(messages: seq<string>, delivered: bool)

  /** The state after some messages, and the replies sent meanwhile. */
  datatype Outcome = Outcome(state: ClientState, replies: seq<Reply>)

  /** How the processing routine ends: the upgrade of its weak state handle
      panicked, or receiving failed because the child was stopped. */
  datatype Exit = UpgradeFailed(message: string) | ReceiveEnded

  /** One iteration of the loop on the state `s`. */
  function Receive(s: ClientState, m: Message): (r: Outcome)
    ensures r.state.messages == s.messages + (if m.TellAdd? then [m.text] else [])
    ensures r.replies == (if m.AskMessages? then [Reply(s.messages, m.askerWaiting)] else [])
  {
    match m
    case TellAdd(text) => Outcome(s.(messages := s.messages + [text]), [])
    case AskMessages(waiting) => Outcome(s, [Reply(s.messages, waiting)])
    case Other(_) => Outcome(s, [])
  }

  /** The loop over the messages `inbox`, in receipt order. */
  function RunLoop(s: ClientState, inbox: seq<Message>): (r: Outcome)
    ensures s.messages <= r.state.messages
    ensures |r.replies| <= |inbox|
    ensures forall k :: 0 <= k < |r.replies| ==> s.messages <= r.replies[k].messages <= r.state.messages
    decreases |inbox|
  {
    if inbox == [] then Outcome(s, [])
    else
      var before := RunLoop(s, inbox[..|inbox| - 1]);
      var last := Receive(before.state, inbox[|inbox| - 1]);
      Outcome(last.state, before.replies + last.replies)
  }

  /** The strings carried by the `TellAdd` messages of `inbox`, in receipt order. */
  function AddedTexts(inbox: seq<Message>): seq<string>
    decreases |inbox|
  {
    if inbox == [] then []
    else
      var m := inbox[|inbox| - 1];
      AddedTexts(inbox[..|inbox| - 1]) + (if m.TellAdd? then [m.text] else [])
  }

  /** `Add(text)` appends exactly `text` at the end; earlier entries stay as they were. */
  lemma ReceiveAddAppends(s: ClientState, text: string)
    ensures Receive(s, TellAdd(text)).state.messages == s.messages + [text]
    ensures Receive(s, TellAdd(text)).replies == []
  {
  }

  /** `Messages` replies with the current log and leaves the state unchanged,
      whether or not the reply is delivered. */
  lemma ReceiveAskReplies(s: ClientState, waiting: bool)
    ensures Receive(s, AskMessages(waiting)) == Outcome(s, [Reply(s.messages, waiting)])
  {
  }

  /** Any other message changes nothing and sends nothing. */
  lemma ReceiveOther(s: ClientState, payload: string)
    ensures Receive(s, Other(payload)) == Outcome(s, [])
  {
  }

  /** After any mailbox, the log is the old log followed by the added strings
      in receipt order. */
  lemma {:induction false} RunAppendsAdded(s: ClientState, inbox: seq<Message>)
    ensures RunLoop(s, inbox).state.messages == s.messages + AddedTexts(inbox)
    decreases |inbox|
  {
    if inbox != [] {
      RunAppendsAdded(s, inbox[..|inbox| - 1]);
    }
  }

  /** Every reply is a snapshot of the log at some point: it extends the
      initial log and is a prefix of the final one. */
  lemma {:induction false} RepliesAreSnapshots(s: ClientState, inbox: seq<Message>)
    ensures forall k :: 0 <= k < |RunLoop(s, inbox).replies| ==>
              s.messages <= RunLoop(s, inbox).replies[k].messages <= RunLoop(s, inbox).state.messages
    decreases |inbox|
  {
    if inbox != [] {
      var prefix := inbox[..|inbox| - 1];
      RepliesAreSnapshots(s, prefix);
      RunAppendsAdded(s, prefix);
      var before := RunLoop(s, prefix);
      var after := RunLoop(s, inbox);
      assert before.state.messages <= after.state.messages;
      forall k | 0 <= k < |after.replies|
        ensures s.messages <= after.replies[k].messages <= after.state.messages
      {
        if k < |before.replies| {
          assert after.replies[k] == before.replies[k];
        }
      }
    }
  }

  /** The start-up sequence of the program: one `Add("Hello, I am Tuong")`,
      then `Messages`, answers `["Hello, I am Tuong"]`. */
  lemma HelloScenario()
    ensures RunLoop(DefaultState(), [TellAdd("Hello, I am Tuong"), AskMessages(true)]).replies
            == [Reply(["Hello, I am Tuong"], true)]
  {
    var inbox := [TellAdd("Hello, I am Tuong"), AskMessages(true)];
    assert inbox[..1] == [TellAdd("Hello, I am Tuong")];
    assert inbox[..1][..0] == [];
    assert [] + ["Hello, I am Tuong"] == ["Hello, I am Tuong"];
  }

  /** The processing routine that `executor` installs: upgrade the weak handle
      (panicking if the owner is gone), then handle each received message in
      turn until receiving fails. */
  method Exec(weak: WeakState<ClientState>, inbox: seq<Message>) returns (exit: Exit, replies: seq<Reply>)
    modifies weak.cell`value
    ensures !weak.cell.alive ==>
              exit == UpgradeFailed("Upgrade state failed!") && replies == [] && weak.cell.value == old(weak.cell.value)
    ensures weak.cell.alive ==>
              exit == ReceiveEnded && Outcome(weak.cell.value, replies) == RunLoop(old(weak.cell.value), inbox)
  {
    var upgraded := Upgrade(weak);
    if upgraded.UpgradePanic? {
      return UpgradeFailed(upgraded.message), [];
    }
    var state := upgraded.state;
    replies := [];
    var i := 0;
    while i < |inbox|
      invariant 0 <= i <= |inbox|
      invariant state.cell == weak.cell
      invariant Outcome(state.cell.value, replies) == RunLoop(old(weak.cell.value), inbox[..i])
    {
      assert inbox[..i + 1][..i] == inbox[..i];
      match inbox[i] {
        case TellAdd(text) =>
          state.cell.value := state.cell.value.(messages := state.cell.value.messages + [text]);
        case AskMessages(waiting) =>
          var read := state.cell.value;
          replies := replies + [Reply(read.messages, waiting)];
        case Other(_) =>
      }
      i := i + 1;
    }
    assert inbox[..|inbox|] == inbox;
    exit := ReceiveEnded;
  }

  /** The configuration this actor type declares: only the distributor
      "client" is set. */
  function Declared(): (k: Knobs)
    ensures k.distributor == Some(Named("client"))
    ensures forall n :: n != DistributorKnob ==> !IsSet(k, n)
  {
    Actors.Default().(distributor := Some(Named(ClientAddress)))
  }

  /** `TActor::default`: the builder with no knob set. */
  function DefaultBuilder(): (b: Knobs)
    ensures forall n :: !IsSet(b, n)
  {
    Actors.Default()
  }

  /** Started from its default builder, as the program does, the actor's
      children group is addressed as "client" and has no other knob set. */
  lemma DefaultRunChildren(weak: WeakState<ClientState>)
    ensures ConfigureChildren(UnsetChildren(), ChildrenGroupCalls(DefaultBuilder(), Declared(), weak))
            == UnsetChildren().(distributor := Some(Named("client")), exec := Some(Clone(weak)))
  {
    ChildrenGroupPrecedence(DefaultBuilder(), Declared(), weak);
  }

  /** `stop`: a runtime rejection becomes `StopError`, otherwise `Ok`. */
  function Stop(actor: ActorHandle, runtimeAccepts: bool): (r: Result<(), ActorError>)
    ensures r.Ok? <==> runtimeAccepts
    ensures r.Err? ==> r.error == StopError
  {
    if runtimeAccepts then Ok(()) else Err(StopError)
  }

  /** `kill`: a runtime rejection becomes `KillError`, otherwise `Ok`. */
  function Kill(actor: ActorHandle, runtimeAccepts: bool): (r: Result<(), ActorError>)
    ensures r.Ok? <==> runtimeAccepts
    ensures r.Err? ==> r.error == KillError
  {
    if runtimeAccepts then Ok(()) else Err(KillError)
  }
}
