/** The client message-log aggregate (src/aggregates/client/aggregate.rs):
    a command is decided against the current state into events, and events
    are later applied to the state. */
module ClientAggregate {
  import opened Wrappers
  import opened ClientEvents

  /** `ClientCommand`: append messages to the log, or the no-op `Panic`. */
  datatype ClientCommand = Add(msgs: seq<string>) | Panic

  /** `ClientError`, the aggregate's domain error. Its variants are not part of
      this model; `Handle` never produces one. */
  datatype ClientError = ClientError(reason: string)

  /** `ClientState`: the ordered message log. */
  datatype ClientState = ClientState(messages: seq<string>)

  /** `ClientState::default()` (derived `Default`): the empty log. */
  function DefaultState(): (s: ClientState)
    ensures s.messages == []
  {
    ClientState([])
  }

  /** `Aggregate::aggregate_type`. */
  function AggregateType(): (name: string)
    ensures name == "client"
  {
    "client"
  }

  /** The concatenation that `into_iter().flatten().collect()` performs on a
      vector of vectors. */
  function Flatten(xss: seq<seq<string>>): (r: seq<string>)
    ensures xss == [] ==> r == []
    ensures xss != [] ==> xss[0] <= r
    ensures forall x :: x in r ==> exists i :: 0 <= i < |xss| && x in xss[i]
  {
    if xss == [] then [] else xss[0] + Flatten(xss[1..])
  }

  /** Flattening a pair is concatenation in order. */
  lemma {:induction false} FlattenPair(a: seq<string>, b: seq<string>)
    ensures Flatten([a, b]) == a + b
  {
    assert [a, b][1..] == [b];
    assert [b][1..] == [];
    calc {
      Flatten([a, b]);
      a + Flatten([b]);
      a + (b + Flatten([]));
    }
  }

  /** `Aggregate::handle`: decide a command against the state. It reads the
      state only (it takes `&self`) and never fails: `Add(msgs)` yields the one
      event carrying the old log followed by `msgs`, `Panic` yields `Paniced`. */
  function Handle(s: ClientState, cmd: ClientCommand): (r: Result<seq<ClientEvent>, ClientError>)
    ensures r.Ok?
    ensures cmd.Add? ==> r.value == [MessagesAdded(s.messages + cmd.msgs)]
    ensures cmd.Panic? ==> r.value == [Paniced]
  {
    match cmd
    case Add(msgs) =>
      FlattenPair(s.messages, msgs);
      Ok([MessagesAdded(Flatten([s.messages, msgs]))])
    case Panic => Ok([Paniced])
  }

  /** `Aggregate::apply`: the state after one event. `apply` overwrites
      `self.messages` in place; here the new state is returned. */
  function Apply(s: ClientState, e: ClientEvent): (r: ClientState)
    ensures e.MessagesAdded? ==> r.messages == e.msgs
    ensures e.Paniced? ==> r == s
  {
    match e
    case MessagesAdded(msgs) => s.(messages := msgs)
    case Paniced => s
  }

  /** The state after applying `events` one at a time, in list order. */
  function ApplyAll(s: ClientState, events: seq<ClientEvent>): (r: ClientState)
    ensures r == s || exists i :: 0 <= i < |events| && events[i].MessagesAdded? && r.messages == events[i].msgs
    decreases |events|
  {
    if events == [] then s
    else Apply(ApplyAll(s, events[..|events| - 1]), events[|events| - 1])
  }

  /** `MessagesAdded(l)` replaces the log by `l`; it does not append. */
  lemma ApplyReplaces(s: ClientState, l: seq<string>)
    ensures Apply(s, MessagesAdded(l)).messages == l
  {
  }

  /** `Paniced` leaves the state as it was. */
  lemma ApplyPanicedUnchanged(s: ClientState)
    ensures Apply(s, Paniced) == s
  {
  }

  /** Re-applying an event gives the state of applying it once. */
  lemma ApplyIdempotent(s: ClientState, e: ClientEvent)
    ensures Apply(Apply(s, e), e) == Apply(s, e)
  {
  }

  /** Applying a batch is applying its parts in order. */
  lemma {:induction false} ApplyAllAppend(s: ClientState, a: seq<ClientEvent>, b: seq<ClientEvent>)
    ensures ApplyAll(s, a + b) == ApplyAll(ApplyAll(s, a), b)
    decreases |b|
  {
    if b == [] {
      assert a + b == a;
    } else {
      var b' := b[..|b| - 1];
      assert (a + b)[..|a + b| - 1] == a + b';
      assert (a + b)[|a + b| - 1] == b[|b| - 1];
      ApplyAllAppend(s, a, b');
    }
  }

  /** The result of a batch, independently of the fold: a batch without
      `MessagesAdded` leaves the state unchanged, and otherwise the log is the
      payload of the last `MessagesAdded` in the batch. */
  lemma {:induction false} ApplyAllLastAdded(s: ClientState, events: seq<ClientEvent>)
    ensures (forall i :: 0 <= i < |events| ==> events[i].Paniced?) ==> ApplyAll(s, events) == s
    ensures forall i :: 0 <= i < |events| && events[i].MessagesAdded? &&
                        (forall j :: i < j < |events| ==> events[j].Paniced?) ==>
                        ApplyAll(s, events).messages == events[i].msgs
    decreases |events|
  {
    if events != [] {
      var n := |events| - 1;
      var prefix := events[..n];
      assert ApplyAll(s, events) == Apply(ApplyAll(s, prefix), events[n]);
      if events[n].Paniced? {
        ApplyAllLastAdded(s, prefix);
        assert forall i :: 0 <= i < n ==> prefix[i] == events[i];
      }
    }
  }

  /** Handling `Add(msgs)` and applying every event it yields leaves the old
      log followed by `msgs`. */
  lemma HandleAddThenApply(s: ClientState, msgs: seq<string>)
    ensures ApplyAll(s, Handle(s, Add(msgs)).value).messages == s.messages + msgs
  {
  }

  /** Handling `Panic` and applying what it yields leaves the state unchanged. */
  lemma HandlePanicThenApply(s: ClientState)
    ensures ApplyAll(s, Handle(s, Panic).value) == s
  {
  }

  /** From the empty log, `Add(["hello"])` yields one event carrying
      `["hello"]`, and applying it gives the log `["hello"]`. */
  lemma ScenarioFirstAdd()
    ensures Handle(DefaultState(), Add(["hello"])) == Ok([MessagesAdded(["hello"])])
    ensures ApplyAll(DefaultState(), [MessagesAdded(["hello"])]).messages == ["hello"]
  {
    assert [] + ["hello"] == ["hello"];
    HandleAddThenApply(DefaultState(), ["hello"]);
  }

  /** From `["hello"]`, `Add(["world"])` carries the concatenated log. */
  lemma ScenarioSecondAdd()
    ensures Handle(ClientState(["hello"]), Add(["world"])) == Ok([MessagesAdded(["hello", "world"])])
    ensures ApplyAll(ClientState(["hello"]), [MessagesAdded(["hello", "world"])]).messages == ["hello", "world"]
  {
    assert ["hello"] + ["world"] == ["hello", "world"];
    HandleAddThenApply(ClientState(["hello"]), ["world"]);
  }
}
