/** Events of the client message-log aggregate (src/aggregates/client/events.rs). */
module ClientEvents {

  /** `ClientEvent`: the facts that may change a `ClientState`. */
  datatype ClientEvent =
    | MessagesAdded(msgs: seq<string>)
    | Paniced

  /** `DomainEvent::event_type`: the type tag of an event, independent of its payload. */
  function EventType(e: ClientEvent): (tag: string)
    ensures e.MessagesAdded? <==> tag == "Messages added"
    ensures e.Paniced? <==> tag == "Paniced"
  {
    match e
    case MessagesAdded(_) => "Messages added"
    case Paniced => "Paniced"
  }

  /** `DomainEvent::event_version`: the schema version, the same for every event. */
  function EventVersion(e: ClientEvent): (version: string)
    ensures version == "1.0"
  {
    "1.0"
  }

  /** Two events share a type tag exactly when they are of the same variant;
      in particular the tag ignores the payload of `MessagesAdded`. */
  lemma EventTypeIdentifiesVariant(a: ClientEvent, b: ClientEvent)
    ensures EventType(a) == EventType(b) <==> a.MessagesAdded? == b.MessagesAdded?
  {
  }

  /** Every event carries the same version, whatever its variant and payload. */
  lemma EventVersionUniform(a: ClientEvent, b: ClientEvent)
    ensures EventVersion(a) == EventVersion(b)
  {
  }
}
