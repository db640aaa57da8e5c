/** Messages carried by the bus: a weakly held sender and a typed payload. */
module Messages {
  import opened Common

  /** A .NET type name; messages and subscriptions are keyed by it. */
  type TypeTag = string

  /** Identity of the object that sent a message. */
  type SenderId = nat

  /** A bus message.  `runtimeType` is the concrete class of the message and
      `supertypes` every base class and interface it derives from, so that the
      runtime test `message is T` can be decided.  The sender is held weakly:
      `senderAlive` turns false once the sender has been collected. */
  datatype Message = Message(
    runtimeType: TypeTag,
    supertypes: set<TypeTag>,
    sender: SenderId,
    senderAlive: bool,
    content: int)

  /** `message is T`: the message's class is T or derives from T. */
  predicate Is(m: Message, t: TypeTag) {
    t == m.runtimeType || t in m.supertypes
  }

  /** The types every bus message has: it derives from the message base class,
      which implements the bus message interface. */
  const BaseTypes: set<TypeTag> := {"BusMessageBase", "IBusMessage"}

  /** The message base constructor: a null sender is rejected, otherwise the
      sender is recorded (weakly) together with the content, and the message
      is a `BusMessageBase` and an `IBusMessage` whatever its class. */
  function NewMessage(sender: Option<SenderId>, runtimeType: TypeTag, supertypes: set<TypeTag>, content: int): (r: Result<Message>)
    ensures sender.None? <==> r.Err?
    ensures r.Err? ==> r.error == ArgumentNull("sender")
    ensures r.Ok? ==> SenderOf(r.value) == sender
    ensures r.Ok? ==> r.value.content == content && Is(r.value, runtimeType)
    ensures r.Ok? ==> Is(r.value, "IBusMessage") && Is(r.value, "BusMessageBase")
    ensures r.Ok? ==> forall t :: Is(r.value, t) <==> t == runtimeType || t in supertypes || t in BaseTypes
  {
    match sender
    case None => Err(ArgumentNull("sender"))
    case Some(s) => Ok(Message(runtimeType, supertypes + BaseTypes, s, true, content))
  }

  /** The `Sender` property: the sender, or null once it has been collected. */
  function SenderOf(m: Message): Option<SenderId> {
    if m.senderAlive then Some(m.sender) else None
  }

  /** The sender object is collected: provenance is lost, nothing else changes. */
  function ReleaseSender(m: Message): (r: Message)
    ensures SenderOf(r).None?
    ensures r.content == m.content
    ensures forall t :: Is(r, t) <==> Is(m, t)
  {
    m.(senderAlive := false)
  }
}
