/**
 * Handlers for decoded messages: each handler is written against one message type, stored
 * type-erased under that type's name, and found again by the runtime type of a message.
 */
module Handlers {
  import opened Wrappers
  import opened Values
  import opened Messages

  /**
   * A `MessageHandler`. The roster's `PlayerMessageHandler` is the one the core itself
   * registers; any other handler is an application callback for the type it names.
   */
  datatype Handler =
    | PlayerMessageHandler
    | Callback(id: nat, handles: MsgType)

  /** The associated `MessageType`, which the default static `messageType` also returns. */
  function HandledType(h: Handler): (t: MsgType)
    ensures h.PlayerMessageHandler? ==> t == PlayerType
    ensures h.Callback? ==> t == h.handles
  {
    match h
    case PlayerMessageHandler => PlayerType
    case Callback(_, t) => t
  }

  /** One call of a handler's `handle(_:from:)`. */
  datatype Invocation = Invocation(handler: Handler, message: Message, sender: Participant)

  /** `AnyMessageHandler`: the handler behind a closure that accepts any message. */
  datatype AnyMessageHandler = AnyMessageHandler(inner: Handler)

  /** The erased closure: it calls the inner handler only when the message casts to its type. */
  function Invoke(h: AnyMessageHandler, message: Message, sender: Participant): (r: Option<Invocation>)
    ensures r.Some? <==> TypeOf(message) == HandledType(h.inner)
    ensures r.Some? ==> r.value == Invocation(h.inner, message, sender)
  {
    if TypeOf(message) == HandledType(h.inner) then Some(Invocation(h.inner, message, sender)) else None
  }

  /** What dispatching a message does: the calls it makes, in order. */
  function Dispatch(handlers: map<string, AnyMessageHandler>, message: Message, sender: Participant): (calls: seq<Invocation>)
    ensures |calls| <= 1
    ensures calls != [] ==> TypeName(TypeOf(message)) in handlers &&
                            calls == [Invocation(handlers[TypeName(TypeOf(message))].inner, message, sender)] &&
                            HandledType(calls[0].handler) == TypeOf(message)
    ensures TypeName(TypeOf(message)) !in handlers ==> calls == []
  {
    var name := TypeName(TypeOf(message));
    if name in handlers then
      match Invoke(handlers[name], message, sender)
      case Some(call) => [call]
      case None => []
    else []
  }

  /** Registering `h` and dispatching a message of its type calls `h` alone, whatever was there before. */
  lemma DispatchAfterRegister(handlers: map<string, AnyMessageHandler>, h: Handler, message: Message, sender: Participant)
    requires TypeOf(message) == HandledType(h)
    ensures Dispatch(handlers[TypeName(HandledType(h)) := AnyMessageHandler(h)], message, sender) == [Invocation(h, message, sender)]
  {
  }

  /** Registering a handler leaves the dispatch of messages whose type has another name as it was. */
  lemma RegisterKeepsOtherDispatch(handlers: map<string, AnyMessageHandler>, h: Handler, message: Message, sender: Participant)
    requires TypeName(TypeOf(message)) != TypeName(HandledType(h))
    ensures Dispatch(handlers[TypeName(HandledType(h)) := AnyMessageHandler(h)], message, sender) ==
            Dispatch(handlers, message, sender)
  {
  }

  /**
   * Type names leave out the module: a handler for a custom type named "Player" replaces the
   * roster's handler, and the player messages that follow reach no handler at all.
   */
  lemma NameCollisionDropsMessages(handlers: map<string, AnyMessageHandler>, moduleName: string, id: nat,
                                   p: PlayerModel.Player, sender: Participant)
    ensures var after := handlers["Player" := AnyMessageHandler(PlayerMessageHandler)]
                                 [TypeName(CustomType(moduleName, "Player")) := AnyMessageHandler(Callback(id, CustomType(moduleName, "Player")))];
            Dispatch(after, PlayerMsg(p), sender) == []
  {
  }

  /**
   * Two custom types with the same name from different modules share one slot: once the
   * second is registered, messages of the first reach no handler.
   */
  lemma SameNameCustomTypesCollide(handlers: map<string, AnyMessageHandler>, moduleA: string, moduleB: string,
                                   name: string, idA: nat, idB: nat, c: CustomMessage, sender: Participant)
    requires moduleA != moduleB && c.moduleName == moduleA && c.typeName == name
    ensures var after := handlers[TypeName(CustomType(moduleA, name)) := AnyMessageHandler(Callback(idA, CustomType(moduleA, name)))]
                                 [TypeName(CustomType(moduleB, name)) := AnyMessageHandler(Callback(idB, CustomType(moduleB, name)))];
            Dispatch(after, CustomMsg(c), sender) == []
  {
  }

  /** `MessageHandlerRegistry`: the process-wide dictionary from type names to handlers. */
  class MessageHandlerRegistry {
    var handlers: map<string, AnyMessageHandler>

    constructor()
      ensures handlers == map[]
    {
      handlers := map[];
    }

    /** Stores `h` under its type's name, replacing any earlier handler there and nothing else. */
    method Register(h: Handler)
      modifies this
      ensures handlers == old(handlers)[TypeName(HandledType(h)) := AnyMessageHandler(h)]
      ensures forall name :: name != TypeName(HandledType(h)) && name in old(handlers) ==>
                name in handlers && handlers[name] == old(handlers)[name]
    {
      var typeName := TypeName(HandledType(h));
      handlers := handlers[typeName := AnyMessageHandler(h)];
    }

    /**
     * Looks the handler up by the message's runtime type name and lets it run: at most one
     * call, and none when no handler is stored under that name.
     */
    method Handle(message: Message, sender: Participant) returns (calls: seq<Invocation>)
      ensures calls == Dispatch(handlers, message, sender)
      ensures |calls| <= 1
      ensures TypeName(TypeOf(message)) !in handlers ==> calls == []
    {
      var typeName := TypeName(TypeOf(message));
      calls := [];
      if typeName in handlers {
        var handler := handlers[typeName];
        var call := Invoke(handler, message, sender);
        if call.Some? {
          calls := [call.value];
        }
      }
    }
  }
}
