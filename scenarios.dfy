/** Clients that string the components together and check what callers can rely on. */
module Scenarios {
  import opened Wrappers
  import opened Values
  import opened PlayerModel
  import opened Immersive
  import opened Messages
  import opened Handlers
  import opened Session
  import opened Roster

  /** A player message echoed locally reaches the roster once; a second one for the same id replaces it. */
  method RosterThroughDispatch(p: Player, session: GroupSession)
  {
    var handlers := new MessageHandlerRegistry();
    var roster := new PlayerManager(handlers);
    var coordinator := new SharePlayManager();
    coordinator.sessionInfo := SessionInfo(Some(session), None, None, None);

    var calls, network := coordinator.SendMessage(PlayerMsg(p), None, true, handlers);
    assert network == None;
    assert calls == [Invocation(PlayerMessageHandler, PlayerMsg(p), session.localParticipant)];
    roster.HandleInvocation(calls[0]);
    assert roster.players == [p];

    var q := p.(score := p.score / 2 + 1);
    var calls2, _ := coordinator.SendMessage(PlayerMsg(q), None, true, handlers);
    roster.HandleInvocation(calls2[0]);
    assert roster.players == [q];
  }

  /** With no session a locally handled send reaches no handler and transmits nothing. */
  method EchoWithoutSession(p: Player)
  {
    var handlers := new MessageHandlerRegistry();
    var roster := new PlayerManager(handlers);
    var coordinator := new SharePlayManager();
    var calls, network := coordinator.SendMessage(PlayerMsg(p), None, true, handlers);
    assert calls == [] && network == None;
  }

  /** A later handler for the same type is the only one called. */
  method LastHandlerWins(m: EntityStateMessage, sender: Participant)
  {
    var handlers := new MessageHandlerRegistry();
    handlers.Register(Callback(1, EntityStateType));
    handlers.Register(Callback(2, EntityStateType));
    var calls := handlers.Handle(EntityStateMsg(m), sender);
    assert calls == [Invocation(Callback(2, EntityStateType), EntityStateMsg(m), sender)];
  }

  /** A single active participant is counted as two, and the local seat stays 1. */
  method SingleParticipant(me: Participant, slot: LocalPlayerSlot)
    modifies slot
  {
    var total, built := HandleActiveParticipants([me], me, slot, "m0", ["m1"]);
    assert total == 2;
    assert slot.local.value.playerSeat == 1 && slot.local.value.name == "Player1";
    assert built[0].playerSeat == 2;
  }

  /** Cleaning up twice, or with no session, leaves the empty state and leaves the session once. */
  method CleanupTwice(session: GroupSession)
  {
    var coordinator := new SharePlayManager();
    coordinator.sessionInfo := SessionInfo(Some(session), Some(Messenger(0)), Some(Messenger(1)), None);
    coordinator.Cleanup();
    coordinator.Cleanup();
    assert coordinator.sessionInfo == EmptySessionInfo();
    assert coordinator.leaveRequests == [session];
  }

  /** A fresh registry encodes and decodes every built-in message; a custom one needs registering. */
  method RegistryLifecycle(m: Message, c: CustomMessage)
    requires !m.CustomMsg? && ValidCustom(c)
  {
    var registry := new MessageRegistry();
    EnvelopeRoundTrip(m, registry.typeMap);
    assert Encode(CustomMsg(c), registry.typeMap) == Err(UnregisteredType);
    registry.Register(TypeOf(CustomMsg(c)), "scoreMessage");
    RegisteredCustomRoundTrips(CustomMsg(c), BuiltinTypeMap(), "scoreMessage");
    assert Decode(Encode(CustomMsg(c), registry.typeMap).value, registry.typeMap) == Ok(CustomMsg(c));
  }
}
