# DicyaninSharePlay: a Dafny model of the message envelope, the registries and the roster

DicyaninSharePlay lets the participants of a SharePlay group session exchange typed
messages. This project models its core in Dafny and proves properties of that model:

- **The envelope.** `AnySharePlayMessage` wraps one message. It writes a `type` tag and the
  payload as `base`. A message of a type other than the five built-in ones also gets a
  `customType` identifier, which is looked up in `MessageRegistry`. Decoding reverses this.
- **The type registry.** `MessageRegistry` maps identifiers to message types. It starts with
  the five built-in types. Registering is last-write-wins.
- **The handler registry.** `MessageHandlerRegistry` stores one type-erased handler per
  message-type name. It dispatches a decoded message to the handler stored under the
  message's runtime type name, and does nothing when there is none.
- **The roster.** `PlayerManager` upserts incoming players by id into an ordered list. It
  keeps the tracked local player up to date and edits it locally.
- **The session manager's rules.** `SharePlayManager` holds the seat colours and the seat
  numbering from a snapshot of active participants. It also decides who a send reaches and
  whether it is echoed locally, and resets the session state on cleanup.

One module per Swift file: `PlayerModel` (player.dfy), `Immersive` (immersive.dfy),
`Messages` (messages.dfy), `Handlers` (handlers.dfy), `Roster` (roster.dfy) and `Session`
(session.dfy). Three helper modules support them. `Wrappers` holds Option and Result.
`Values` holds the abstract payload value, UUIDs, opaque floats, 64-bit integers and
participants. `Text` renders numbers in decimal for the `"Player \(seat)"` names.
`Scenarios` holds client methods that chain the components: a local echo reaching the
roster, last-write-wins dispatch, a one-participant snapshot, cleanup twice, and the
registry's lifecycle.

How the model represents the system:

- **The wire.** The keyed container is a record `Envelope(tag, customType?, base)`. The
  payload is a structured value (strings, numbers, booleans, floats, UUIDs, lists, keyed
  objects). It stands for the JSON that `JSONEncoder` writes, not for bytes. Each type's
  `Codable` conformance is modelled key by key. The synthesized ones require every stored
  property and read them in declaration order. `EntityTransformMessage` has a custom
  conformance with the 3/4/3 arity checks.
- **Runtime types.** `any SharePlayMessage` is the datatype `Message`. Its runtime type is
  `MsgType`: the five built-in types, plus `CustomType(module, name)` for types defined
  downstream. `String(describing:)` drops the module. So two custom types with the same name
  share one handler slot, and the later registration wins; messages of the earlier type then
  fail the cast and reach no handler (`SameNameCustomTypesCollide`). A custom type named
  `Player` collides with the roster's handler in the same way (`NameCollisionDropsMessages`).
- **Dictionary order.** `typeIdentifier(for:)` returns the first matching key in Swift's
  unspecified dictionary order. The model returns *some* key whose type matches. This is why
  `Encode` is a ghost function.
- **Effects as results and events.** No closures are run. A handler call is returned as an
  `Invocation`. A transmission is returned as an `Outgoing`. The roster's sends are appended
  to its `outbox` as `SendRequest` events. Sessions left by cleanup go to `leaveRequests`.
- **Parameters for generated values.** `UUID()` and `UUID().uuidString` become parameters.

Behaviours of the code worth noting, each of which the model reproduces:

- `encode(to:)` checks the five built-in types before it consults the registry
  (SharePlayMessages.swift:40-58). It does not look every type up in the registry.
- A local echo runs only if a session exists (SharePlayManager.swift:136-141). With no
  session, `sendMessage(…, handleLocally: true)` dispatches nothing locally and sends nothing
  (`NoSessionNoEffect`). It does not degrade to a local-only dispatch.
- `DemoSessionInfo(newSession:)` stores the `.reliable` messenger in `messenger`. It stores the
  `.unreliable` one in `reliableMessenger` (SharePlayManager.swift:196-197). Only `messenger`
  is used for sending.
- `encode` and `init(from:)` use the key `.customType` (SharePlayMessages.swift:55 and :83).
  The `CodingKeys` enum declares only `base` and `type` (SharePlayMessages.swift:22-25), so
  the file does not compile as written. The model gives the envelope the intended optional
  `customType` field. A custom envelope without it is rejected with `MissingCustomType`.

## Model

| member | source | states |
|---|---|---|
| PlayerModel.NewPlayer | Sources/DicyaninSharePlay/Player.swift:23-31 | every argument lands in the field of the same name; windowId is "" and messageId is the fresh UUID string |
| PlayerModel.PlayerEqIgnoresState | Sources/DicyaninSharePlay/Player.swift:11-13 | two players are `==` exactly when they differ only in windowId, messageId, score, isActive, isReady, playerSeat and isVisionDevice, i.e. name and id agree |
| PlayerModel.PlayerEqIsEquivalence | Sources/DicyaninSharePlay/Player.swift:11-13 | player `==` is reflexive, symmetric and transitive |
| PlayerModel.DecodePlayer | Sources/DicyaninSharePlay/Player.swift:7-21 | a payload that decodes holds, under each of the nine keys, exactly what encoding the decoded player writes there |
| PlayerModel.PlayerRoundTrip | Sources/DicyaninSharePlay/Player.swift:7-21 | decoding a player's payload gives back that player, every field included |
| PlayerModel.LocalPlayerSlot.constructor | Sources/DicyaninSharePlay/Player.swift:33-34 | `Player.local` starts as nil |
| Immersive.NewEntityTransform | Sources/DicyaninSharePlay/ImmersiveMessages.swift:9-26 | entityId, position, rotation and scale come from the arguments; windowId is "" |
| Immersive.NewEntityState | Sources/DicyaninSharePlay/ImmersiveMessages.swift:73-85 | entityId, isActive and modelName come from the arguments; windowId is "" |
| Immersive.EntityTransformPayload | Sources/DicyaninSharePlay/ImmersiveMessages.swift:55-69 | exactly the six keys are written; position and scale as 3-float lists and rotation as the 4-float list (x, y, z, w), in component order |
| Immersive.DecodeEntityTransform | Sources/DicyaninSharePlay/ImmersiveMessages.swift:33-53 | a payload that decodes holds exactly what encoding the decoded message writes, so every accepted list had arity 3, 4 and 3 |
| Immersive.EntityTransformRoundTrip | Sources/DicyaninSharePlay/ImmersiveMessages.swift:33-69 | decoding the output of `encode` recovers windowId, messageId, entityId and every vector component in order |
| Immersive.PositionArityChecked | Sources/DicyaninSharePlay/ImmersiveMessages.swift:40-41 | a position list whose length is not 3 fails with WrongCount("position", 3) |
| Immersive.RotationArityChecked | Sources/DicyaninSharePlay/ImmersiveMessages.swift:45-46 | a rotation list whose length is not 4 fails with WrongCount("rotation", 4) once position is valid |
| Immersive.ScaleArityChecked | Sources/DicyaninSharePlay/ImmersiveMessages.swift:50-51 | a scale list whose length is not 3 fails with WrongCount("scale", 3) once position and rotation are valid |
| Immersive.DecodeEntityState | Sources/DicyaninSharePlay/ImmersiveMessages.swift:73-79 | a payload that decodes holds exactly what encoding the decoded message writes under its five keys |
| Immersive.EntityStateRoundTrip | Sources/DicyaninSharePlay/ImmersiveMessages.swift:73-79 | decoding an entity-state payload gives back the message |
| Messages.GameStartEqIgnoresOthers | Sources/DicyaninSharePlay/SharePlayMessages.swift:130-132 | two game-start messages are `==` exactly when they differ only in windowId, messageId and gameMode |
| Messages.PlayerReadyEqIgnoresOthers | Sources/DicyaninSharePlay/SharePlayMessages.swift:147-149 | two player-ready messages are `==` exactly when they differ only in windowId and messageId |
| Messages.DecodeGameStart | Sources/DicyaninSharePlay/SharePlayMessages.swift:124-128 | a decoded game-start message re-encodes to what was read under its four keys |
| Messages.DecodePlayerReady | Sources/DicyaninSharePlay/SharePlayMessages.swift:142-145 | a decoded player-ready message re-encodes to what was read under its three keys |
| Messages.DecodeCustom | Sources/DicyaninSharePlay/SharePlayMessages.swift:81-87 | a decoded custom message has the registered type's module and name and keeps its protocol fields apart from its own |
| Messages.CustomRoundTrip | Sources/DicyaninSharePlay/SharePlayMessages.swift:81-87 | a custom message is read back from its payload unchanged |
| Messages.DecodeAs | Sources/DicyaninSharePlay/SharePlayMessages.swift:70-87 | whatever is decoded as type t has runtime type t |
| Messages.PayloadRoundTrip | Sources/DicyaninSharePlay/SharePlayMessages.swift:61-88 | every message is read back from the payload written at :61-62 as its own type |
| Messages.TagRoundTrip | Sources/DicyaninSharePlay/SharePlayMessages.swift:27-34 | the six tags and their raw strings correspond one to one; any other string is no tag |
| Messages.BuiltinTag | Sources/DicyaninSharePlay/SharePlayMessages.swift:40-51 | the five built-in types get their fixed tag, never `customMessage`; every other type falls through |
| Messages.TagType | Sources/DicyaninSharePlay/SharePlayMessages.swift:70-80 | a built-in tag is read as a built-in type |
| Messages.BuiltinTagMatchesType | Sources/DicyaninSharePlay/SharePlayMessages.swift:40-80 | the tag a built-in message is written with is read back as that message's own type |
| Messages.TypeFor | Sources/DicyaninSharePlay/SharePlayMessages.swift:117-119 | `type(for:)` finds a type exactly when the identifier is registered, and it is the registered one |
| Messages.IdentifierFor | Sources/DicyaninSharePlay/SharePlayMessages.swift:113-115 | `typeIdentifier(for:)` returns some key whose type is the message's type, and nil exactly when no key has that type |
| Messages.BuiltinTypeMap | Sources/DicyaninSharePlay/SharePlayMessages.swift:99-106 | the fresh registry has exactly the five built-in identifiers |
| Messages.BuiltinTypeMapMatchesTags | Sources/DicyaninSharePlay/SharePlayMessages.swift:99-106 | in the fresh registry each built-in identifier names the type that tag decodes as, and no custom type is registered |
| Messages.MessageRegistry.constructor | Sources/DicyaninSharePlay/SharePlayMessages.swift:99-106 | the private initializer's five registrations leave exactly the built-in map |
| Messages.MessageRegistry.Register | Sources/DicyaninSharePlay/SharePlayMessages.swift:108-111 | last write wins: afterwards `type(for: id)` is the new type and every other identifier maps as before |
| Messages.Encode | Sources/DicyaninSharePlay/SharePlayMessages.swift:36-63 | built-ins get their tag and no customType whatever the registry holds; any other message gets `customMessage` plus a registered identifier of its type, or fails with UnregisteredType, producing nothing, when none exists |
| Messages.Decode | Sources/DicyaninSharePlay/SharePlayMessages.swift:65-89 | an unknown tag, a missing customType and an unregistered customType each fail with their own error; a success has the type the tag or the registry names |
| Messages.EnvelopeRoundTrip | Sources/DicyaninSharePlay/SharePlayMessages.swift:36-89 | decoding what `encode` produced, against the same registry, yields the encoded message |
| Messages.EncodeFailsIffUnregistered | Sources/DicyaninSharePlay/SharePlayMessages.swift:51-58 | encoding fails exactly for a non-built-in message whose type no key maps to |
| Messages.EncodeBuiltinIgnoresRegistry | Sources/DicyaninSharePlay/SharePlayMessages.swift:40-50 | re-registering any identifier, built-in ones included, does not change how built-in messages are encoded |
| Messages.DecodeBuiltinIgnoresRegistry | Sources/DicyaninSharePlay/SharePlayMessages.swift:70-80 | re-registering any identifier does not change how built-in tags are decoded |
| Messages.RegisteredCustomRoundTrips | Sources/DicyaninSharePlay/SharePlayMessages.swift:108-111 | once a custom type is registered under any identifier, its messages encode and round-trip |
| Handlers.HandledType | Sources/DicyaninSharePlay/MessageHandler.swift:53-61 | the roster's handler handles Player; a callback handles the type it was written for; the default `messageType` is that same type |
| Handlers.Invoke | Sources/DicyaninSharePlay/MessageHandler.swift:17-22 | the erased wrapper calls the inner handler exactly when the message is of the handler's type, with the same message and sender |
| Handlers.Dispatch | Sources/DicyaninSharePlay/MessageHandler.swift:44-48 | at most one call, only to the handler stored under the message's type name; no call when nothing is stored there |
| Handlers.DispatchAfterRegister | Sources/DicyaninSharePlay/MessageHandler.swift:38-41 | after registering h, a message of h's type reaches h alone, whatever was registered before |
| Handlers.RegisterKeepsOtherDispatch | Sources/DicyaninSharePlay/MessageHandler.swift:38-41 | registering leaves dispatch under every other type name unchanged |
| Handlers.NameCollisionDropsMessages | Sources/DicyaninSharePlay/MessageHandler.swift:38-48 | a handler for a custom type named "Player" replaces the roster's handler, after which player messages reach no handler |
| Handlers.SameNameCustomTypesCollide | Sources/DicyaninSharePlay/MessageHandler.swift:38-48 | two custom types with the same name in different modules share one slot; after the second is registered, messages of the first reach no handler |
| Handlers.MessageHandlerRegistry.constructor | Sources/DicyaninSharePlay/MessageHandler.swift:33-35 | the registry starts empty |
| Handlers.MessageHandlerRegistry.Register | Sources/DicyaninSharePlay/MessageHandler.swift:38-41 | the handler is stored under its type's name, replacing an earlier one there; all other entries are unchanged |
| Handlers.MessageHandlerRegistry.Handle | Sources/DicyaninSharePlay/MessageHandler.swift:44-48 | the calls made are those of Dispatch: at most one, none without a stored handler |
| Session.GetColorForSeat | Sources/DicyaninSharePlay/SharePlayManager.swift:115-123 | seat 1 is red, 2 blue, 3 purple, 4 yellow, each exactly for that seat |
| Session.SeatColorsDistinct | Sources/DicyaninSharePlay/SharePlayManager.swift:115-123 | a seat is black exactly when it is outside 1 to 4; the four coloured seats have four different colours |
| Session.FirstIndexOf | Sources/DicyaninSharePlay/SharePlayManager.swift:98 | the index found is the first position holding the participant; none only when absent |
| Session.FirstIndexOfDistinct | Sources/DicyaninSharePlay/SharePlayManager.swift:97-98 | in a snapshot, which has no repeats, each participant is found at its own position, so `?? 1` never applies |
| Session.ParticipantTotal | Sources/DicyaninSharePlay/SharePlayManager.swift:83-86 | the total is 2 for a single participant and the snapshot size otherwise |
| Session.LocalSeat | Sources/DicyaninSharePlay/SharePlayManager.swift:87-88 | the local seat is always 1 |
| Session.LocalSeatPlayer | Sources/DicyaninSharePlay/SharePlayManager.swift:89-95 | `Player.local` is named "Player1", has the local participant's id, seat 1, score 0, is active, not ready and a vision device |
| Session.ParticipantPlayer | Sources/DicyaninSharePlay/SharePlayManager.swift:101-109 | a participant's player has its id, the given seat, the name "Player <seat>", score 0, is active, not ready and not a vision device |
| Session.SeatNamesDistinct | Sources/DicyaninSharePlay/SharePlayManager.swift:89-102 | different seats get different names, and no participant is named like the local player |
| Session.BuildParticipantPlayers | Sources/DicyaninSharePlay/SharePlayManager.swift:97-110 | the i-th participant of the snapshot is seated at i + 2, so seats lie in 2 to count + 1 |
| Session.HandleActiveParticipants | Sources/DicyaninSharePlay/SharePlayManager.swift:81-111 | the sink sets `Player.local` and changes nothing else; the players built for the participants are only returned |
| Session.PlanSend | Sources/DicyaninSharePlay/SharePlayManager.swift:132-153 | a local echo needs handleLocally and a session and has the local participant as sender; a transmission needs a session and a messenger, carries the message and goes to the given recipients if any |
| Session.DefaultRecipientsExcludeSender | Sources/DicyaninSharePlay/SharePlayManager.swift:147-149 | with no explicit recipients, exactly the active participants other than the local one are addressed |
| Session.NoSessionNoEffect | Sources/DicyaninSharePlay/SharePlayManager.swift:136-146 | without a session a send neither dispatches locally nor transmits |
| Session.Cleaned | Sources/DicyaninSharePlay/SharePlayManager.swift:155-165 | after cleanup the session info is the empty default, no subscription is stored, and the old session, if any, has been left |
| Session.CleanupIdempotent | Sources/DicyaninSharePlay/SharePlayManager.swift:155-165 | cleaning up twice gives the same state as once |
| Session.SharePlayManager.constructor | Sources/DicyaninSharePlay/SharePlayManager.swift:13-16 | the manager starts with the empty session info and no subscriptions |
| Session.SharePlayManager.HandleMessage | Sources/DicyaninSharePlay/SharePlayManager.swift:125-130 | local handling is a dispatch through the handler registry |
| Session.SharePlayManager.SendMessage | Sources/DicyaninSharePlay/SharePlayManager.swift:132-153 | the transmission is the one PlanSend decides, and the local echo is the registry's dispatch with the local participant as sender, or nothing |
| Session.SharePlayManager.Cleanup | Sources/DicyaninSharePlay/SharePlayManager.swift:155-166 | the new state is the cleaned one |
| Roster.FindById | Sources/DicyaninSharePlay/PlayerManager.swift:27 | the index found is the first record with that id; none exactly when no record has it |
| Roster.UpsertReplacesInPlace | Sources/DicyaninSharePlay/PlayerManager.swift:27-28 | with a record of the same id present, the first such record is replaced by the player where it stands, nothing else changes and the length stays the same |
| Roster.UpsertAppendsNew | Sources/DicyaninSharePlay/PlayerManager.swift:29-30 | with no record of that id, the player is appended at the end |
| Roster.UpsertKeepsOthers | Sources/DicyaninSharePlay/PlayerManager.swift:26-31 | records with other ids keep value and position, the length grows by at most one, and the only new record is the player |
| Roster.UpsertKeepsUniqueIds | Sources/DicyaninSharePlay/PlayerManager.swift:26-31 | unique ids stay unique |
| Roster.UpsertIdempotent | Sources/DicyaninSharePlay/PlayerManager.swift:26-31 | delivering the same player twice leaves the roster as delivering it once |
| Roster.RefreshLocal | Sources/DicyaninSharePlay/PlayerManager.swift:34-36 | the local player becomes the incoming player exactly when it exists with the same id; a nil local player stays nil |
| Roster.RenamedLocal | Sources/DicyaninSharePlay/PlayerManager.swift:40-63 | with no local player a new one with the name, score 0, inactive, ready, vision device and seat 0; otherwise the local player with only its name changed |
| Roster.WithReady | Sources/DicyaninSharePlay/PlayerManager.swift:67-69 | only isReady changes |
| Roster.PlayerManager.constructor | Sources/DicyaninSharePlay/PlayerManager.swift:12-24 | an empty roster with no local player, whose player handler is registered under "Player" |
| Roster.PlayerManager.HandlePlayerMessage | Sources/DicyaninSharePlay/PlayerManager.swift:26-37 | the roster is upserted by id, the local player refreshed on a matching id, and unique ids are kept |
| Roster.PlayerManager.HandleInvocation | Sources/DicyaninSharePlay/PlayerManager.swift:76-87 | a call on the roster's handler forwards the received player unchanged into HandlePlayerMessage |
| Roster.PlayerManager.UpdateLocalPlayer | Sources/DicyaninSharePlay/PlayerManager.swift:39-64 | the local player becomes the renamed or new one, that player is sent with a local echo, and the roster list is untouched |
| Roster.PlayerManager.SetLocalPlayerReady | Sources/DicyaninSharePlay/PlayerManager.swift:66-73 | no local player means no change and no send; otherwise only isReady changes and the player is sent with a local echo |

## Left out

- Session plumbing that depends on the GroupActivities and Combine platforms: `startSharePlay`,
  `configureSession` (its one-second sleep and state sink), `joinSession`, the
  `messages(of:)` receive loop, the wiring of the `$activeParticipants` sink, the
  `MyGroupActivity` metadata, and the messenger construction in
  `DemoSessionInfo(newSession:)`. The sink's body is modelled (`HandleActiveParticipants`).
- `sendStartGameMessage` (SharePlayManager.swift:170-173): it only builds a game-start
  message and calls `sendMessage`, which is modelled.
- Strings are compared as sequences of code points. Swift's `String ==` and `Dictionary`
  lookup compare canonically equivalent strings as equal. So in the model, player names
  (`PlayerModel.PlayerEq`), registry identifiers (`Messages.TypeFor`) and handler type names
  (`Handlers.Dispatch`) that differ only in Unicode normalisation are distinct, where Swift
  treats them as equal.
- `Task`, `@MainActor` and `async`: every dispatch is a sequential call. Concurrency and
  interleaving are not modelled.
- Session.SharePlayManager.SendMessage: the source runs the local echo in a `Task`,
  which reads the session when it runs. The model reads it at the call.
- Session.SharePlayManager.Cleanup: the source runs its body in a `Task`. The model runs it
  at once.
- `JSONEncoder`/`JSONDecoder` are foreign code. Payloads are structured values, not bytes.
  Not modelled: JSON's refusal of NaN and infinite floats, the `uuidString` text of a UUID,
  and the base64 form of `base`.
- Custom message types define their own `Codable` conformance. The model gives every custom
  type one conformance: a keyed object with its own fields next to windowId and messageId.
- Encoding at send time happens inside the platform's messenger. A send's `Outgoing` carries
  the message. An UnregisteredType failure there only reaches the completion callback's log.
- Float and quaternion arithmetic: components are opaque 32-bit patterns. Only list arity and
  order are modelled.
- `UUID()` generation: ids and message ids are parameters.
- `DemoSessionInfo` is a class, so an old reference would see the nil-ed session and messenger.
  The model keeps session info as a value, so that aliasing is not modelled.
- Messages.IdentifierFor: the source returns the first match in the dictionary's iteration
  order. The model states only that some matching key is returned. Which key is returned is
  left open.
- `print` logging, the SwiftUI views, `ImmersiveHandlers.swift` (its handlers only forward to
  a callback, which `Handlers.Callback` covers) and `Package.swift`.
