/**
 * The message envelope: the built-in message types, the runtime type of a message, the
 * tagged wire record and its codec, and the registry from identifiers to types that the
 * codec consults for types beyond the five built-in ones.
 */
module Messages {
  import opened Wrappers
  import opened Values
  import opened PlayerModel
  import opened Immersive

  // ---------------------------------------------------------------- built-in messages

  datatype GameStartMessage = GameStartMessage(windowId: string, messageId: string, id: Uuid, gameMode: string)

  datatype PlayerReadyMessage = PlayerReadyMessage(windowId: string, messageId: string, id: Uuid)

  /** Swift's `==` on game-start messages: the `id` only. */
  predicate GameStartEq(a: GameStartMessage, b: GameStartMessage) {
    a.id == b.id
  }

  /** Swift's `==` on player-ready messages: the `id` only. */
  predicate PlayerReadyEq(a: PlayerReadyMessage, b: PlayerReadyMessage) {
    a.id == b.id
  }

  /** Two game-start messages are equal exactly when they differ in nothing but windowId, messageId and gameMode. */
  lemma GameStartEqIgnoresOthers(a: GameStartMessage, b: GameStartMessage)
    ensures GameStartEq(a, b) <==> b == a.(windowId := b.windowId, messageId := b.messageId, gameMode := b.gameMode)
  {
  }

  /** Two player-ready messages are equal exactly when they differ in nothing but windowId and messageId. */
  lemma PlayerReadyEqIgnoresOthers(a: PlayerReadyMessage, b: PlayerReadyMessage)
    ensures PlayerReadyEq(a, b) <==> b == a.(windowId := b.windowId, messageId := b.messageId)
  {
  }

  function GameStartPayload(m: GameStartMessage): Value {
    Object(map["windowId" := Str(m.windowId), "messageId" := Str(m.messageId),
               "id" := UuidValue(m.id), "gameMode" := Str(m.gameMode)])
  }

  function DecodeGameStart(v: Value): (r: Result<GameStartMessage, DecodeError>)
    ensures r.Ok? ==> v.Object? && AgreesWith(v.fields, GameStartPayload(r.value).fields)
  {
    if !v.Object? then Err(NotAnObject)
    else
      var windowId :- GetString(v.fields, "windowId");
      var messageId :- GetString(v.fields, "messageId");
      var id :- GetUuid(v.fields, "id");
      var gameMode :- GetString(v.fields, "gameMode");
      Ok(GameStartMessage(windowId, messageId, id, gameMode))
  }

  function PlayerReadyPayload(m: PlayerReadyMessage): Value {
    Object(map["windowId" := Str(m.windowId), "messageId" := Str(m.messageId), "id" := UuidValue(m.id)])
  }

  function DecodePlayerReady(v: Value): (r: Result<PlayerReadyMessage, DecodeError>)
    ensures r.Ok? ==> v.Object? && AgreesWith(v.fields, PlayerReadyPayload(r.value).fields)
  {
    if !v.Object? then Err(NotAnObject)
    else
      var windowId :- GetString(v.fields, "windowId");
      var messageId :- GetString(v.fields, "messageId");
      var id :- GetUuid(v.fields, "id");
      Ok(PlayerReadyMessage(windowId, messageId, id))
  }

  // ---------------------------------------------------------------- custom messages

  /**
   * A message of a type defined downstream, in module `moduleName` under the name
   * `typeName`; besides the two protocol properties it carries its own keyed fields.
   */
  datatype CustomMessage = CustomMessage(
    moduleName: string,
    typeName: string,
    windowId: string,
    messageId: string,
    fields: map<string, Value>)

  /** The protocol properties are not also among the type's own fields. */
  predicate ValidCustom(c: CustomMessage) {
    "windowId" !in c.fields && "messageId" !in c.fields
  }

  function CustomPayload(c: CustomMessage): Value {
    Object(c.fields["windowId" := Str(c.windowId)]["messageId" := Str(c.messageId)])
  }

  function DecodeCustom(moduleName: string, typeName: string, v: Value): (r: Result<CustomMessage, DecodeError>)
    ensures r.Ok? ==> ValidCustom(r.value) && r.value.moduleName == moduleName && r.value.typeName == typeName
  {
    if !v.Object? then Err(NotAnObject)
    else
      var windowId :- GetString(v.fields, "windowId");
      var messageId :- GetString(v.fields, "messageId");
      Ok(CustomMessage(moduleName, typeName, windowId, messageId, v.fields - {"windowId", "messageId"}))
  }

  lemma CustomRoundTrip(c: CustomMessage)
    requires ValidCustom(c)
    ensures DecodeCustom(c.moduleName, c.typeName, CustomPayload(c)) == Ok(c)
  {
    var f := CustomPayload(c).fields;
    assert f - {"windowId", "messageId"} == c.fields;
  }

  // ---------------------------------------------------------------- messages and their types

  /** A value of `any SharePlayMessage`: one of the built-in structs or a downstream one. */
  datatype Message =
    | PlayerMsg(player: Player)
    | PlayerReadyMsg(ready: PlayerReadyMessage)
    | GameStartMsg(start: GameStartMessage)
    | EntityTransformMsg(transform: EntityTransformMessage)
    | EntityStateMsg(state: EntityStateMessage)
    | CustomMsg(custom: CustomMessage)

  /** A value of `any SharePlayMessage.Type`: the identity of a message type. */
  datatype MsgType =
    | PlayerType
    | PlayerReadyType
    | GameStartType
    | EntityTransformType
    | EntityStateType
    | CustomType(moduleName: string, name: string)

  /** `type(of:)`: the runtime type of a message. */
  function TypeOf(m: Message): MsgType {
    match m
    case PlayerMsg(_) => PlayerType
    case PlayerReadyMsg(_) => PlayerReadyType
    case GameStartMsg(_) => GameStartType
    case EntityTransformMsg(_) => EntityTransformType
    case EntityStateMsg(_) => EntityStateType
    case CustomMsg(c) => CustomType(c.moduleName, c.typeName)
  }

  /** `String(describing:)` of a type: its bare name, without the module. */
  function TypeName(t: MsgType): string {
    match t
    case PlayerType => "Player"
    case PlayerReadyType => "PlayerReadyMessage"
    case GameStartType => "Game_StartMessage"
    case EntityTransformType => "EntityTransformMessage"
    case EntityStateType => "EntityStateMessage"
    case CustomType(_, name) => name
  }

  predicate WellFormed(m: Message) {
    m.CustomMsg? ==> ValidCustom(m.custom)
  }

  /** `JSONEncoder().encode(base)`: the payload as its own type encodes it. */
  function Payload(m: Message): Value {
    match m
    case PlayerMsg(p) => PlayerPayload(p)
    case PlayerReadyMsg(r) => PlayerReadyPayload(r)
    case GameStartMsg(s) => GameStartPayload(s)
    case EntityTransformMsg(t) => EntityTransformPayload(t)
    case EntityStateMsg(s) => EntityStatePayload(s)
    case CustomMsg(c) => CustomPayload(c)
  }

  /** `JSONDecoder().decode(t, from: data)`: reads a payload as a message of type `t`. */
  function DecodeAs(t: MsgType, v: Value): (r: Result<Message, DecodeError>)
    ensures r.Ok? ==> TypeOf(r.value) == t && WellFormed(r.value)
  {
    match t
    case PlayerType =>
      var p :- DecodePlayer(v); Ok(PlayerMsg(p))
    case PlayerReadyType =>
      var m :- DecodePlayerReady(v); Ok(PlayerReadyMsg(m))
    case GameStartType =>
      var m :- DecodeGameStart(v); Ok(GameStartMsg(m))
    case EntityTransformType =>
      var m :- DecodeEntityTransform(v); Ok(EntityTransformMsg(m))
    case EntityStateType =>
      var m :- DecodeEntityState(v); Ok(EntityStateMsg(m))
    case CustomType(moduleName, name) =>
      var c :- DecodeCustom(moduleName, name, v); Ok(CustomMsg(c))
  }

  /** Every well-formed message is read back from its payload as its own type. */
  lemma PayloadRoundTrip(m: Message)
    requires WellFormed(m)
    ensures DecodeAs(TypeOf(m), Payload(m)) == Ok(m)
  {
    match m
    case PlayerMsg(p) => PlayerRoundTrip(p);
    case PlayerReadyMsg(r) =>
    case GameStartMsg(s) =>
    case EntityTransformMsg(t) => EntityTransformRoundTrip(t);
    case EntityStateMsg(s) => EntityStateRoundTrip(s);
    case CustomMsg(c) => CustomRoundTrip(c);
  }

  // ---------------------------------------------------------------- the wire tag

  /** The `MessageType` enum of the envelope, written as its raw string. */
  datatype Tag = PlayerTag | PlayerReadyTag | GameStartTag | EntityTransformTag | EntityStateTag | CustomTag

  function TagName(t: Tag): string {
    match t
    case PlayerTag => "playerMessage"
    case PlayerReadyTag => "playerReadyMessage"
    case GameStartTag => "game_StartMessage"
    case EntityTransformTag => "entityTransformMessage"
    case EntityStateTag => "entityStateMessage"
    case CustomTag => "customMessage"
  }

  /** Decoding the enum from its raw string; any other string is rejected. */
  function ParseTag(s: string): Option<Tag> {
    if s == "playerMessage" then Some(PlayerTag)
    else if s == "playerReadyMessage" then Some(PlayerReadyTag)
    else if s == "game_StartMessage" then Some(GameStartTag)
    else if s == "entityTransformMessage" then Some(EntityTransformTag)
    else if s == "entityStateMessage" then Some(EntityStateTag)
    else if s == "customMessage" then Some(CustomTag)
    else None
  }

  /** Tags and their raw strings are in one-to-one correspondence. */
  lemma TagRoundTrip(t: Tag, s: string)
    ensures ParseTag(TagName(t)) == Some(t)
    ensures ParseTag(s) == Some(t) <==> TagName(t) == s
  {
  }

  /** The `switch base` of `encode`: the fixed tag of each built-in type, none for others. */
  function BuiltinTag(m: Message): (r: Option<Tag>)
    ensures r.None? <==> m.CustomMsg?
    ensures r != Some(CustomTag)
  {
    match m
    case PlayerMsg(_) => Some(PlayerTag)
    case PlayerReadyMsg(_) => Some(PlayerReadyTag)
    case GameStartMsg(_) => Some(GameStartTag)
    case EntityTransformMsg(_) => Some(EntityTransformTag)
    case EntityStateMsg(_) => Some(EntityStateTag)
    case CustomMsg(_) => None
  }

  /** The type the decoder's `switch type` reads for a built-in tag. */
  function TagType(t: Tag): (r: MsgType)
    requires t != CustomTag
    ensures !r.CustomType?
  {
    match t
    case PlayerTag => PlayerType
    case PlayerReadyTag => PlayerReadyType
    case GameStartTag => GameStartType
    case EntityTransformTag => EntityTransformType
    case EntityStateTag => EntityStateType
  }

  /** The tag a built-in message is written with names the type it is read back as. */
  lemma BuiltinTagMatchesType(m: Message)
    requires !m.CustomMsg?
    ensures BuiltinTag(m).Some? && TagType(BuiltinTag(m).value) == TypeOf(m)
  {
  }

  // ---------------------------------------------------------------- the type registry

  /** `type(for:)`: the type registered under an identifier. */
  function TypeFor(typeMap: map<string, MsgType>, typeIdentifier: string): (r: Option<MsgType>)
    ensures r.Some? <==> typeIdentifier in typeMap
    ensures r.Some? ==> typeMap[typeIdentifier] == r.value
  {
    if typeIdentifier in typeMap then Some(typeMap[typeIdentifier]) else None
  }

  /**
   * `typeIdentifier(for:)`: the first key, in the dictionary's unspecified iteration order,
   * whose type is the message's runtime type; the model leaves that order open.
   */
  ghost function IdentifierFor(typeMap: map<string, MsgType>, m: Message): (r: Option<string>)
    ensures r.Some? ==> r.value in typeMap && typeMap[r.value] == TypeOf(m)
    ensures r.None? <==> forall k :: k in typeMap ==> typeMap[k] != TypeOf(m)
  {
    if exists k :: k in typeMap && typeMap[k] == TypeOf(m) then
      Some(var k :| k in typeMap && typeMap[k] == TypeOf(m); k)
    else None
  }

  /** The five identifiers a fresh registry is populated with. */
  function BuiltinTypeMap(): (m: map<string, MsgType>)
    ensures m.Keys == {"playerMessage", "playerReadyMessage", "game_StartMessage",
                       "entityTransformMessage", "entityStateMessage"}
  {
    map["playerMessage" := PlayerType,
        "playerReadyMessage" := PlayerReadyType,
        "game_StartMessage" := GameStartType,
        "entityTransformMessage" := EntityTransformType,
        "entityStateMessage" := EntityStateType]
  }

  /** A fresh registry maps each built-in tag's string to the type that tag decodes as. */
  lemma BuiltinTypeMapMatchesTags(t: Tag)
    requires t != CustomTag
    ensures TagName(t) in BuiltinTypeMap() && BuiltinTypeMap()[TagName(t)] == TagType(t)
    ensures forall k :: k in BuiltinTypeMap() ==> !BuiltinTypeMap()[k].CustomType?
  {
  }

  /** `MessageRegistry`: the process-wide dictionary from identifiers to message types. */
  class MessageRegistry {
    var typeMap: map<string, MsgType>

    /** The private initializer registers the five built-in types. */
    constructor()
      ensures typeMap == BuiltinTypeMap()
    {
      typeMap := map[];
      new;
      Register(PlayerType, "playerMessage");
      Register(PlayerReadyType, "playerReadyMessage");
      Register(GameStartType, "game_StartMessage");
      Register(EntityTransformType, "entityTransformMessage");
      Register(EntityStateType, "entityStateMessage");
    }

    /** Last write wins: the identifier now names `t` and every other entry is as it was. */
    method Register(t: MsgType, typeIdentifier: string)
      modifies this
      ensures typeMap == old(typeMap)[typeIdentifier := t]
      ensures TypeFor(typeMap, typeIdentifier) == Some(t)
      ensures forall k :: k != typeIdentifier ==> TypeFor(typeMap, k) == TypeFor(old(typeMap), k)
    {
      typeMap := typeMap[typeIdentifier := t];
    }
  }

  // ---------------------------------------------------------------- the envelope

  /** The keyed container crossing the wire: `type`, the optional `customType`, and `base`. */
  datatype Envelope = Envelope(tag: string, customType: Option<string>, base: Value)

  datatype EncodeError = UnregisteredType

  /** `AnySharePlayMessage.encode(to:)` against the registry's current dictionary. */
  ghost function Encode(m: Message, typeMap: map<string, MsgType>): (r: Result<Envelope, EncodeError>)
    ensures !m.CustomMsg? ==> r.Ok? && r.value.customType.None? && r.value.base == Payload(m) &&
                              r.value.tag == TagName(BuiltinTag(m).value)
    ensures m.CustomMsg? ==> (r.Ok? <==> exists k :: k in typeMap && typeMap[k] == TypeOf(m))
    ensures m.CustomMsg? && r.Ok? ==>
              r.value.tag == TagName(CustomTag) && r.value.base == Payload(m) &&
              r.value.customType.Some? && TypeFor(typeMap, r.value.customType.value) == Some(TypeOf(m))
    ensures r.Err? ==> r.error == UnregisteredType
  {
    match BuiltinTag(m)
    case Some(t) => Ok(Envelope(TagName(t), None, Payload(m)))
    case None =>
      match IdentifierFor(typeMap, m)
      case Some(id) => Ok(Envelope(TagName(CustomTag), Some(id), Payload(m)))
      case None => Err(UnregisteredType)
  }

  /** `AnySharePlayMessage.init(from:)`: the tag selects the type; custom tags go through the registry. */
  function Decode(e: Envelope, typeMap: map<string, MsgType>): (r: Result<Message, DecodeError>)
    ensures ParseTag(e.tag).None? ==> r == Err(InvalidTag(e.tag))
    ensures e.tag == TagName(CustomTag) && e.customType.None? ==> r == Err(MissingCustomType)
    ensures e.tag == TagName(CustomTag) && e.customType.Some? && e.customType.value !in typeMap ==>
              r == Err(UnknownCustomType(e.customType.value))
    ensures r.Ok? && e.tag == TagName(CustomTag) ==>
              e.customType.Some? && TypeFor(typeMap, e.customType.value) == Some(TypeOf(r.value))
    ensures r.Ok? && e.tag != TagName(CustomTag) ==>
              ParseTag(e.tag).Some? && TypeOf(r.value) == TagType(ParseTag(e.tag).value)
    ensures r.Ok? ==> WellFormed(r.value)
  {
    match ParseTag(e.tag)
    case None => Err(InvalidTag(e.tag))
    case Some(CustomTag) =>
      (match e.customType
       case None => Err(MissingCustomType)
       case Some(id) =>
         match TypeFor(typeMap, id)
         case None => Err(UnknownCustomType(id))
         case Some(t) => DecodeAs(t, e.base))
    case Some(t) => DecodeAs(TagType(t), e.base)
  }

  /** Decoding what `encode` produced yields the very message that was encoded. */
  lemma EnvelopeRoundTrip(m: Message, typeMap: map<string, MsgType>)
    requires WellFormed(m)
    requires Encode(m, typeMap).Ok?
    ensures Decode(Encode(m, typeMap).value, typeMap) == Ok(m)
  {
    PayloadRoundTrip(m);
    var e := Encode(m, typeMap).value;
    if m.CustomMsg? {
      assert ParseTag(e.tag) == Some(CustomTag);
    } else {
      BuiltinTagMatchesType(m);
      TagRoundTrip(BuiltinTag(m).value, e.tag);
    }
  }

  /** A message other than the five built-ins encodes exactly when its type is registered. */
  lemma EncodeFailsIffUnregistered(m: Message, typeMap: map<string, MsgType>)
    ensures Encode(m, typeMap) == Err(UnregisteredType) <==>
            m.CustomMsg? && forall k :: k in typeMap ==> typeMap[k] != TypeOf(m)
  {
  }

  /** How built-in messages are written never depends on the registry, however it was changed. */
  lemma EncodeBuiltinIgnoresRegistry(m: Message, typeMap1: map<string, MsgType>, typeMap2: map<string, MsgType>)
    requires !m.CustomMsg?
    ensures Encode(m, typeMap1) == Encode(m, typeMap2)
  {
  }

  /** How built-in tags are read never depends on the registry, however it was changed. */
  lemma DecodeBuiltinIgnoresRegistry(e: Envelope, typeMap1: map<string, MsgType>, typeMap2: map<string, MsgType>)
    requires e.tag != TagName(CustomTag)
    ensures Decode(e, typeMap1) == Decode(e, typeMap2)
  {
  }

  /** After registering a custom message's type under any identifier, it encodes and round-trips. */
  lemma RegisteredCustomRoundTrips(m: Message, typeMap: map<string, MsgType>, typeIdentifier: string)
    requires m.CustomMsg? && ValidCustom(m.custom)
    ensures Encode(m, typeMap[typeIdentifier := TypeOf(m)]).Ok?
    ensures Decode(Encode(m, typeMap[typeIdentifier := TypeOf(m)]).value, typeMap[typeIdentifier := TypeOf(m)]) == Ok(m)
  {
    var tm := typeMap[typeIdentifier := TypeOf(m)];
    assert typeIdentifier in tm && tm[typeIdentifier] == TypeOf(m);
    EnvelopeRoundTrip(m, tm);
  }
}
