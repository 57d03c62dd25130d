/** The player record exchanged between participants, and the static `Player.local`. */
module PlayerModel {
  import opened Wrappers
  import opened Values

  datatype Player = Player(
    windowId: string,
    messageId: string,
    name: string,
    id: Uuid,
    score: Int64,
    isActive: bool,
    isReady: bool,
    playerSeat: Int64,
    isVisionDevice: bool)

  /**
   * The memberwise initializer. `windowId` takes its default "" and `messageId` the
   * freshly generated UUID string, which the model receives as a parameter.
   */
  function NewPlayer(name: string, id: Uuid, score: Int64, isActive: bool, isReady: bool,
                     isVisionDevice: bool, playerSeat: Int64, messageId: string): (p: Player)
    ensures p.name == name && p.id == id && p.score == score && p.isActive == isActive
    ensures p.isReady == isReady && p.isVisionDevice == isVisionDevice && p.playerSeat == playerSeat
    ensures p.windowId == "" && p.messageId == messageId
  {
    Player("", messageId, name, id, score, isActive, isReady, playerSeat, isVisionDevice)
  }

  /** Swift's `==` on players: the identity fields only. */
  predicate PlayerEq(a: Player, b: Player) {
    a.name == b.name && a.id == b.id
  }

  /** Equality holds exactly when the two players differ in nothing but the non-identity fields. */
  lemma PlayerEqIgnoresState(a: Player, b: Player)
    ensures PlayerEq(a, b) <==>
            b == a.(windowId := b.windowId, messageId := b.messageId, score := b.score,
                    isActive := b.isActive, isReady := b.isReady, playerSeat := b.playerSeat,
                    isVisionDevice := b.isVisionDevice)
  {
  }

  /** Player equality is an equivalence relation. */
  lemma PlayerEqIsEquivalence(a: Player, b: Player, c: Player)
    ensures PlayerEq(a, a)
    ensures PlayerEq(a, b) ==> PlayerEq(b, a)
    ensures PlayerEq(a, b) && PlayerEq(b, c) ==> PlayerEq(a, c)
  {
  }

  /** The synthesized `Encodable` conformance: one key per stored property. */
  function PlayerPayload(p: Player): Value {
    Object(map[
      "windowId" := Str(p.windowId),
      "messageId" := Str(p.messageId),
      "name" := Str(p.name),
      "id" := UuidValue(p.id),
      "score" := Int(p.score as int),
      "isActive" := Bool(p.isActive),
      "isReady" := Bool(p.isReady),
      "playerSeat" := Int(p.playerSeat as int),
      "isVisionDevice" := Bool(p.isVisionDevice)])
  }

  /** The synthesized `Decodable` conformance: every key is required, read in declaration order. */
  function DecodePlayer(v: Value): (r: Result<Player, DecodeError>)
    ensures r.Ok? ==> v.Object? && AgreesWith(v.fields, PlayerPayload(r.value).fields)
  {
    if !v.Object? then Err(NotAnObject)
    else
      var f := v.fields;
      var windowId :- GetString(f, "windowId");
      var messageId :- GetString(f, "messageId");
      var name :- GetString(f, "name");
      var id :- GetUuid(f, "id");
      var score :- GetInt64(f, "score");
      var isActive :- GetBool(f, "isActive");
      var isReady :- GetBool(f, "isReady");
      var playerSeat :- GetInt64(f, "playerSeat");
      var isVisionDevice :- GetBool(f, "isVisionDevice");
      var p := Player(windowId, messageId, name, id, score, isActive, isReady, playerSeat, isVisionDevice);
      PayloadAgrees(f, p);
      Ok(p)
  }

  lemma PayloadAgrees(f: map<string, Value>, p: Player)
    requires "windowId" in f && f["windowId"] == Str(p.windowId)
    requires "messageId" in f && f["messageId"] == Str(p.messageId)
    requires "name" in f && f["name"] == Str(p.name)
    requires "id" in f && f["id"] == UuidValue(p.id)
    requires "score" in f && f["score"] == Int(p.score as int)
    requires "isActive" in f && f["isActive"] == Bool(p.isActive)
    requires "isReady" in f && f["isReady"] == Bool(p.isReady)
    requires "playerSeat" in f && f["playerSeat"] == Int(p.playerSeat as int)
    requires "isVisionDevice" in f && f["isVisionDevice"] == Bool(p.isVisionDevice)
    ensures AgreesWith(f, PlayerPayload(p).fields)
  {
  }

  lemma PlayerRoundTrip(p: Player)
    ensures DecodePlayer(PlayerPayload(p)) == Ok(p)
  {
  }

  /** The static `Player.local`, "me"; it starts as nil. */
  class LocalPlayerSlot {
    var local: Option<Player>

    constructor()
      ensures local == None
    {
      local := None;
    }
  }
}
