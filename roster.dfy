/**
 * The roster: the ordered list of players, upserted by id as player messages arrive, and
 * the tracked local player with its two local edits.
 */
module Roster {
  import opened Wrappers
  import opened Values
  import opened PlayerModel
  import opened Messages
  import opened Handlers
  import opened Session

  /** The ids of the roster, in order. */
  function Ids(players: seq<Player>): (ids: seq<Uuid>)
    ensures |ids| == |players| && forall i :: 0 <= i < |players| ==> ids[i] == players[i].id
  {
    seq(|players|, i requires 0 <= i < |players| => players[i].id)
  }

  /** `firstIndex(where: { $0.id == id })`: the first-index search over the roster's ids. */
  function FindById(players: seq<Player>, id: Uuid): (r: Option<nat>)
    ensures r.Some? ==> r.value < |players| && players[r.value].id == id &&
                        forall j :: 0 <= j < r.value ==> players[j].id != id
    ensures r.None? <==> forall j :: 0 <= j < |players| ==> players[j].id != id
  {
    FirstIndexOf(Ids(players), id)
  }

  /** The roster after a player message: the record with its id replaced, or the player appended. */
  function Upsert(players: seq<Player>, p: Player): seq<Player> {
    match FindById(players, p.id)
    case Some(i) => players[i := p]
    case None => players + [p]
  }

  predicate UniqueIds(players: seq<Player>) {
    forall i, j :: 0 <= i < j < |players| ==> players[i].id != players[j].id
  }

  /** A known id: its first record is replaced where it stands, and the length is unchanged. */
  lemma UpsertReplacesInPlace(players: seq<Player>, p: Player, k: nat)
    requires k < |players| && players[k].id == p.id
    ensures |Upsert(players, p)| == |players|
    ensures exists i :: 0 <= i <= k && Upsert(players, p)[i] == p &&
                        forall j :: 0 <= j < |players| && j != i ==> Upsert(players, p)[j] == players[j]
  {
    var i := FindById(players, p.id).value;
    assert Upsert(players, p)[i] == p;
  }

  /** An unknown id: the player is appended at the end. */
  lemma UpsertAppendsNew(players: seq<Player>, p: Player)
    requires forall j :: 0 <= j < |players| ==> players[j].id != p.id
    ensures Upsert(players, p) == players + [p]
  {
  }

  /** Records under other ids keep their value and their position; only `p` is added. */
  lemma UpsertKeepsOthers(players: seq<Player>, p: Player)
    ensures |players| <= |Upsert(players, p)| <= |players| + 1
    ensures forall j :: 0 <= j < |players| && players[j].id != p.id ==> Upsert(players, p)[j] == players[j]
    ensures forall q :: q in Upsert(players, p) ==> q == p || q in players
    ensures p in Upsert(players, p)
  {
    match FindById(players, p.id)
    case None => assert Upsert(players, p)[|players|] == p;
    case Some(i) => assert Upsert(players, p)[i] == p;
  }

  /** Ids stay unique. */
  lemma UpsertKeepsUniqueIds(players: seq<Player>, p: Player)
    requires UniqueIds(players)
    ensures UniqueIds(Upsert(players, p))
  {
  }

  /** Delivering the same player message twice leaves the roster as delivering it once. */
  lemma UpsertIdempotent(players: seq<Player>, p: Player)
    ensures Upsert(Upsert(players, p), p) == Upsert(players, p)
  {
    var once := Upsert(players, p);
    match FindById(players, p.id)
    case Some(i) =>
      assert once[i] == p;
      var i2 := FindById(once, p.id).value;
      assert i2 == i;
      assert once[i2 := p] == once;
    case None =>
      assert once[|players|].id == p.id;
      var i2 := FindById(once, p.id).value;
      assert i2 == |players|;
      assert once[i2 := p] == once;
  }

  /** `if player.id == localPlayer?.id`: only a tracked local player of the same id is refreshed. */
  function RefreshLocal(local: Option<Player>, p: Player): (r: Option<Player>)
    ensures r.None? <==> local.None?
    ensures r == Some(p) || r == local
    ensures r != local ==> local.Some? && local.value.id == p.id
    ensures local.Some? && local.value.id == p.id ==> r == Some(p)
  {
    if local.Some? && p.id == local.value.id then Some(p) else local
  }

  /**
   * The player `updateLocalPlayer` sends: a new one when there is none (score 0, inactive,
   * ready, on a vision device, seat 0), else the local player with only its name changed.
   */
  function RenamedLocal(local: Option<Player>, name: string, newId: Uuid, newMessageId: string): (p: Player)
    ensures p.name == name
    ensures local.Some? ==> p.id == local.value.id && p.(name := local.value.name) == local.value
    ensures local.None? ==> p.id == newId && p.score == 0 && !p.isActive && p.isReady &&
                            p.isVisionDevice && p.playerSeat == 0 && p.windowId == "" && p.messageId == newMessageId
  {
    match local
    case None => NewPlayer(name, newId, 0, false, true, true, 0, newMessageId)
    case Some(player) => player.(name := name)
  }

  /** A player with only its ready flag changed. */
  function WithReady(player: Player, isReady: bool): (p: Player)
    ensures p.isReady == isReady && p.(isReady := player.isReady) == player
  {
    player.(isReady := isReady)
  }

  /** `PlayerManager`: the roster as the process sees it. */
  class PlayerManager {
    var players: seq<Player>
    var localPlayer: Option<Player>
    /** The sends the edits hand to the session coordinator, oldest first. */
    var outbox: seq<SendRequest>

    /** The private initializer: an empty roster whose player handler is registered. */
    constructor(registry: MessageHandlerRegistry)
      modifies registry
      ensures players == [] && localPlayer == None && outbox == []
      ensures registry.handlers == old(registry.handlers)["Player" := AnyMessageHandler(PlayerMessageHandler)]
    {
      players := [];
      localPlayer := None;
      outbox := [];
      new;
      registry.Register(PlayerMessageHandler);
    }

    /** Upserts the player by id and refreshes the local player when the ids match. */
    method HandlePlayerMessage(player: Player)
      modifies this
      ensures players == Upsert(old(players), player)
      ensures localPlayer == RefreshLocal(old(localPlayer), player)
      ensures outbox == old(outbox)
      ensures UniqueIds(old(players)) ==> UniqueIds(players)
    {
      if UniqueIds(players) {
        UpsertKeepsUniqueIds(players, player);
      }
      var index := FindById(players, player.id);
      if index.Some? {
        players := players[index.value := player];
      } else {
        players := players + [player];
      }
      if localPlayer.Some? && player.id == localPlayer.value.id {
        localPlayer := Some(player);
      }
    }

    /** `PlayerMessageHandler.handle`: a call on the roster's handler forwards its player unchanged. */
    method HandleInvocation(call: Invocation)
      modifies this
      ensures call.handler.PlayerMessageHandler? && call.message.PlayerMsg? ==>
                players == Upsert(old(players), call.message.player) &&
                localPlayer == RefreshLocal(old(localPlayer), call.message.player)
      ensures !(call.handler.PlayerMessageHandler? && call.message.PlayerMsg?) ==>
                players == old(players) && localPlayer == old(localPlayer)
      ensures outbox == old(outbox)
      ensures UniqueIds(old(players)) ==> UniqueIds(players)
    {
      if call.handler.PlayerMessageHandler? && call.message.PlayerMsg? {
        HandlePlayerMessage(call.message.player);
      }
    }

    /** Renames the local player, creating it when there is none, and sends it with a local echo. */
    method UpdateLocalPlayer(name: string, newId: Uuid, newMessageId: string)
      modifies this
      ensures localPlayer == Some(RenamedLocal(old(localPlayer), name, newId, newMessageId))
      ensures outbox == old(outbox) + [SendRequest(PlayerMsg(localPlayer.value), None, true)]
      ensures players == old(players)
    {
      if localPlayer.None? {
        var newPlayer := NewPlayer(name, newId, 0, false, true, true, 0, newMessageId);
        localPlayer := Some(newPlayer);
        outbox := outbox + [SendRequest(PlayerMsg(newPlayer), None, true)];
        return;
      }
      var player := localPlayer.value;
      player := player.(name := name);
      localPlayer := Some(player);
      outbox := outbox + [SendRequest(PlayerMsg(player), None, true)];
    }

    /** Sets the local player's ready flag and sends it; without a local player nothing happens. */
    method SetLocalPlayerReady(isReady: bool)
      modifies this
      ensures old(localPlayer).None? ==> localPlayer == None && outbox == old(outbox)
      ensures old(localPlayer).Some? ==>
                localPlayer == Some(WithReady(old(localPlayer).value, isReady)) &&
                outbox == old(outbox) + [SendRequest(PlayerMsg(localPlayer.value), None, true)]
      ensures players == old(players)
    {
      if localPlayer.None? {
        return;
      }
      var player := localPlayer.value;
      player := player.(isReady := isReady);
      localPlayer := Some(player);
      outbox := outbox + [SendRequest(PlayerMsg(player), None, true)];
    }
  }
}
