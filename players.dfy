/** The player record of backend/src/game/player.rs and the operations on
    it: creating and storing it, reporting its state, finding its game, and
    choosing the connection its state goes to. */
module Players {
  import opened Wrappers
  import opened Cards
  import opened Transport
  import Messages
  import opened Records
  import opened Store

  /** `Player::new`: a player bound to `gameId` with an empty hand, stored
      under its own id. The write is the only change to the table. */
  method NewPlayer(store: Table, playerId: string, gameId: string) returns (p: PlayerRecord)
    requires store.Valid()
    modifies store
    ensures p.playerId == playerId && p.gameId == gameId && p.hand == []
    ensures store.Valid()
    ensures store.entries == old(store.entries)[Key(PlayerKey, playerId) := PlayerValue(p)]
  {
    p := PlayerRecord(playerId, gameId, []);
    store.Put(PlayerKey, p.playerId, PlayerValue(p));
  }

  /** A stored player reads back as itself under its own id, and storing
      it leaves every other entry readable as before. */
  lemma NewPlayerReadsBack(m: map<string, Value>, p: PlayerRecord, kind: EntityKind, key: string)
    ensures Lookup(m[Key(PlayerKey, p.playerId) := PlayerValue(p)], PlayerKey, p.playerId) == Ok(PlayerValue(p))
    ensures kind != PlayerKey || key != p.playerId ==>
      Lookup(m[Key(PlayerKey, p.playerId) := PlayerValue(p)], kind, key) == Lookup(m, kind, key)
  {
    GetAfterPut(m, PlayerKey, p.playerId, PlayerValue(p));
    if kind != PlayerKey || key != p.playerId {
      PutLeavesOthers(m, PlayerKey, p.playerId, PlayerValue(p), kind, key);
    }
  }

  /** `Player::state`: the player's game and exactly its hand, in order. */
  function State(p: PlayerRecord): (r: Messages.WebsocketResponse)
    ensures r.PlayerState? && r.gameId == p.gameId && r.hand == p.hand
  {
    Messages.PlayerState(p.gameId, p.hand)
  }

  /** `Player::get_game`: the stored game the player is bound to; a missing
      (or unreadable) game record is a panic. */
  function GetGame(m: map<string, Value>, p: PlayerRecord): (r: Result<GameRecord, string>)
    ensures r.Panic? <==> !Lookup(m, GameKey, p.gameId).Ok?
    ensures r.Panic? ==> r.reason == "player object in database after game destroyed"
    ensures r.Ok? ==> m[Key(GameKey, p.gameId)] == GameValue(r.value)
    ensures !r.Err?
  {
    match Lookup(m, GameKey, p.gameId)
    case Ok(v) => Ok(v.game)
    case _ => Panic("player object in database after game destroyed")
  }

  /** The connection choice of `Player::send_state`: the supplied id when
      there is one, otherwise the Connection entry registered for the
      player; with neither, a panic. */
  function SendStateTarget(m: map<string, Value>, p: PlayerRecord, connId: Option<string>): (r: Result<string, string>)
    ensures connId.Some? ==> r == Ok(connId.value)
    ensures connId.None? && Lookup(m, ConnectionKey, p.playerId).Ok? ==>
      r == Ok(m[Key(ConnectionKey, p.playerId)].text)
    ensures connId.None? && !Lookup(m, ConnectionKey, p.playerId).Ok? ==> r == Panic("connection not found")
  {
    if connId.Some? then Ok(connId.value)
    else match Lookup(m, ConnectionKey, p.playerId)
      case Ok(v) => Ok(v.text)
      case _ => Panic("connection not found")
  }

  /** `Player::send_state`: posts the player's state to the chosen
      connection and passes a refused delivery back. */
  method SendState(store: Table, gw: Gateway, p: PlayerRecord, connId: Option<string>,
                   serialize: Messages.WebsocketResponse -> string, accepts: string -> bool)
    returns (r: Result<(), string>)
    modifies gw
    ensures var target := SendStateTarget(store.entries, p, connId);
      if target.Ok? then
        && gw.posts == old(gw.posts) + [Post(target.value, serialize(State(p)), accepts(target.value))]
        && (r.Ok? <==> accepts(target.value))
        && !r.Panic?
      else
        gw.posts == old(gw.posts) && r.Panic?
    ensures gw.evictions == old(gw.evictions)
  {
    var target := SendStateTarget(store.entries, p, connId);
    if !target.Ok? {
      return Panic("connection not found");
    }
    r := Messages.Send(gw, State(p), serialize, target.value, accepts);
  }

  /** After the game record is deleted, a player still stored for it
      panics on `get_game`. */
  lemma GetGameAfterDestroyPanics(m: map<string, Value>, p: PlayerRecord)
    ensures GetGame(m - {Key(GameKey, p.gameId)}, p).Panic?
  {
  }
}
