/** The websocket Lambda of backend/src/bin/websocket_handler.rs: the
    `$connect`/`$disconnect` routes that keep the Connection registry (one
    connection id per authorised identity) and the `$default` route that
    dispatches a message. One event is handled at a time. */
module WebsocketHandler {
  import opened Wrappers
  import opened Transport
  import opened Records
  import opened Store
  import Messages
  import Decks
  import Games

  /** The request context Lambda hands over: a websocket context with the
      authoriser's `uuid` field, the route key, the connection id and the
      JSON body, or any other kind of context. */
  datatype RequestContext =
    | WebSocket(uuid: Option<string>, routeKey: Option<string>, connectionId: Option<string>,
                payload: JsonPayload<Messages.WebsocketRequest>)
    | OtherContext

  /** What the handler draws from outside the modelled code: the id
      `Uuid::new_v4` gives a new game, the system clock in seconds since the
      epoch, the deck `Deck::shuffled52` deals, whether a deck is face up,
      the JSON text of the game and player states, and whether API Gateway
      accepts closing a connection and posting to one. */
  datatype Environment = Environment(newGameId: string, clock: int, initialDeck: Decks.DeckRecord,
                                     faceUp: Decks.DeckRecord -> bool,
                                     serializeGame: Games.GameStateView -> string,
                                     serializeHand: Games.PlayerStateView -> string,
                                     evictAccepts: string -> bool, postAccepts: string -> bool)

  const UNWRAP_NONE := "called `Option::unwrap()` on a `None` value"

  /** The connection `$connect` asks API Gateway to close: the one already
      registered for the identity, if any. */
  function Evicted(m: map<string, Value>, uuid: string): (e: seq<string>)
    ensures |e| <= 1
    ensures e != [] <==> Key(ConnectionKey, uuid) in m && m[Key(ConnectionKey, uuid)].Text?
    ensures e != [] ==> m[Key(ConnectionKey, uuid)] == Text(e[0])
  {
    match Lookup(m, ConnectionKey, uuid)
    case Ok(v) => [v.text]
    case _ => []
  }

  /** The registry after `$disconnect` of `connectionId`: the identity's
      entry is removed only while it still holds that connection id. */
  function Disconnected(m: map<string, Value>, uuid: string, connectionId: string): (r: map<string, Value>)
    ensures Key(ConnectionKey, uuid) in m && m[Key(ConnectionKey, uuid)] == Text(connectionId) ==>
      r == m - {Key(ConnectionKey, uuid)}
    ensures !(Key(ConnectionKey, uuid) in m && m[Key(ConnectionKey, uuid)] == Text(connectionId)) ==> r == m
  {
    DeleteOutcome(m, ConnectionKey, uuid, Some(Text(connectionId))).1
  }

  /** The records `CreateGame` writes: the new game, owned by the caller
      with the caller as only player, then the caller's player record. */
  function Created(m: map<string, Value>, uuid: string, env: Environment): map<string, Value>
    requires env.clock >= 0
  {
    m[Key(GameKey, env.newGameId) := GameValue(GameRecord(env.newGameId, env.clock, uuid, [env.initialDeck], [uuid]))]
     [Key(PlayerKey, uuid) := PlayerValue(PlayerRecord(uuid, env.newGameId, []))]
  }

  /** Whether the event is a `CreateGame` message on the `$default`
      route, the only request that posts to connections. */
  predicate CreatesGame(ctx: RequestContext)
  {
    ctx.WebSocket? && ctx.uuid.Some? && ctx.routeKey == Some("$default")
    && ctx.payload.Parsed? && ctx.payload.message.CreateGame?
  }

  /** Writing a new game and its owner's player record leaves every
      Connection entry as it was. */
  lemma CreatedKeepsConnections(m: map<string, Value>, uuid: string, env: Environment, who: string)
    requires env.clock >= 0
    ensures Lookup(Created(m, uuid, env), ConnectionKey, who) == Lookup(m, ConnectionKey, who)
  {
    var g := GameValue(GameRecord(env.newGameId, env.clock, uuid, [env.initialDeck], [uuid]));
    PutLeavesOthers(m, GameKey, env.newGameId, g, ConnectionKey, who);
    PutLeavesOthers(m[Key(GameKey, env.newGameId) := g], PlayerKey, uuid,
                    PlayerValue(PlayerRecord(uuid, env.newGameId, [])), ConnectionKey, who);
  }

  /** `websocket_handler`. */
  method HandleEvent(store: Table, gw: Gateway, ctx: RequestContext, env: Environment)
    returns (r: Result<string, string>)
    requires store.Valid()
    modifies store, gw
    ensures store.Valid()
    ensures !CreatesGame(ctx) ==> gw.posts == old(gw.posts)
    ensures ctx.OtherContext? ==> r == Err("expected websocket")
    ensures ctx.WebSocket? && ctx.uuid.None? ==> r == Panic(UNWRAP_NONE)
    ensures ctx.WebSocket? && ctx.uuid.Some? && ctx.routeKey.None? ==> r == Panic("no route key")
    ensures !(ctx.WebSocket? && ctx.uuid.Some? && ctx.routeKey.Some? && ctx.routeKey.value == "$connect") ==>
      gw.evictions == old(gw.evictions)
    ensures !(ctx.WebSocket? && ctx.uuid.Some? && ctx.routeKey.Some?) ==> store.entries == old(store.entries)
    ensures ctx.WebSocket? && ctx.uuid.Some? && ctx.routeKey.Some? ==>
      var uuid := ctx.uuid.value;
      match ctx.routeKey.value
      case "$connect" =>
        && gw.evictions == old(gw.evictions) + Evicted(old(store.entries), uuid)
        && (ctx.connectionId.None? ==> r == Panic(UNWRAP_NONE) && store.entries == old(store.entries))
        && (ctx.connectionId.Some? ==>
              r == Ok("handled request") &&
              store.entries == old(store.entries)[Key(ConnectionKey, uuid) := Text(ctx.connectionId.value)])
      case "$disconnect" =>
        && (ctx.connectionId.None? ==> r == Panic(UNWRAP_NONE) && store.entries == old(store.entries))
        && (ctx.connectionId.Some? ==>
              r == Ok("handled request") &&
              store.entries == Disconnected(old(store.entries), uuid, ctx.connectionId.value))
      case "$default" =>
        (match ctx.payload
        case Unparsable => r == Err("error parsing json") && store.entries == old(store.entries)
        case Missing => r == Err("missing payload") && store.entries == old(store.entries)
        case Parsed(Ping) => r == Ok("handled request") && store.entries == old(store.entries)
        case Parsed(CreateGame(_, _)) =>
          if env.clock < 0 then r.Err? && store.entries == old(store.entries) && gw.posts == old(gw.posts)
          else
            && store.entries == Created(old(store.entries), uuid, env)
            && (Lookup(old(store.entries), ConnectionKey, uuid).Ok? ==>
                  var c := old(store.entries)[Key(ConnectionKey, uuid)].text;
                  && r == Ok("handled request")
                  && gw.posts == old(gw.posts)
                       + [Post(c, env.serializeGame(Games.GameStateView(Games.VisibleDecks([env.initialDeck], env.faceUp))),
                               env.postAccepts(c)),
                          Post(c, env.serializeHand(Games.PlayerStateView([])), env.postAccepts(c))])
            && (!Lookup(old(store.entries), ConnectionKey, uuid).Ok? ==> r.Panic? && gw.posts == old(gw.posts))
        case Parsed(_) => r == Panic("not yet implemented") && store.entries == old(store.entries))
      case _ => r == Err("unhandled message") && store.entries == old(store.entries)
  {
    if ctx.OtherContext? {
      return Err("expected websocket");
    }
    if ctx.uuid.None? {
      return Panic(UNWRAP_NONE);
    }
    var uuid := ctx.uuid.value;
    if ctx.routeKey.None? {
      return Panic("no route key");
    }
    var route := ctx.routeKey.value;
    if route == "$connect" {
      var current := store.Get(ConnectionKey, uuid);
      if current.Ok? {
        // A failed close is ignored: the old connection is left hanging.
        var closed := gw.DeleteConnection(current.value.text, env.evictAccepts);
      }
      if ctx.connectionId.None? {
        return Panic(UNWRAP_NONE);
      }
      store.Put(ConnectionKey, uuid, Text(ctx.connectionId.value));
    } else if route == "$disconnect" {
      if ctx.connectionId.None? {
        return Panic(UNWRAP_NONE);
      }
      var deleted := store.Delete(ConnectionKey, uuid, Some(Text(ctx.connectionId.value)));
    } else if route == "$default" {
      var message := Messages.FromRequest(ctx.payload);
      if !message.Ok? {
        return Err(if ctx.payload.Unparsable? then "error parsing json" else "missing payload");
      }
      match message.value {
        case CreateGame(_, _) =>
          var created := Games.Game.New(store, uuid, env.newGameId, env.clock, env.initialDeck);
          if !created.Ok? {
            return Err(created.error);
          }
          var (game, player) := created.value;
          CreatedKeepsConnections(old(store.entries), uuid, env, uuid);
          Games.ConnectedPrefixStep(store.entries, game.players);
          var sentGame := game.SendState(store, gw, env.faceUp, env.serializeGame, env.postAccepts);
          if !sentGame.Ok? {
            return Panic(Games.UNWRAP_ERR);
          }
          var sentHand := Games.SendHand(store, gw, player, env.serializeHand, env.postAccepts);
          if !sentHand.Ok? {
            return Panic("connection not found");
          }
        case Ping =>
        case _ =>
          return Panic("not yet implemented");
      }
    } else {
      return Err("unhandled message");
    }
    r := Ok("handled request");
  }

  /** After `$connect`, the identity is registered with the new connection
      id, whether or not closing the old one succeeded, and every other
      identity's registration reads as before. */
  lemma ConnectRegisters(m: map<string, Value>, uuid: string, connectionId: string, other: string)
    ensures Lookup(m[Key(ConnectionKey, uuid) := Text(connectionId)], ConnectionKey, uuid) == Ok(Text(connectionId))
    ensures other != uuid ==>
      Lookup(m[Key(ConnectionKey, uuid) := Text(connectionId)], ConnectionKey, other) == Lookup(m, ConnectionKey, other)
  {
    GetAfterPut(m, ConnectionKey, uuid, Text(connectionId));
    if other != uuid {
      PutLeavesOthers(m, ConnectionKey, uuid, Text(connectionId), ConnectionKey, other);
    }
  }

  /** A reconnect evicts exactly the connection registered before it. */
  lemma ReconnectEvictsPrevious(m: map<string, Value>, uuid: string, first: string)
    ensures Evicted(m[Key(ConnectionKey, uuid) := Text(first)], uuid) == [first]
  {
    GetAfterPut(m, ConnectionKey, uuid, Text(first));
  }

  /** A late `$disconnect` of an older connection leaves the newer one
      registered. */
  lemma LateDisconnectKeepsNewer(m: map<string, Value>, uuid: string, older: string, newer: string)
    requires older != newer
    ensures Lookup(Disconnected(m[Key(ConnectionKey, uuid) := Text(newer)], uuid, older), ConnectionKey, uuid)
      == Ok(Text(newer))
  {
    GetAfterPut(m, ConnectionKey, uuid, Text(newer));
  }

  /** `$disconnect` of the registered connection unregisters the
      identity. */
  lemma DisconnectUnregisters(m: map<string, Value>, uuid: string, connectionId: string)
    ensures Lookup(Disconnected(m[Key(ConnectionKey, uuid) := Text(connectionId)], uuid, connectionId), ConnectionKey, uuid)
      == Err("item does not exist")
  {
  }

  /** `CreateGame` leaves a game owned by the caller, with the caller as
      its only player, and the caller's player record bound to it. */
  lemma CreateGameOwnedByCaller(m: map<string, Value>, uuid: string, env: Environment)
    requires env.clock >= 0
    ensures Lookup(Created(m, uuid, env), GameKey, env.newGameId).Ok?
    ensures var g := Created(m, uuid, env)[Key(GameKey, env.newGameId)].game;
      g.owner == uuid && g.players == [uuid] && g.id == env.newGameId
    ensures Created(m, uuid, env)[Key(PlayerKey, uuid)] == PlayerValue(PlayerRecord(uuid, env.newGameId, []))
  {
    Games.NewGameReadsBack(m, GameRecord(env.newGameId, env.clock, uuid, [env.initialDeck], [uuid]),
                           PlayerRecord(uuid, env.newGameId, []));
  }
}
