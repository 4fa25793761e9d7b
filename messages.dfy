/** The protocol vocabulary of backend/src/message.rs: the messages a
    client sends over the websocket, the responses the server pushes, and
    how they are parsed and sent. */
module Messages {
  import opened Wrappers
  import opened Cards
  import opened Transport

  datatype DeckType = Standard | Custom(cards: seq<Card>)

  /** `capacity` is a `u32` in the source. */
  datatype DeckOptions = DeckOptions(faceDown: bool, deckType: DeckType, capacity: Option<nat>)

  datatype WebsocketRequest =
    | CreateGame(name: string, deckOptions: DeckOptions)
    | DrawCardToHand(deck: string)
    | JoinGame(gameId: string)
    | LeaveGame
    | Ping

  datatype WebsocketResponse =
    | GameState(gameId: string, owner: string, connectedPlayers: seq<string>, visibleDecks: seq<string>)
    | DeckState(deckId: string, visibleCards: seq<(nat, Card)>)
    | PlayerState(gameId: string, hand: seq<Card>)
    | Error(error: string, message: string)
    | CloseGame
    | Success
    | Pong

  /** `WebsocketRequest::from_request`: a body that does not parse and a
      missing body are errors with fixed texts; a parsed message is handed
      back as it is. */
  function FromRequest(payload: JsonPayload<WebsocketRequest>): (r: Result<WebsocketRequest, string>)
    ensures r.Ok? <==> payload.Parsed?
    ensures r.Ok? ==> r.value == payload.message
    ensures payload.Unparsable? ==> r == Err("error parsing json")
    ensures payload.Missing? ==> r == Err("missing payload")
  {
    match payload
    case Unparsable => Err("error parsing json")
    case Missing => Err("missing payload")
    case Parsed(msg) => Ok(msg)
  }

  /** `From<WebsocketError> for WebsocketResponse`: an `Error` response
      whose `message` is the error's display text and whose `error` is its
      tag. */
  function ErrorResponse(e: WebsocketError, display: WebsocketError -> string, tag: WebsocketError -> string): (r: WebsocketResponse)
    ensures r.Error? && r.message == display(e) && r.error == tag(e)
  {
    Error(tag(e), display(e))
  }

  /** `WebsocketResponse::send`: one post of the serialised response to one
      connection; a refused delivery is passed back to the caller. */
  method Send(gw: Gateway, response: WebsocketResponse, serialize: WebsocketResponse -> string,
              connectionId: string, accepts: string -> bool)
    returns (r: Result<(), string>)
    modifies gw
    ensures gw.posts == old(gw.posts) + [Post(connectionId, serialize(response), accepts(connectionId))]
    ensures gw.evictions == old(gw.evictions)
    ensures r.Ok? <==> accepts(connectionId)
    ensures !r.Panic?
  {
    var ok := gw.PostToConnection(connectionId, serialize(response), accepts);
    if !ok {
      return Err("post to connection failed");
    }
    r := Ok(());
  }

  /** The index of the first connection that refuses delivery, or the
      number of connections when all accept. */
  function FirstRefusal(connections: seq<string>, accepts: string -> bool): (k: nat)
    ensures k <= |connections|
    ensures forall i :: 0 <= i < k ==> accepts(connections[i])
    ensures k < |connections| ==> !accepts(connections[k])
  {
    if connections == [] then 0
    else if !accepts(connections[0]) then 0
    else 1 + FirstRefusal(connections[1..], accepts)
  }

  /** The posts of one blob to each of `connections`, in order. */
  function PostsOf(connections: seq<string>, data: string, accepts: string -> bool): (ps: seq<Post>)
    ensures |ps| == |connections|
    ensures forall i :: 0 <= i < |ps| ==> ps[i] == Post(connections[i], data, accepts(connections[i]))
  {
    seq(|connections|, i requires 0 <= i < |connections| => Post(connections[i], data, accepts(connections[i])))
  }

  /** `WebsocketResponse::send_batch`: serialises once, posts to the
      connections in order, and stops at the first refused delivery, which
      it passes back; later connections are not attempted. */
  method SendBatch(gw: Gateway, response: WebsocketResponse, serialize: WebsocketResponse -> string,
                   connections: seq<string>, accepts: string -> bool)
    returns (r: Result<(), string>)
    modifies gw
    ensures var k := FirstRefusal(connections, accepts);
      && (r.Ok? <==> k == |connections|)
      && gw.posts == old(gw.posts) + PostsOf(connections[..if k < |connections| then k + 1 else k], serialize(response), accepts)
    ensures gw.evictions == old(gw.evictions)
    ensures !r.Panic?
  {
    var blob := serialize(response);
    ghost var k := FirstRefusal(connections, accepts);
    var i := 0;
    while i < |connections|
      invariant 0 <= i <= k
      invariant gw.posts == old(gw.posts) + PostsOf(connections[..i], blob, accepts)
      invariant gw.evictions == old(gw.evictions)
    {
      var ok := gw.PostToConnection(connections[i], blob, accepts);
      assert connections[..i + 1] == connections[..i] + [connections[i]];
      if !ok {
        return Err("post to connection failed");
      }
      i := i + 1;
    }
    r := Ok(());
  }

  /** `send_batch` fails exactly when some connection refuses delivery. */
  lemma SendBatchFailsIffSomeRefuses(connections: seq<string>, accepts: string -> bool)
    ensures FirstRefusal(connections, accepts) < |connections| <==> exists i :: 0 <= i < |connections| && !accepts(connections[i])
  {
  }
}
