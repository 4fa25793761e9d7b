/** The protocol vocabulary of backend/src/requests.rs, the later revision
    of the websocket protocol: stack-level requests, error conversion, and
    the `Services` send helpers. Stacks themselves (`StackId`,
    `StackState`) are defined in a part of the game engine that is not part
    of this model; here a stack id is its string and a stack's state its
    serialised form. */
module Requests {
  import opened Wrappers
  import opened Cards
  import opened Transport

  type StackId = string
  type StackState = string

  /** A board position: a pair of `i8`. */
  type Coordinate = x: int | -128 <= x < 128
  type Position = (Coordinate, Coordinate)

  datatype WebsocketRequest =
    | JoinGame
    | TakeCard(stack: StackId)
    | PutCard(handIndex: nat, position: Position, faceDown: bool)
    | FlipCard(stack: StackId)
    | FlipStack(stack: StackId)
    | MoveCard(stack: StackId, position: Position)
    | MoveStack(stack: StackId, position: Position)
    | Shuffle(stack: StackId)
    | Deal(stack: StackId)
    | GivePlayer(handIndex: nat, tradeTo: string)
    | Reset
    | LeaveGame
    | Ping

  datatype DeckType = Standard | Custom(stacks: seq<seq<Card>>)

  datatype WebsocketResponse =
    | GameState(gameId: string, owner: string, connectedPlayers: seq<string>, stacks: seq<StackState>)
    | PlayerState(gameId: string, hand: seq<Card>)
    | Error(error: string, message: string)
    | CloseGame
    | Success
    | NoResponse
    | Pong

  /** `TryFrom<Request> for WebsocketRequest`: a body that does not parse
      and a missing body become `InvalidRequest` with fixed reasons; a
      parsed request is handed back as it is. */
  function TryFromRequest(payload: JsonPayload<WebsocketRequest>): (r: Result<WebsocketRequest, WebsocketError>)
    ensures r.Ok? <==> payload.Parsed?
    ensures r.Ok? ==> r.value == payload.message
    ensures payload.Unparsable? ==> r == Err(InvalidRequest("error parsing json"))
    ensures payload.Missing? ==> r == Err(InvalidRequest("no payload sent"))
  {
    match payload
    case Unparsable => Err(InvalidRequest("error parsing json"))
    case Missing => Err(InvalidRequest("no payload sent"))
    case Parsed(msg) => Ok(msg)
  }

  /** `From<WebsocketError> for WebsocketResponse`: an `Error` response
      whose `message` is the error's display text and whose `error` is its
      tag. */
  function ErrorResponse(e: WebsocketError, display: WebsocketError -> string, tag: WebsocketError -> string): (r: WebsocketResponse)
    ensures r.Error? && r.message == display(e) && r.error == tag(e)
  {
    Error(tag(e), display(e))
  }

  /** `Services::send`: one post of the serialised data to one connection;
      a refused delivery is passed back to the caller. */
  method Send<T>(gw: Gateway, connectionId: string, data: T, serialize: T -> string, accepts: string -> bool)
    returns (r: Result<(), string>)
    modifies gw
    ensures gw.posts == old(gw.posts) + [Post(connectionId, serialize(data), accepts(connectionId))]
    ensures gw.evictions == old(gw.evictions)
    ensures r.Ok? <==> accepts(connectionId)
    ensures !r.Panic?
  {
    var ok := gw.PostToConnection(connectionId, serialize(data), accepts);
    if !ok {
      return Err("post to connection failed");
    }
    r := Ok(());
  }

  /** The posts of one blob to each of `connections`, in order. */
  function Broadcast(connections: seq<string>, data: string, accepts: string -> bool): (ps: seq<Post>)
    ensures |ps| == |connections|
    ensures forall i :: 0 <= i < |ps| ==> ps[i].connectionId == connections[i] && ps[i].data == data
  {
    if connections == [] then []
    else [Post(connections[0], data, accepts(connections[0]))] + Broadcast(connections[1..], data, accepts)
  }

  /** `Services::send_batch`: serialises once, posts the same data to every
      connection in order, ignores refused deliveries and always succeeds. */
  method SendBatch<T>(gw: Gateway, connections: seq<string>, data: T, serialize: T -> string, accepts: string -> bool)
    returns (r: Result<(), string>)
    modifies gw
    ensures gw.posts == old(gw.posts) + Broadcast(connections, serialize(data), accepts)
    ensures gw.evictions == old(gw.evictions)
    ensures r == Ok(())
  {
    var blob := serialize(data);
    var i := 0;
    while i < |connections|
      invariant 0 <= i <= |connections|
      invariant gw.posts == old(gw.posts) + Broadcast(connections[..i], blob, accepts)
      invariant gw.evictions == old(gw.evictions)
    {
      var _ := gw.PostToConnection(connections[i], blob, accepts);
      assert connections[..i + 1] == connections[..i] + [connections[i]];
      BroadcastSplits(connections[..i], [connections[i]], blob, accepts);
      i := i + 1;
    }
    assert connections[..i] == connections;
    r := Ok(());
  }

  /** A refused delivery in a batch is recorded and the remaining
      connections are still attempted: the batch is the per-connection
      posts one after another. */
  lemma {:induction false} BroadcastSplits(a: seq<string>, b: seq<string>, data: string, accepts: string -> bool)
    ensures Broadcast(a + b, data, accepts) == Broadcast(a, data, accepts) + Broadcast(b, data, accepts)
  {
    if a == [] {
      assert a + b == b;
    } else {
      assert (a + b)[1..] == a[1..] + b;
      BroadcastSplits(a[1..], b, data, accepts);
    }
  }

  /** Each post in a batch records the delivery outcome for its own
      connection. */
  lemma {:induction false} BroadcastRecordsOutcome(connections: seq<string>, data: string, accepts: string -> bool, i: nat)
    requires i < |connections|
    ensures Broadcast(connections, data, accepts)[i] == Post(connections[i], data, accepts(connections[i]))
  {
    if i > 0 {
      BroadcastRecordsOutcome(connections[1..], data, accepts, i - 1);
    }
  }
}
