/** The game record of backend/src/game.rs: creating a game with its
    owner's player record, adding players, destroying a game with its
    players' records, and the state the players are shown. */
module Games {
  import opened Wrappers
  import opened Cards
  import opened Records
  import opened Store
  import opened Transport
  import Decks
  import Players
  import Requests

  /** The owner's state as this revision's `Player::state` reports it:
      the hand alone. */
  datatype PlayerStateView = PlayerStateView(hand: seq<Card>)

  /** The state shown to every player: per deck, `None` when it is empty,
      otherwise its first card, hidden (`Some(None)`) unless the deck is
      face up. */
  datatype GameStateView = GameStateView(visibleDecks: seq<Option<Option<Card>>>)

  const UNWRAP_ERR := "called `Result::unwrap()` on an `Err` value"

  /** The entry for one deck in `Game::state`. */
  function DeckView(d: Decks.DeckRecord, faceUp: Decks.DeckRecord -> bool): (v: Option<Option<Card>>)
    ensures v.None? <==> d.cards == []
    ensures v.Some? && v.value.Some? <==> d.cards != [] && faceUp(d)
    ensures v.Some? && v.value.Some? ==> v.value.value == d.cards[0]
  {
    if d.cards == [] then None
    else if faceUp(d) then Some(Some(d.cards[0]))
    else Some(None)
  }

  /** The `visible_decks` of `Game::state`, built deck by deck. */
  function VisibleDecks(decks: seq<Decks.DeckRecord>, faceUp: Decks.DeckRecord -> bool): (vs: seq<Option<Option<Card>>>)
    ensures |vs| == |decks|
    ensures forall i :: 0 <= i < |decks| ==> vs[i] == DeckView(decks[i], faceUp)
  {
    if decks == [] then []
    else [DeckView(decks[0], faceUp)] + VisibleDecks(decks[1..], faceUp)
  }

  /** The decks' views concatenate as the decks do, so adding a deck adds
      exactly its own entry at its own position. */
  lemma {:induction false} VisibleDecksAppend(a: seq<Decks.DeckRecord>, b: seq<Decks.DeckRecord>, faceUp: Decks.DeckRecord -> bool)
    ensures VisibleDecks(a + b, faceUp) == VisibleDecks(a, faceUp) + VisibleDecks(b, faceUp)
  {
    if a == [] {
      assert a + b == b;
    } else {
      assert (a + b)[1..] == a[1..] + b;
      VisibleDecksAppend(a[1..], b, faceUp);
    }
  }

  /** `Player::state` of this revision. */
  function HandState(p: PlayerRecord): (r: PlayerStateView)
    ensures r.hand == p.hand
  {
    PlayerStateView(p.hand)
  }

  /** The player deletions of `Game::destroy`: one unconditional delete
      per listed id, in order, stopping at the first that fails. Gives
      whether all succeeded and the table afterwards. */
  function DeletePlayers(m: map<string, Value>, ids: seq<string>): (out: (bool, map<string, Value>))
    ensures out.1.Keys <= m.Keys
    ensures ids == [] ==> out.0
    decreases |ids|
  {
    if ids == [] then (true, m)
    else
      var (r, m1) := DeleteOutcome(m, PlayerKey, ids[0], None);
      if !r.Ok? then (false, m1) else DeletePlayers(m1, ids[1..])
  }

  predicate Distinct(ids: seq<string>)
  {
    forall i, j :: 0 <= i < j < |ids| ==> ids[i] != ids[j]
  }

  /** The deletions remove player entries of the listed ids and nothing
      else, and leave the surviving entries as they were. */
  lemma {:induction false} DeletePlayersOnlyRemovesListed(m: map<string, Value>, ids: seq<string>)
    ensures forall k :: k in DeletePlayers(m, ids).1 ==> k in m && DeletePlayers(m, ids).1[k] == m[k]
    ensures forall k :: k in m && k !in DeletePlayers(m, ids).1 ==> exists id :: id in ids && k == Key(PlayerKey, id)
    decreases |ids|
  {
    if ids != [] {
      var (r, m1) := DeleteOutcome(m, PlayerKey, ids[0], None);
      if r.Ok? {
        DeletePlayersOnlyRemovesListed(m1, ids[1..]);
        forall k | k in m && k !in DeletePlayers(m, ids).1
          ensures exists id :: id in ids && k == Key(PlayerKey, id)
        {
          if k in m1 {
            var id :| id in ids[1..] && k == Key(PlayerKey, id);
            assert id in ids;
          } else {
            assert ids[0] in ids;
          }
        }
      }
    }
  }

  /** When every deletion succeeds, no listed player is left in the
      table. */
  lemma {:induction false} DeletePlayersRemovesAll(m: map<string, Value>, ids: seq<string>)
    requires DeletePlayers(m, ids).0
    ensures forall id :: id in ids ==> Key(PlayerKey, id) !in DeletePlayers(m, ids).1
    decreases |ids|
  {
    if ids != [] {
      var (r, m1) := DeleteOutcome(m, PlayerKey, ids[0], None);
      DeletePlayersRemovesAll(m1, ids[1..]);
      DeletePlayersOnlyRemovesListed(m1, ids[1..]);
      forall id | id in ids
        ensures Key(PlayerKey, id) !in DeletePlayers(m, ids).1
      {
        if id != ids[0] {
          assert id in ids[1..];
        }
      }
    }
  }

  /** The deletions all succeed exactly when the ids are distinct and each
      has a player entry: a repeated id fails at its second deletion. */
  lemma {:induction false} DeletePlayersSucceedsIff(m: map<string, Value>, ids: seq<string>)
    requires WellTyped(m)
    ensures DeletePlayers(m, ids).0 <==> Distinct(ids) && forall id :: id in ids ==> Key(PlayerKey, id) in m
    decreases |ids|
  {
    if ids != [] {
      var x := ids[0];
      var rest := ids[1..];
      assert forall id :: id in ids <==> id == x || id in rest;
      if Key(PlayerKey, x) in m {
        var m1 := m - {Key(PlayerKey, x)};
        DeletePlayersSucceedsIff(m1, rest);
        assert DeletePlayers(m, ids) == DeletePlayers(m1, rest);
        // In the smaller table exactly the entry of `x` is gone.
        forall id | id in rest
          ensures Key(PlayerKey, id) in m1 <==> Key(PlayerKey, id) in m && id != x
        {
          if Key(PlayerKey, id) == Key(PlayerKey, x) {
            KeyDetermines(PlayerKey, id, PlayerKey, x);
          }
        }
        assert Distinct(ids) <==> Distinct(rest) && x !in rest by {
          if Distinct(ids) {
            forall j | 0 <= j < |rest| ensures rest[j] != x {
              assert ids[0] != ids[j + 1];
            }
            forall i, j | 0 <= i < j < |rest| ensures rest[i] != rest[j] {
              assert ids[i + 1] != ids[j + 1];
            }
          }
          if Distinct(rest) && x !in rest {
            forall i, j | 0 <= i < j < |ids| ensures ids[i] != ids[j] {
              if i == 0 {
                assert ids[j] == rest[j - 1];
              } else {
                assert ids[i] == rest[i - 1] && ids[j] == rest[j - 1];
              }
            }
          }
        }
      } else {
        assert !DeletePlayers(m, ids).0;
      }
    }
  }

  /** `destroy` deletes a player's entry whatever game the stored record
      names: a player since bound to another game loses its record too. */
  lemma DestroyIgnoresPlayersGame(m: map<string, Value>, p: PlayerRecord)
    requires Key(PlayerKey, p.playerId) in m && m[Key(PlayerKey, p.playerId)] == PlayerValue(p)
    ensures DeletePlayers(m, [p.playerId]) == (true, m - {Key(PlayerKey, p.playerId)})
  {
    assert [p.playerId][1..] == [];
  }

  /** Reading back what `Game::new` writes: the game under its id and the
      owner's player record under the owner's id. */
  lemma NewGameReadsBack(m: map<string, Value>, g: GameRecord, p: PlayerRecord)
    ensures var m2 := m[Key(GameKey, g.id) := GameValue(g)][Key(PlayerKey, p.playerId) := PlayerValue(p)];
      && Lookup(m2, GameKey, g.id) == Ok(GameValue(g))
      && Lookup(m2, PlayerKey, p.playerId) == Ok(PlayerValue(p))
  {
    var m1 := m[Key(GameKey, g.id) := GameValue(g)];
    GetAfterPut(m, GameKey, g.id, GameValue(g));
    PutLeavesOthers(m1, PlayerKey, p.playerId, PlayerValue(p), GameKey, g.id);
    GetAfterPut(m1, PlayerKey, p.playerId, PlayerValue(p));
  }

  /** The connections `Game::send_state` resolves, player by player: the
      Connection entry of each listed player, in order, up to the first
      player that has none (whose `unwrap` panics). */
  function ConnectedPrefix(m: map<string, Value>, ids: seq<string>): (conns: seq<string>)
    ensures |conns| <= |ids|
    ensures forall i :: 0 <= i < |conns| ==> Lookup(m, ConnectionKey, ids[i]) == Ok(Text(conns[i]))
    ensures |conns| < |ids| ==> !Lookup(m, ConnectionKey, ids[|conns|]).Ok?
  {
    if ids == [] then []
    else match Lookup(m, ConnectionKey, ids[0])
      case Ok(v) => [v.text] + ConnectedPrefix(m, ids[1..])
      case _ => []
  }

  /** One step of `ConnectedPrefix`. */
  lemma ConnectedPrefixStep(m: map<string, Value>, ids: seq<string>)
    requires ids != []
    ensures Lookup(m, ConnectionKey, ids[0]).Ok? ==>
      ConnectedPrefix(m, ids) == [m[Key(ConnectionKey, ids[0])].text] + ConnectedPrefix(m, ids[1..])
    ensures !Lookup(m, ConnectionKey, ids[0]).Ok? ==> ConnectedPrefix(m, ids) == []
  {
  }

  /** A connected player extends the resolved prefix by its connection. */
  lemma ConnectedPrefixAdvances(m: map<string, Value>, ids: seq<string>, i: nat, sent: seq<string>)
    requires i < |ids| && Lookup(m, ConnectionKey, ids[i]).Ok?
    requires ConnectedPrefix(m, ids) == sent + ConnectedPrefix(m, ids[i..])
    ensures ConnectedPrefix(m, ids) == (sent + [m[Key(ConnectionKey, ids[i])].text]) + ConnectedPrefix(m, ids[i + 1..])
  {
    ConnectedPrefixStep(m, ids[i..]);
    assert ids[i..][1..] == ids[i + 1..];
  }

  /** A player without a connection ends the resolved prefix. */
  lemma ConnectedPrefixStops(m: map<string, Value>, ids: seq<string>, i: nat, sent: seq<string>)
    requires i < |ids| && !Lookup(m, ConnectionKey, ids[i]).Ok?
    requires ConnectedPrefix(m, ids) == sent + ConnectedPrefix(m, ids[i..])
    ensures ConnectedPrefix(m, ids) == sent
  {
    ConnectedPrefixStep(m, ids[i..]);
    assert sent + [] == sent;
  }

  /** With every player seen, the resolved prefix is complete. */
  lemma ConnectedPrefixEnds(m: map<string, Value>, ids: seq<string>, sent: seq<string>)
    requires ConnectedPrefix(m, ids) == sent + ConnectedPrefix(m, ids[|ids|..])
    ensures ConnectedPrefix(m, ids) == sent
  {
    assert ids[|ids|..] == [];
    assert sent + [] == sent;
  }

  /** One more post extends the log as one more connection extends the
      broadcast. */
  lemma BroadcastOneMore(start: seq<Post>, before: seq<Post>, sent: seq<string>, c: string, data: string,
                         accepts: string -> bool)
    requires before == start + Requests.Broadcast(sent, data, accepts)
    ensures before + [Post(c, data, accepts(c))] == start + Requests.Broadcast(sent + [c], data, accepts)
  {
    Requests.BroadcastSplits(sent, [c], data, accepts);
    assert Requests.Broadcast([c], data, accepts) == [Post(c, data, accepts(c))] + Requests.Broadcast([], data, accepts);
  }

  /** `Game::send_state` stops short exactly when some listed player has
      no Connection entry. */
  lemma {:induction false} ConnectedPrefixShortIff(m: map<string, Value>, ids: seq<string>)
    ensures |ConnectedPrefix(m, ids)| < |ids| <==> exists id :: id in ids && !Lookup(m, ConnectionKey, id).Ok?
  {
    if ids != [] {
      ConnectedPrefixShortIff(m, ids[1..]);
      if Lookup(m, ConnectionKey, ids[0]).Ok? {
        if exists id :: id in ids && !Lookup(m, ConnectionKey, id).Ok? {
          var id :| id in ids && !Lookup(m, ConnectionKey, id).Ok?;
          assert id in ids[1..];
        }
        if exists id :: id in ids[1..] && !Lookup(m, ConnectionKey, id).Ok? {
          var id :| id in ids[1..] && !Lookup(m, ConnectionKey, id).Ok?;
          assert id in ids;
        }
      } else {
        assert ids[0] in ids;
      }
    }
  }

  /** `Player::send_state` of this revision: the player's Connection
      entry is looked up (a missing one is the `expect` panic), the hand is
      posted to it, and a refused delivery is ignored. */
  method SendHand(store: Table, gw: Gateway, p: PlayerRecord, serialize: PlayerStateView -> string,
                  accepts: string -> bool)
    returns (r: Result<(), string>)
    modifies gw
    ensures var target := Players.SendStateTarget(store.entries, p, None);
      if target.Ok? then
        r == Ok(()) && gw.posts == old(gw.posts) + [Post(target.value, serialize(HandState(p)), accepts(target.value))]
      else
        r == Panic("connection not found") && gw.posts == old(gw.posts)
    ensures gw.evictions == old(gw.evictions)
  {
    var conn := store.Get(ConnectionKey, p.playerId);
    if !conn.Ok? {
      return Panic("connection not found");
    }
    var _ := gw.PostToConnection(conn.value.text, serialize(HandState(p)), accepts);
    r := Ok(());
  }

  class Game {
    var id: string
    var createdAt: nat
    var owner: string
    var decks: seq<Decks.DeckRecord>
    var players: seq<string>

    function Record(): GameRecord
      reads this
    {
      GameRecord(id, createdAt, owner, decks, players)
    }

    constructor (id: string, createdAt: nat, owner: string, decks: seq<Decks.DeckRecord>, players: seq<string>)
      ensures this.id == id && this.createdAt == createdAt && this.owner == owner
      ensures this.decks == decks && this.players == players
    {
      this.id := id;
      this.createdAt := createdAt;
      this.owner := owner;
      this.decks := decks;
      this.players := players;
    }

    /** `Game::new`: a game with a fresh id (`newId`), the creation time in
        whole seconds, the creator as owner and only player, and one deck;
        stored, then followed by the creator's player record. A clock
        before the epoch is an error and writes nothing. */
    static method New(store: Table, playerId: string, newId: string, clock: int, initialDeck: Decks.DeckRecord)
      returns (r: Result<(Game, PlayerRecord), string>)
      requires store.Valid()
      modifies store
      ensures store.Valid()
      ensures !r.Panic?
      ensures clock < 0 <==> r.Err?
      ensures r.Err? ==> store.entries == old(store.entries)
      ensures r.Ok? ==>
        var (g, p) := r.value;
        && fresh(g)
        && g.id == newId && g.createdAt == clock && g.owner == playerId
        && g.decks == [initialDeck] && g.players == [playerId]
        && p == PlayerRecord(playerId, newId, [])
        && store.entries == old(store.entries)[Key(GameKey, newId) := GameValue(g.Record())]
                                               [Key(PlayerKey, playerId) := PlayerValue(p)]
    {
      if clock < 0 {
        return Err("system time before the epoch");
      }
      var game := new Game(newId, clock, playerId, [initialDeck], [playerId]);
      store.Put(GameKey, game.id, GameValue(game.Record()));
      var player := Players.NewPlayer(store, playerId, game.id);
      r := Ok((game, player));
    }

    /** `Game::add_player`: stores the new player bound to this game,
        appends its id to `players` (no duplicate check), and stores the
        updated game. */
    method AddPlayer(store: Table, playerId: string) returns (p: PlayerRecord)
      requires store.Valid()
      modifies this, store
      ensures store.Valid()
      ensures p == PlayerRecord(playerId, id, [])
      ensures players == old(players) + [playerId]
      ensures id == old(id) && createdAt == old(createdAt) && owner == old(owner) && decks == old(decks)
      ensures store.entries == old(store.entries)[Key(PlayerKey, playerId) := PlayerValue(p)]
                                                 [Key(GameKey, id) := GameValue(Record())]
    {
      p := Players.NewPlayer(store, playerId, id);
      players := players + [playerId];
      store.Put(GameKey, id, GameValue(Record()));
    }

    /** `Game::destroy`: deletes the game record, then the record of every
        listed player in order, unconditionally; the first failure ends it
        and is passed back. */
    method Destroy(store: Table) returns (r: Result<(), string>)
      requires store.Valid()
      modifies store
      ensures store.Valid()
      ensures !r.Panic?
      ensures var (g, m1) := DeleteOutcome(old(store.entries), GameKey, id, None);
        if !g.Ok? then r.Err? && store.entries == m1
        else (r.Ok? <==> DeletePlayers(m1, players).0) && store.entries == DeletePlayers(m1, players).1
    {
      var g := store.Delete(GameKey, id, None);
      if !g.Ok? {
        return Err(g.error);
      }
      var i := 0;
      while i < |players|
        invariant 0 <= i <= |players|
        invariant store.Valid()
        invariant DeletePlayers(store.entries, players[i..]) == DeletePlayers(DeleteOutcome(old(store.entries), GameKey, id, None).1, players)
      {
        var d := store.Delete(PlayerKey, players[i], None);
        assert players[i..][1..] == players[i + 1..];
        if !d.Ok? {
          return Err(d.error);
        }
        i := i + 1;
      }
      r := Ok(());
    }

    /** `Game::send_state`: serialises the state once, then for each
        listed player in order looks up its Connection entry and posts the
        state to it, ignoring refused deliveries. The first player without
        a Connection entry is an `unwrap` panic; the posts made before it
        stand. */
    method SendState(store: Table, gw: Gateway, faceUp: Decks.DeckRecord -> bool,
                     serialize: GameStateView -> string, accepts: string -> bool)
      returns (r: Result<(), string>)
      modifies gw
      ensures gw.posts == old(gw.posts)
        + Requests.Broadcast(ConnectedPrefix(store.entries, players), serialize(State(faceUp)), accepts)
      ensures r.Panic? <==> |ConnectedPrefix(store.entries, players)| < |players|
      ensures !r.Panic? ==> r == Ok(())
      ensures gw.evictions == old(gw.evictions)
    {
      var blob := serialize(State(faceUp));
      ghost var m := store.entries;
      ghost var sent: seq<string> := [];
      var i := 0;
      while i < |players|
        invariant 0 <= i <= |players| && |sent| == i
        invariant ConnectedPrefix(m, players) == sent + ConnectedPrefix(m, players[i..])
        invariant gw.posts == old(gw.posts) + Requests.Broadcast(sent, blob, accepts)
        invariant gw.evictions == old(gw.evictions)
      {
        var conn := store.Get(ConnectionKey, players[i]);
        if !conn.Ok? {
          ConnectedPrefixStops(m, players, i, sent);
          return Panic(UNWRAP_ERR);
        }
        ConnectedPrefixAdvances(m, players, i, sent);
        ghost var before := gw.posts;
        var _ := gw.PostToConnection(conn.value.text, blob, accepts);
        BroadcastOneMore(old(gw.posts), before, sent, conn.value.text, blob, accepts);
        sent := sent + [conn.value.text];
        i := i + 1;
      }
      ConnectedPrefixEnds(m, players, sent);
      r := Ok(());
    }

    /** `Game::state`. Whether a deck is face up is not part of the deck
        record of this revision, so it is a parameter. */
    function State(faceUp: Decks.DeckRecord -> bool): (r: GameStateView)
      reads this
      ensures r.visibleDecks == VisibleDecks(decks, faceUp)
    {
      GameStateView(VisibleDecks(decks, faceUp))
    }
  }
}
