# Multiplayer cards: a verified model of the card codec, record store and websocket routes

This project models the core of a multiplayer card game in Dafny. The
backend is a set of AWS Lambda functions written in Rust. The clients are
written in Kotlin: one uses KorGE and two use Godot. The model covers:

- **the backend card codec and deck** (`cards.dfy`, `decks.dfy`):
  - the one-byte card layout: bit 7 marks a special card, bit 6 a face-down card, bits 2-5 hold the rank and bits 0-1 the suit;
  - the constructors and decoders, exactly as written and as the layout comment intends;
  - `Deck::from_options`, `Deck::shuffle` with its visible-card guard, and `Deck::state`, which hides face-down cards behind `HIDDEN_CARD`.
- **the keyed record store** (`store.dfy`):
  - one table whose keys are `"{prefix}:{key}"`;
  - `put_entry`, `get_entry` and `delete_entry` as a `Table` class over a `map`;
  - key parsing as the partner of key building.
- **players and games** (`players.dfy`, `games.dfy`): `Player::new`, `state`, `get_game` and the connection choice of `send_state`; `Game::new`, `add_player`, `destroy`, `state` and `send_state`, and game.rs's `Player::send_state`.
- **the websocket route handler** (`websocket_handler.dfy`):
  - `$connect` evicts the old connection and registers the new one;
  - `$disconnect` unregisters, but only while the entry still holds the caller's connection id;
  - `$default` dispatches a message.
- **the two protocol revisions** (`messages.dfy` for `message.rs`, `requests.rs` as `requests.dfy`): payload classification, error-to-response conversion, and the two `send_batch` variants. The older one stops at the first refused delivery. The newer one ignores refusals.
- **the client card codecs**:
  - the KorGE card (`client_card.dfy`), whose bit layout is the reverse of the backend's: bit 7 is face-down and bit 6 is special;
  - the two Godot card nodes (`godot_card.dfy`, `scene_card.dfy`): their texture frame, `flip`, and the tap-versus-drag state of `onInput`.

## Modelling conventions

- A debug assertion, `unwrap`/`expect` on a missing value, or arithmetic
  overflow is a *panic*. The model returns it as the `Panic(reason)` case
  of `Wrappers.Result`, next to `Ok` and `Err`. That is how a debug
  build behaves. A `transmute` to a discriminant that names no variant is
  undefined behaviour, and the model also reports it as a panic.
- A backend card is a `bv8`. A Kotlin `Int` is a bounded `int`. Its masks
  are written as exact remainder and division identities, which hold for
  two's-complement numbers (`kotlin_int.dfy`).
- Parameters stand in for everything outside the modelled code:
  - randomness is an oracle `pick` that Fisher-Yates consults;
  - `Uuid::new_v4` is the `newGameId`/`uuid` argument;
  - the system clock is the `clock` argument;
  - serialisation is a `serialize` function;
  - API Gateway's delivery outcome is an `accepts` predicate, recorded in a `Transport.Gateway` log of posts and evictions.
- The two backend files come from different revisions.
  - `backend/src/game.rs` calls `Deck::shuffled52` and `d.face_up`, which deck.rs does not define. They are the `initialDeck` and `faceUp` parameters.
  - game.rs and player.rs each define `Player::new`, and the two are identical. `Players.NewPlayer` models both.
  - `websocket_handler.rs` matches on `message::WebsocketMessage`, with a one-field `CreateGame(data)` and field-less `DrawCardToHand` and `JoinGame` (lines 8 and 53-66). message.rs defines `WebsocketRequest` instead. The model dispatches on `Messages.WebsocketRequest`, variant by variant.
  - The handler reads the registry with `if let Some(..) = get_entry(..)` (line 32), so its `get_entry` yields an `Option`, while db_utils.rs's returns a `Result`. Both are `Store.Lookup`: `Some` is `Ok`, and `None` is any error.
  - In this revision `delete_entry` takes no expected value, yet `$disconnect` passes `Some(conn_id)`. The model follows the call site: the delete is conditional on the stored value (`Store.DeleteOutcome`). The error texts for a failed condition and for an unreadable entry are the model's own.

## Model

| member | source | states |
|---|---|---|
| Cards.SuitWithByte | backend/src/game/deck.rs:17-22 | defined exactly on the discriminants 0-3, and inverse to them |
| Cards.RankWithByte | backend/src/game/deck.rs:26-40 | defined exactly on 1-13 (Ace to King), and inverse to the discriminants |
| Cards.SpecialWithByte | backend/src/game/deck.rs:44-47 | defined exactly on 0-1 (black and red joker), and inverse to them |
| Cards.RankByteInjective | backend/src/game/deck.rs:26-40 | distinct ranks have distinct discriminants |
| Cards.SuitByteInjective | backend/src/game/deck.rs:17-22 | distinct suits have distinct discriminants |
| Cards.IsFaceDown | backend/src/game/deck.rs:104-106 | a card is face down exactly when setting bit 6 leaves it unchanged |
| Cards.IsSpecial | backend/src/game/deck.rs:108-110 | a card is special exactly when its byte is 128 or more |
| Cards.IsNumerical | backend/src/game/deck.rs:112-114 | a card is numerical exactly when it is not special |
| Cards.HiddenCardCarriesNoValue | backend/src/game/deck.rs:81-83 | HIDDEN_CARD is face down and numerical, decodes to no rank and no kind, and is the face-down form of byte 0 |
| Cards.Numerical | backend/src/game/deck.rs:86-88 | a numerical card is neither special nor face down |
| Cards.Special | backend/src/game/deck.rs:90-92 | a special card is special, not numerical, not face down |
| Cards.AsFaceDown | backend/src/game/deck.rs:128-130 | the result is face down; specialness is kept; every bit except bit 6 is kept; a face-down card is unchanged |
| Cards.AsFaceDownIdempotent | backend/src/game/deck.rs:128-130 | turning face down twice equals once; HIDDEN_CARD is face down and has no rank |
| Cards.CardFromU8 | backend/src/game/deck.rs:94-102 | the byte is kept unchanged, or the assertion panics |
| Cards.CardFromU8Accepts | backend/src/game/deck.rs:95-97 | the assertion lets a byte through exactly when bit 6 is clear or the byte is a joker |
| Cards.RankFromU8 | backend/src/game/deck.rs:49-54 | succeeds exactly when 1 <= val >> 2 <= 12, and the rank's discriminant is val >> 2; panics otherwise |
| Cards.SuitFromU8 | backend/src/game/deck.rs:56-61 | the suit's discriminant is the low two bits |
| Cards.SpecialFromU8 | backend/src/game/deck.rs:63-70 | succeeds exactly when val & 0x7F <= 1, and the kind's discriminant is val & 0x7F; panics otherwise |
| Cards.RankAsWritten | backend/src/game/deck.rs:120-122 | None for a special card; for a numerical card never an error, a success exactly when 1 <= val >> 2 <= 12, and then the rank whose discriminant is val >> 2 |
| Cards.KindAsWritten | backend/src/game/deck.rs:116-118 | None for a numerical card; for a special card never an error, a success exactly when val & 0x7F <= 1, and then the kind whose discriminant is val & 0x7F |
| Cards.RankAsWrittenFaceUp | backend/src/game/deck.rs:120-122 | rank() as written gives back r for numerical(r, s) with any rank r but King |
| Cards.KindAsWrittenFaceUp | backend/src/game/deck.rs:116-118 | kind() as written gives back k for special(k) |
| Cards.KingTripsRankAssertion | backend/src/game/deck.rs:51 | rank() as written panics on every King |
| Cards.FaceDownRankAsWrittenFails | backend/src/game/deck.rs:52 | a face-down card's rank field reads as rank + 16, and rank() as written panics on it |
| Cards.FaceDownJokerAsWrittenFails | backend/src/game/deck.rs:68 | kind() as written panics on a face-down joker |
| Cards.RankOf | backend/src/game/deck.rs:120-122 | a rank only for a numerical card, taken from bits 2-5; every rank field in 1-13 decodes |
| Cards.SuitOf | backend/src/game/deck.rs:124-126 | a suit exactly for a numerical card, taken from bits 0-1 |
| Cards.KindOf | backend/src/game/deck.rs:116-118 | a kind exactly for a special card whose bits 0-5 are 0 or 1, taken from those bits |
| Cards.NumericalFields | backend/src/game/deck.rs:86-88 | bits 2-5 of numerical(r, s) hold r, and bits 0-1 hold s |
| Cards.NumericalRoundTrip | backend/src/game/deck.rs:86-88 | numerical(r, s) decodes to rank r, suit s and no kind |
| Cards.SpecialRoundTrip | backend/src/game/deck.rs:90-92 | special(k) decodes to kind k, with no rank and no suit |
| Cards.FaceDownKeepsValue | backend/src/game/deck.rs:83 | turning a card face down changes none of its rank, suit or kind |
| Decks.StandardCardsAsWritten | backend/src/game/deck.rs:171 | the standard deck as written has 52 cards |
| Decks.StandardBytesAccepted | backend/src/game/deck.rs:171 | from_u8 accepts every byte 1..=52 and keeps it |
| Decks.StandardDeckAsWrittenFlaws | backend/src/game/deck.rs:171 | the first three cards as written (bytes 1-3) have no rank, and the Kings of Hearts, Diamonds and Clubs (bytes 53-55) are missing |
| Decks.StandardCards | backend/src/game/deck.rs:170-174 | the corrected standard deck has 52 cards |
| Decks.StandardCardsComplete | backend/src/game/deck.rs:170-174 | the corrected deck holds every (rank, suit) pair, all 52 distinct, each decodable and face up |
| Decks.FaceDownAll | backend/src/game/deck.rs:178-182 | as many cards, each face down and otherwise bit for bit the card it replaces |
| Decks.FaceDownAllKeepsValues | backend/src/game/deck.rs:178-182 | turning a deck face down keeps its length, turns every card face down, and keeps each card's specialness, rank, suit and kind |
| Decks.FaceDownAllPermutes | backend/src/game/deck.rs:178-182 | turning cards face down maps permutations to permutations |
| Decks.TurnFaceDown | backend/src/game/deck.rs:178-182 | the loop sets bit 6 of every card in order, and its result is FaceDownAll of the cards |
| Decks.Shuffled | backend/src/game/deck.rs:172 | the Fisher-Yates shuffle returns a permutation of its input, whatever the random choices |
| Decks.ShuffleGuard | backend/src/game/deck.rs:196-200 | shuffling is allowed exactly when no card is visible, or the first visible index is 0 or the last index; an empty deck with another visible index panics on the subtraction |
| Decks.Shown | backend/src/game/deck.rs:212 | a card is shown as HIDDEN_CARD exactly when it is face down, and as itself otherwise |
| Decks.VisibleState | backend/src/game/deck.rs:207-215 | one entry per visible index, in order, each carrying its index and the shown card; panics exactly when an index is out of range |
| Decks.LastIndex | backend/src/game/deck.rs:184 | len - 1, or 0 for an empty deck |
| Decks.EmptyDeckStatePanics | backend/src/game/deck.rs:184-211 | a freshly built empty deck panics when its state is taken |
| Decks.Deck.FromOptions | backend/src/game/deck.rs:168-192 | a standard deck is a permutation of the 52 cards; custom cards are kept verbatim and in order; both are turned face down when asked; one visible index, the last; capacity copied; id is game_id:uuid |
| Decks.Deck.Shuffle | backend/src/game/deck.rs:195-205 | on refusal the cards are unchanged; otherwise they are a permutation of the old cards; visible indexes, id and capacity are unchanged |
| Decks.Deck.State | backend/src/game/deck.rs:207-215 | the deck's state is VisibleState of its fields |
| Messages.FromRequest | backend/src/message.rs:47-54 | an unparsable body gives "error parsing json"; a missing body gives "missing payload"; a parsed message comes back unchanged |
| Messages.ErrorResponse | backend/src/message.rs:86-93 | an Error response whose message is the error's display text and whose error is its tag |
| Messages.Send | backend/src/message.rs:96-100 | exactly one post of the serialised response, to the given connection; fails exactly when the delivery is refused |
| Messages.FirstRefusal | backend/src/message.rs:105-107 | every connection before it accepts, and the one at it refuses |
| Messages.SendBatch | backend/src/message.rs:103-109 | serialises once; posts in order up to and including the first refusal and none after it; succeeds exactly when none refuses |
| Messages.SendBatchFailsIffSomeRefuses | backend/src/message.rs:106 | the batch fails exactly when some connection refuses |
| Requests.TryFromRequest | backend/src/requests.rs:58-71 | an unparsable body gives InvalidRequest("error parsing json"); a missing body gives InvalidRequest("no payload sent"); a parsed request comes back unchanged |
| Requests.ErrorResponse | backend/src/requests.rs:99-106 | an Error response whose message is the error's display text and whose error is its tag |
| Requests.Send | backend/src/requests.rs:109-119 | exactly one post of the serialised data; fails exactly when the delivery is refused |
| Requests.Broadcast | backend/src/requests.rs:128-137 | one post per connection, in order, all carrying the same data |
| Requests.SendBatch | backend/src/requests.rs:122-139 | serialises once; posts identical data to every connection in order; a refused delivery does not stop the loop; always returns Ok |
| Requests.BroadcastSplits | backend/src/requests.rs:129-137 | a batch is the batches of its parts one after another, so a refusal does not stop later posts |
| Requests.BroadcastRecordsOutcome | backend/src/requests.rs:130-136 | the i-th post goes to the i-th connection and records that connection's outcome |
| Transport.Gateway.PostToConnection | backend/src/message.rs:98 | appends one post with the delivery outcome; evictions are unchanged |
| Transport.Gateway.DeleteConnection | backend/src/bin/websocket_handler.rs:36-40 | appends the closed connection to the evictions; posts are unchanged |
| Store.Prefix | backend/src/game.rs:38-49 | every prefix has at least nine characters, and exactly the game, player and deck prefixes start with "game:" |
| Store.Key | backend/src/db_utils.rs:13-15 | the table key is the prefix, a colon, then the key |
| Store.ParseKey | backend/src/db_utils.rs:13-15 | a parsed table key starts with its entity's prefix and a colon, and ends with the key |
| Store.KeyRoundTrip | backend/src/db_utils.rs:13-15 | parsing key(kind, k) gives back kind and k |
| Store.KeyDetermines | backend/src/db_utils.rs:13-31 | equal table keys have the same entity type and key, so Connection and RefreshToken keys never collide |
| Store.Lookup | backend/src/db_utils.rs:63-79 | the stored value when present and of the right type; "item does not exist" when the key is absent |
| Store.DeleteOutcome | backend/src/db_utils.rs:81-100 | a success returns the stored value; the entry is removed exactly when present and matching the expected value; otherwise nothing changes |
| Store.GetAfterPut | backend/src/db_utils.rs:46-79 | get after put of the same key returns the stored value |
| Store.PutLeavesOthers | backend/src/db_utils.rs:51-58 | put on one key leaves what every other key reads unchanged |
| Store.DeleteReturnsStored | backend/src/db_utils.rs:81-100 | delete returns the stored value and leaves the key absent; deleting an absent key fails with "item does not exist" |
| Store.WellTypedReads | backend/src/db_utils.rs:71-78 | in a well-typed table a read fails only on an absent key |
| Store.PutKeepsWellTyped | backend/src/db_utils.rs:35-40 | storing a value of the entity's own type keeps every entry readable as its prefix's type |
| Store.Table.Get | backend/src/db_utils.rs:63-79 | the read is Lookup on the current entries |
| Store.Table.Put | backend/src/db_utils.rs:46-61 | the entries become the old entries with the prefixed key set to the value; the table stays well typed |
| Store.Table.Delete | backend/src/db_utils.rs:81-100 | the result and the new entries are DeleteOutcome of the old entries |
| Players.NewPlayer | backend/src/game/player.rs:30-44 | a player with the given ids and an empty hand, stored under its own id; nothing else changes |
| Players.NewPlayerReadsBack | backend/src/game/player.rs:42 | the stored player reads back under its id, and every other entry reads as before |
| Players.State | backend/src/game/player.rs:46-52 | a PlayerState carrying the player's game id and exactly its hand |
| Players.GetGame | backend/src/game/player.rs:54-56 | the stored game the player names; panics exactly when it cannot be read |
| Players.GetGameAfterDestroyPanics | backend/src/game/player.rs:55 | once the game record is deleted, get_game panics |
| Players.SendStateTarget | backend/src/game/player.rs:62-66 | the supplied connection id when there is one; otherwise the player's registered connection; panics with "connection not found" when neither exists |
| Players.SendState | backend/src/game/player.rs:59-69 | posts the player's state to the chosen connection, or panics without posting |
| Games.DeckView | backend/src/game.rs:95-101 | None exactly for an empty deck; a card exactly when the deck is face up, and then it is the first card |
| Games.VisibleDecks | backend/src/game.rs:91-103 | one entry per deck, in deck order |
| Games.VisibleDecksAppend | backend/src/game.rs:92-102 | the views of concatenated decks are the concatenated views |
| Games.HandState | backend/src/game.rs:138-143 | the state carries exactly the player's hand |
| Games.DeletePlayers | backend/src/game.rs:81-85 | the deletions never add a key, and an empty player list succeeds |
| Games.DeletePlayersOnlyRemovesListed | backend/src/game.rs:81-85 | the player deletions remove only player entries of listed ids, and leave surviving entries unchanged |
| Games.DeletePlayersRemovesAll | backend/src/game.rs:79-86 | when all deletions succeed, no listed player's entry remains |
| Games.DeletePlayersSucceedsIff | backend/src/game.rs:81-85 | the deletions all succeed exactly when the ids are distinct and each has an entry |
| Games.DestroyIgnoresPlayersGame | backend/src/game.rs:82-84 | a player's entry is deleted whatever game the stored record names |
| Games.NewGameReadsBack | backend/src/game.rs:63-65 | after Game::new's two writes, the game reads back under its id and the owner's player under the owner's id |
| Games.Game.New | backend/src/game.rs:53-66 | owner is the creator; players is [creator]; exactly one deck; game id and creation time taken from the parameters; the game is stored, then the creator's empty-handed player bound to it; a clock before the epoch is an error and writes nothing |
| Games.Game.AddPlayer | backend/src/game.rs:68-77 | the player id is appended with no duplicate check, and earlier entries are unchanged; the new player (empty hand, bound to this game) is stored, then the updated game |
| Games.Game.Destroy | backend/src/game.rs:79-87 | the game entry is deleted first; a failure there is returned; otherwise each listed player is deleted in order, stopping at the first failure |
| Games.Game.State | backend/src/game.rs:90-104 | the state's decks are VisibleDecks of the game's decks |
| Games.ConnectedPrefix | backend/src/game.rs:110-117 | the connections of the listed players, in order, each the player's stored Connection entry, up to the first player that has none |
| Games.ConnectedPrefixShortIff | backend/src/game.rs:110-117 | the connections stop short exactly when some listed player has no Connection entry |
| Games.Game.SendState | backend/src/game.rs:107-119 | the state is serialised once and posted to each player's connection in order, refusals ignored; it panics exactly when a player has no Connection entry, keeping the posts made before it |
| Games.SendHand | backend/src/game.rs:146-154 | with a Connection entry for the player, one post of the hand to it and Ok whatever the delivery; without one, the "connection not found" panic and no post |
| WebsocketHandler.Evicted | backend/src/bin/websocket_handler.rs:31-41 | the connection registered for the identity, if any, and only that one |
| WebsocketHandler.Disconnected | backend/src/bin/websocket_handler.rs:47-51 | the entry is removed exactly when it still holds this connection id; otherwise the registry is unchanged |
| WebsocketHandler.HandleEvent | backend/src/bin/websocket_handler.rs:12-73 | a non-websocket context is an error; a missing uuid, route key or connection id panics; $connect evicts then registers; $disconnect deletes conditionally; $default parses the payload; CreateGame creates the game, then posts the game state and then the hand to the caller's connection, and panics after writing the game when the caller has no Connection entry; Ping does nothing; the unimplemented messages panic; any other route is "unhandled message"; only CreateGame posts |
| WebsocketHandler.ConnectRegisters | backend/src/bin/websocket_handler.rs:43-45 | after $connect the identity maps to the new connection id, and other identities read as before |
| WebsocketHandler.ReconnectEvictsPrevious | backend/src/bin/websocket_handler.rs:30-45 | a second $connect evicts exactly the connection registered by the first |
| WebsocketHandler.LateDisconnectKeepsNewer | backend/src/bin/websocket_handler.rs:47-50 | a late $disconnect of an older connection leaves the newer one registered |
| WebsocketHandler.DisconnectUnregisters | backend/src/bin/websocket_handler.rs:47-50 | $disconnect of the registered connection leaves the identity unregistered |
| WebsocketHandler.CreatedKeepsConnections | backend/src/game.rs:63-64 | writing the game and its owner's player leaves every Connection entry as it was |
| WebsocketHandler.CreateGameOwnedByCaller | backend/src/bin/websocket_handler.rs:56-57 | CreateGame stores a game owned by the caller, with the caller as its only player, and the caller's player bound to it |
| KotlinInt.Bit7 | mobile/game/card/Card.kt:46 | for a byte, bit 7 is set exactly from 128 up, and every negative byte value has it |
| KotlinInt.Xor0x80 | mobile/game/card/Card.kt:58 | toggles bit 7 and keeps every other bit |
| KotlinInt.XorInvolution | mobile/game/card/Card.kt:57-59 | toggling bit 7 twice restores the value |
| KotlinInt.Ushr2 | mobile/game/card/Card.kt:48 | the logical shift gives 0 <= r < 2^30, and v / 4 for a non-negative v |
| ClientCard.IsFaceDown | mobile/src/commonMain/kotlin/com/jackchap/multiplayercards/models/Card.kt:13 | a card is face down exactly when xor with the face-down mask clears bit 7 |
| ClientCard.IsSpecial | mobile/src/commonMain/kotlin/com/jackchap/multiplayercards/models/Card.kt:14 | a card is special exactly when bit 6 of its value is set |
| ClientCard.IsNumerical | mobile/src/commonMain/kotlin/com/jackchap/multiplayercards/models/Card.kt:15 | a card is numerical exactly when it is not special |
| ClientCard.Rank | mobile/src/commonMain/kotlin/com/jackchap/multiplayercards/models/Card.kt:17 | a rank exactly for a numerical card, namely the value shifted right arithmetically by 2 |
| ClientCard.Suit | mobile/src/commonMain/kotlin/com/jackchap/multiplayercards/models/Card.kt:18 | a suit exactly for a numerical card: the low two bits, in 0-3, so that rank * 4 + suit is the value |
| ClientCard.SpecialType | mobile/src/commonMain/kotlin/com/jackchap/multiplayercards/models/Card.kt:19 | a type exactly for a special card: the value's low six bits, in 0-63 |
| ClientCard.NatToString | mobile/src/commonMain/kotlin/com/jackchap/multiplayercards/models/Card.kt:46 | at least one decimal digit, and only digits |
| ClientCard.IntToString | mobile/src/commonMain/kotlin/com/jackchap/multiplayercards/models/Card.kt:46 | digits, with a leading minus sign exactly for a negative number |
| ClientCard.DecimalRoundTrip | mobile/src/commonMain/kotlin/com/jackchap/multiplayercards/models/Card.kt:46 | reading the digits back gives the number |
| ClientCard.RankName | mobile/src/commonMain/kotlin/com/jackchap/multiplayercards/models/Card.kt:41-47 | ranks other than 1, 11, 12 and 13 are named by their decimal digits |
| ClientCard.ImagePath | mobile/src/commonMain/kotlin/com/jackchap/multiplayercards/models/Card.kt:21-51 | every face-down card shows the backing |
| ClientCard.HiddenCardShowsBack | mobile/src/commonMain/kotlin/com/jackchap/multiplayercards/models/Card.kt:8-24 | HIDDEN_CARD equals FACE_DOWN_MASK, is face down and shows the backing; isNumerical is the negation of isSpecial |
| ClientCard.SpecialImagePath | mobile/src/commonMain/kotlin/com/jackchap/multiplayercards/models/Card.kt:26-31 | face-up special type 0 is the black joker, type 1 the red joker, any other type the backing |
| ClientCard.JokerImagePaths | mobile/src/commonMain/kotlin/com/jackchap/multiplayercards/models/Card.kt:26-31 | a face-up special card shows the black joker exactly when its low six bits are 0 and the red joker exactly when they are 1; 0x40 and 0x41 show the two jokers |
| ClientCard.SuitName | mobile/src/commonMain/kotlin/com/jackchap/multiplayercards/models/Card.kt:33-39 | "unknown" exactly for a suit outside 0-3 |
| ClientCard.SuitNameKnown | mobile/src/commonMain/kotlin/com/jackchap/multiplayercards/models/Card.kt:33-39 | a numerical card's suit name is one of spades, hearts, diamonds or clubs, never "unknown" |
| ClientCard.RankWords | mobile/src/commonMain/kotlin/com/jackchap/multiplayercards/models/Card.kt:41-47 | ranks 1-13 are named ace, 2, ..., 10, jack, queen, king |
| ClientCard.NumericalImagePath | mobile/src/commonMain/kotlin/com/jackchap/multiplayercards/models/Card.kt:33-49 | the face-up card of rank 1-13 and suit 0-3 decodes to that rank and suit, and shows cards/{rank}_of_{suit}.png |
| GodotCard.TextureFrame | mobile/game/card/Card.kt:44-54 | frame 0 (the back) for a face-down value; for a non-negative face-up value v, (v mod 4) * 13 + v / 4; never negative |
| GodotCard.FrameOfCard | mobile/game/card/Card.kt:46-51 | a face-up card of rank 1-13 and suit 0-3 shows frame suit*13 + rank, which lies in 1-52 |
| GodotCard.FramesDistinct | mobile/game/card/Card.kt:49-51 | distinct cards show distinct frames |
| GodotCard.SpecialValueSharesFrame | mobile/game/card/Card.kt:46-51 | the value 0x40, a special card in the client's layout, shows frame 16, the frame of rank 3 of suit 1 (0x0D) |
| GodotCard.FlipShowsBack | mobile/game/card/Card.kt:46-59 | flipping a face-up card shows the back, and flipping it again shows its face |
| GodotCard.Card.Instantiate | mobile/game/card/Card.kt:20-22 | a new card outside the tree whose value is the argument |
| GodotCard.Card.Ready | mobile/game/card/Card.kt:39-42 | entering the tree shows the frame of the current value |
| GodotCard.Card.UpdateTexture | mobile/game/card/Card.kt:44-54 | the sprite shows TextureFrame of the value |
| GodotCard.Card.SetCardValue | mobile/game/card/Card.kt:27-31 | stores the value, and redraws only inside the tree |
| GodotCard.Card.Flip | mobile/game/card/Card.kt:57-59 | the value has bit 7 toggled, set through the setter |
| SceneCard.DistanceSquared | mobile/game/scene/card/Card.kt:59 | non-negative, and zero between equal points |
| SceneCard.AfterInput | mobile/game/scene/card/Card.kt:43-68 | only first-finger touches count; a press with no drag starts one at the touch position; a press during a drag does nothing; a release with no drag does nothing; a release during a drag ends it, keeps the positions, and flips only within the threshold |
| SceneCard.TapFlips | mobile/game/scene/card/Card.kt:48-62 | a press and release at one spot flips the card once and leaves it at rest |
| SceneCard.DragKeepsValue | mobile/game/scene/card/Card.kt:57-65 | a release at least the threshold away from the start leaves the value unchanged |
| SceneCard.DoubleTapRestores | mobile/game/scene/card/Card.kt:57-65 | two taps give the card its value back |
| SceneCard.Card.Ready | mobile/game/scene/card/Card.kt:34-39 | entering the tree shows the frame of the current value |
| SceneCard.Card.UpdateTexture | mobile/game/scene/card/Card.kt:79-89 | the sprite shows the frame rule of the plain card node |
| SceneCard.Card.SetCardValue | mobile/game/scene/card/Card.kt:20-24 | stores the value and redraws only inside the tree; the drag state is untouched |
| SceneCard.Card.Flip | mobile/game/scene/card/Card.kt:92-94 | bit 7 is toggled; nothing else in the drag state changes |
| SceneCard.Card.OnInput | mobile/game/scene/card/Card.kt:43-68 | the drag state follows AfterInput; the frame is redrawn only when the card flips inside the tree |

## Left out

- Decks.Deck.FromOptions: builds the standard deck from `Decks.StandardCards` (numerical(rank, suit) for all 52 pairs), not from the bytes `1..=52` that backend/src/game/deck.rs:171 uses. See Findings. The deck as written is `Decks.StandardCardsAsWritten`.
- Decks.Shuffled: proves that the result is a permutation for every sequence of random choices. It says nothing about the distribution.
- Store.Table.Put: a write always succeeds. DynamoDB and network failures of `put_entry`, `get_entry` and `delete_entry` are not modelled, and neither are the `unwrap`s on an item without a `value` attribute. Every stored entry has one. As a result, the `?` after each write in `Game::new`, `add_player` and `Player::new` never fires.
- The `name` and deck options that CreateGame carries are ignored by the source, and by the model too.
- `Game::send_state` and game.rs's `Player::send_state` can fail to serialise the state; serialising is a total parameter function here, so that error path is not modelled.
- The authoriser's `uuid` field is a JSON value, and its `to_string()` quotes it. The model treats the identity as the string the authoriser supplies.
- `Display for Card` (backend/src/game/deck.rs:133-143): text formatting only.
- `crate::WebsocketError`'s display text and `&'static str` tag are defined outside the modelled files, so the conversions take them as parameters. `StackId` and `StackState` are not part of this model either, so `Requests` treats them as strings.
- JSON parsing and serialisation are not modelled. A payload is already classified as unparsable, missing or parsed, and serialising is a parameter function.
- Concurrency: Lambda invocations are handled one at a time, so the races between them are not modelled.
- Integer widths: `created_at` (u64) and `capacity` (u32) are unbounded naturals. Game positions are `i8` ranges.
- Floating point: Godot `Vector2` coordinates are `real`, so 32-bit float rounding in `distanceSquaredTo` is not modelled.
- `_input` of the scene card (its lines 71-77) moves the node's global position while dragging. That is scene-graph geometry, so it is left out. Sprite resources are also left out: a texture is identified by its frame index.
- The KorGE client and the backend use opposite bit layouts. The model keeps each as written and does not reconcile them.
- Release builds skip the debug assertions, so their behaviour is not modelled. The model follows the debug build, where a failed assertion panics.

## Findings

| source | as written | input that shows it | evidently intended | confidence | as-written member | corrected member |
|---|---|---|---|---|---|---|
| backend/src/game/deck.rs:51 | `debug_assert!(val >> 2 <= 12)` in `Rank::from_u8` | `Card::numerical(King, s)`, bytes 52-55, rank field 13 | accept ranks up to 13 (King) | high, not executed | Cards.KingTripsRankAssertion | Cards.NumericalRoundTrip |
| backend/src/game/deck.rs:52 | `transmute(val >> 2)` keeps bit 6 (face down) in the rank field | `as_face_down(numerical(Ace, Spades))` = 0x44 reads as rank 17 | read the rank from bits 2-5 only, as the comment at line 83 promises | high, not executed | Cards.FaceDownRankAsWrittenFails | Cards.FaceDownKeepsValue |
| backend/src/game/deck.rs:68 | `transmute(val & 0b0111_1111)` keeps bit 6 in the kind | `as_face_down(special(JokerBlack))` = 0xC0 reads as kind 64 | mask with 0b0011_1111 (bits 0-5), as the layout comment says | high, not executed | Cards.FaceDownJokerAsWrittenFails | Cards.FaceDownKeepsValue |
| backend/src/game/deck.rs:171 | the standard deck is the bytes `1..=52` | bytes 1-3 have rank field 0; the Kings of Hearts, Diamonds and Clubs (bytes 53-55) are absent | `numerical(rank, suit)` for all 13 ranks and 4 suits | high, not executed | Decks.StandardDeckAsWrittenFlaws | Decks.StandardCardsComplete |
