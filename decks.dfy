/** Decks of backend/src/game/deck.rs: building a deck from the options a
    client sends, shuffling it under the visible-card rule, and the state a
    client is shown. */
module Decks {
  import opened Wrappers
  import opened Cards
  import opened Messages

  // ---------------------------------------------------------------------
  // The standard deck
  // ---------------------------------------------------------------------

  /** The standard deck as deck.rs line 171 builds it: the bytes `1..=52`,
      each through `Card::from_u8`. */
  function StandardCardsAsWritten(): (r: seq<Card>)
    ensures |r| == 52
  {
    seq(52, i requires 0 <= i < 52 => Card((i + 1) as bv8))
  }

  /** `Card::from_u8` accepts every byte of `1..=52`, so building the
      standard deck as written never trips its assertion. */
  lemma StandardBytesAccepted(b: bv8)
    requires 1 <= b <= 52
    ensures CardFromU8(b) == Ok(Card(b))
  {
  }

  /** Finding: the bytes `1..=52` are not the 52 cards. The first three
      bytes have rank field 0, so they decode to no rank, and the Kings of
      Hearts, Diamonds and Clubs (bytes 53, 54 and 55) are missing. */
  lemma StandardDeckAsWrittenFlaws()
    ensures forall i :: 0 <= i < 3 ==> RankOf(StandardCardsAsWritten()[i]) == None
    ensures forall s: Suit :: s != Spades ==> Numerical(King, s) !in StandardCardsAsWritten()
  {
    var deck := StandardCardsAsWritten();
    assert deck[0] == Card(1) && deck[1] == Card(2) && deck[2] == Card(3);
    forall s: Suit | s != Spades
      ensures Numerical(King, s) !in deck
    {
      assert 53 <= Numerical(King, s).value by {
        match s
        case Hearts => case Diamonds => case Clubs =>
      }
      forall i | 0 <= i < |deck|
        ensures deck[i] != Numerical(King, s)
      {
        assert deck[i] == Card((i + 1) as bv8);
      }
    }
  }

  const Ranks: seq<Rank> := [Ace, Two, Three, Four, Five, Six, Seven, Eight, Nine, Ten, Jack, Queen, King]
  const Suits: seq<Suit> := [Spades, Hearts, Diamonds, Clubs]

  /** The standard deck the layout calls for: `Card::numerical(rank, suit)`
      for each of the 13 ranks and 4 suits. */
  function StandardCards(): (r: seq<Card>)
    ensures |r| == 52
  {
    seq(52, i requires 0 <= i < 52 => Numerical(Ranks[i / 4], Suits[i % 4]))
  }

  function RankIndex(r: Rank): (k: nat)
    ensures k < 13 && Ranks[k] == r
  {
    match r
    case Ace => 0 case Two => 1 case Three => 2 case Four => 3 case Five => 4
    case Six => 5 case Seven => 6 case Eight => 7 case Nine => 8 case Ten => 9
    case Jack => 10 case Queen => 11 case King => 12
  }

  function SuitIndex(s: Suit): (k: nat)
    ensures k < 4 && Suits[k] == s
  {
    match s
    case Spades => 0 case Hearts => 1 case Diamonds => 2 case Clubs => 3
  }

  /** The corrected standard deck holds every rank of every suit exactly
      once, face up. */
  lemma StandardCardsComplete()
    ensures forall r: Rank, s: Suit :: Numerical(r, s) in StandardCards()
    ensures forall i, j :: 0 <= i < j < 52 ==> StandardCards()[i] != StandardCards()[j]
    ensures forall i :: 0 <= i < 52 ==>
      && RankOf(StandardCards()[i]).Some? && SuitOf(StandardCards()[i]).Some?
      && !IsFaceDown(StandardCards()[i])
  {
    var deck := StandardCards();
    forall r: Rank, s: Suit
      ensures Numerical(r, s) in deck
    {
      var i := RankIndex(r) * 4 + SuitIndex(s);
      assert i / 4 == RankIndex(r) && i % 4 == SuitIndex(s);
      assert deck[i] == Numerical(r, s);
    }
    forall i, j | 0 <= i < j < 52
      ensures deck[i] != deck[j]
    {
      NumericalRoundTrip(Ranks[i / 4], Suits[i % 4]);
      NumericalRoundTrip(Ranks[j / 4], Suits[j % 4]);
      assert i / 4 != j / 4 || i % 4 != j % 4;
      assert Ranks[i / 4] != Ranks[j / 4] || Suits[i % 4] != Suits[j % 4];
    }
    forall i | 0 <= i < 52
      ensures RankOf(deck[i]).Some? && SuitOf(deck[i]).Some?
    {
      NumericalRoundTrip(Ranks[i / 4], Suits[i % 4]);
    }
  }

  // ---------------------------------------------------------------------
  // Turning every card face down
  // ---------------------------------------------------------------------

  /** Every card of `cards` with bit 6 set. */
  function FaceDownAll(cards: seq<Card>): (r: seq<Card>)
    ensures |r| == |cards|
    ensures forall i :: 0 <= i < |r| ==> IsFaceDown(r[i]) && r[i].value & 0xBF == cards[i].value & 0xBF
  {
    seq(|cards|, i requires 0 <= i < |cards| => AsFaceDown(cards[i]))
  }

  /** Turning a deck face down keeps its length, turns every card face
      down, and keeps each card's rank, suit, kind and specialness. */
  lemma FaceDownAllKeepsValues(cards: seq<Card>)
    ensures |FaceDownAll(cards)| == |cards|
    ensures forall i :: 0 <= i < |cards| ==>
      && IsFaceDown(FaceDownAll(cards)[i])
      && IsSpecial(FaceDownAll(cards)[i]) == IsSpecial(cards[i])
      && RankOf(FaceDownAll(cards)[i]) == RankOf(cards[i])
      && SuitOf(FaceDownAll(cards)[i]) == SuitOf(cards[i])
      && KindOf(FaceDownAll(cards)[i]) == KindOf(cards[i])
  {
    forall i | 0 <= i < |cards|
      ensures RankOf(FaceDownAll(cards)[i]) == RankOf(cards[i])
      ensures SuitOf(FaceDownAll(cards)[i]) == SuitOf(cards[i])
      ensures KindOf(FaceDownAll(cards)[i]) == KindOf(cards[i])
    {
      FaceDownKeepsValue(cards[i]);
    }
  }

  lemma FaceDownAllConcat(a: seq<Card>, b: seq<Card>)
    ensures FaceDownAll(a + b) == FaceDownAll(a) + FaceDownAll(b)
  {
  }

  /** Turning cards face down maps a permutation to a permutation. */
  lemma {:induction false} FaceDownAllPermutes(a: seq<Card>, b: seq<Card>)
    requires multiset(a) == multiset(b)
    ensures multiset(FaceDownAll(a)) == multiset(FaceDownAll(b))
    decreases |a|
  {
    if a == [] {
      assert |b| == |multiset(b)| == 0;
    } else {
      var x := a[0];
      assert x in multiset(b);
      var k :| 0 <= k < |b| && b[k] == x;
      var rest := b[..k] + b[k + 1..];
      assert b == b[..k] + [x] + b[k + 1..];
      assert multiset(b) == multiset(rest) + multiset{x};
      assert a == [x] + a[1..];
      assert multiset([x]) == multiset{x};
      calc {
        multiset(a);
        { assert a == [x] + a[1..]; }
        multiset([x] + a[1..]);
        multiset([x]) + multiset(a[1..]);
      }
      assert multiset(a[1..]) == multiset(a) - multiset{x};
      assert multiset(rest) == multiset(b) - multiset{x};
      FaceDownAllPermutes(a[1..], rest);
      FaceDownAllConcat([x], a[1..]);
      FaceDownAllConcat(b[..k], [x]);
      FaceDownAllConcat(b[..k] + [x], b[k + 1..]);
      FaceDownAllConcat(b[..k], b[k + 1..]);
    }
  }

  /** The loop at deck.rs lines 178-182: sets bit 6 of every card. */
  method TurnFaceDown(cards: seq<Card>) returns (r: seq<Card>)
    ensures r == FaceDownAll(cards)
  {
    r := cards;
    var i := 0;
    while i < |r|
      invariant 0 <= i <= |r| == |cards|
      invariant forall k :: 0 <= k < i ==> r[k] == AsFaceDown(cards[k])
      invariant forall k :: i <= k < |r| ==> r[k] == cards[k]
    {
      r := r[i := AsFaceDown(r[i])];
      i := i + 1;
    }
  }

  // ---------------------------------------------------------------------
  // Shuffling
  // ---------------------------------------------------------------------

  lemma SwapKeepsMultiset(s: seq<Card>, i: nat, j: nat)
    requires i < |s| && j < |s|
    ensures multiset(s[i := s[j]][j := s[i]]) == multiset(s)
  {
  }

  /** `SliceRandom::shuffle`: the Fisher-Yates shuffle, walking down from
      the last position and swapping each with a position at or below it.
      Randomness is the oracle `pick`; whatever it returns, the result is a
      permutation of the input. */
  method Shuffled(cards: seq<Card>, pick: nat -> nat) returns (r: seq<Card>)
    ensures |r| == |cards|
    ensures multiset(r) == multiset(cards)
  {
    r := cards;
    var i := |r|;
    while i > 1
      invariant i <= |r| == |cards|
      invariant multiset(r) == multiset(cards)
    {
      i := i - 1;
      var j := pick(i) % (i + 1);
      SwapKeepsMultiset(r, i, j);
      r := r[i := r[j]][j := r[i]];
    }
  }

  /** The guard of `Deck::shuffle`: shuffling is refused when a card other
      than the first or the last is visible. The comparison with
      `len() - 1` overflows on an empty deck. */
  function ShuffleGuard(cardCount: nat, visible: seq<nat>): (r: Result<(), string>)
    ensures r.Ok? <==> visible == [] || visible[0] == 0 || (cardCount > 0 && visible[0] == cardCount - 1)
    ensures r.Panic? <==> visible != [] && visible[0] != 0 && cardCount == 0
  {
    if visible != [] && visible[0] != 0 then
      if cardCount == 0 then Panic("attempt to subtract with overflow")
      else if visible[0] != cardCount - 1 then Err("can only call shuffle on decks with no visible cards")
      else Ok(())
    else Ok(())
  }

  // ---------------------------------------------------------------------
  // The state clients see
  // ---------------------------------------------------------------------

  /** What a client is shown of a card: the hidden sentinel if it is face
      down, the card itself otherwise. */
  function Shown(c: Card): (r: Card)
    ensures r == HIDDEN_CARD <==> IsFaceDown(c)
    ensures !IsFaceDown(c) ==> r == c
    ensures IsFaceDown(r) == IsFaceDown(c)
  {
    if IsFaceDown(c) then HIDDEN_CARD else c
  }

  /** `Deck::state`: one entry per visible index, in order, each carrying
      its index and the card shown there. Indexing past the end panics. */
  function VisibleState(id: string, cards: seq<Card>, visible: seq<nat>): (r: Result<WebsocketResponse, string>)
    ensures r.Ok? <==> forall k :: 0 <= k < |visible| ==> visible[k] < |cards|
    ensures !r.Ok? ==> r.Panic?
    ensures r.Ok? ==>
      && r.value.DeckState? && r.value.deckId == id
      && |r.value.visibleCards| == |visible|
      && forall k :: 0 <= k < |visible| ==>
           && r.value.visibleCards[k].0 == visible[k]
           && (r.value.visibleCards[k].1 == HIDDEN_CARD <==> IsFaceDown(cards[visible[k]]))
           && (!IsFaceDown(cards[visible[k]]) ==> r.value.visibleCards[k].1 == cards[visible[k]])
  {
    if forall k :: 0 <= k < |visible| ==> visible[k] < |cards| then
      Ok(DeckState(id, seq(|visible|, k requires 0 <= k < |visible| => (visible[k], Shown(cards[visible[k]])))))
    else Panic("index out of bounds")
  }

  /** The serialised form of a deck, as it is stored inside a game. */
  datatype DeckRecord = DeckRecord(id: string, cards: seq<Card>, visibleCardIndexes: seq<nat>, capacity: Option<nat>)

  /** The cards a deck is built with, before shuffling. */
  function InitialCards(options: DeckOptions): seq<Card>
  {
    match options.deckType
    case Standard => StandardCards()
    case Custom(custom) => custom
  }

  function FaceDownIf(faceDown: bool, cards: seq<Card>): seq<Card>
  {
    if faceDown then FaceDownAll(cards) else cards
  }

  /** `cards.len().saturating_sub(1)`. */
  function LastIndex(cards: seq<Card>): (k: nat)
    ensures cards != [] ==> k == |cards| - 1
    ensures cards == [] ==> k == 0
  {
    if cards == [] then 0 else |cards| - 1
  }

  /** A freshly built empty deck already has visible index 0, so asking
      for its state indexes past the end of its cards. */
  lemma EmptyDeckStatePanics(id: string)
    ensures VisibleState(id, [], [LastIndex([])]).Panic?
  {
    var visible := [LastIndex([])];
    var none: seq<Card> := [];
    assert visible[0] == 0 && !(visible[0] < |none|);
  }

  class Deck {
    var id: string
    var cards: seq<Card>
    var visibleCardIndexes: seq<nat>
    var capacity: Option<nat>

    function Record(): DeckRecord
      reads this
    {
      DeckRecord(id, cards, visibleCardIndexes, capacity)
    }

    /** `Deck::from_options`: the standard deck shuffled or the custom
        cards verbatim, every card turned face down when asked, the last
        card visible, the capacity copied, and the id `{game_id}:{uuid}`. */
    constructor FromOptions(options: DeckOptions, gameId: string, uuid: string, pick: nat -> nat)
      ensures options.deckType.Standard? ==>
        |cards| == 52 && multiset(cards) == multiset(FaceDownIf(options.faceDown, StandardCards()))
      ensures options.deckType.Custom? ==> cards == FaceDownIf(options.faceDown, options.deckType.cards)
      ensures visibleCardIndexes == [LastIndex(cards)]
      ensures capacity == options.capacity
      ensures id == gameId + ":" + uuid
    {
      var built: seq<Card>;
      match options.deckType {
        case Standard =>
          built := Shuffled(StandardCards(), pick);
        case Custom(custom) =>
          built := custom;
      }
      ghost var unturned := built;
      if options.faceDown {
        built := TurnFaceDown(built);
        if options.deckType.Standard? {
          FaceDownAllPermutes(unturned, StandardCards());
        }
      }
      id := gameId + ":" + uuid;
      cards := built;
      visibleCardIndexes := [LastIndex(built)];
      capacity := options.capacity;
    }

    /** `Deck::shuffle`: refused, with the cards untouched, when a card
        other than the first or last is visible; otherwise the cards become
        a permutation of themselves and nothing else changes. */
    method Shuffle(pick: nat -> nat) returns (r: Result<(), string>)
      modifies this
      ensures r == ShuffleGuard(|old(cards)|, old(visibleCardIndexes))
      ensures !r.Ok? ==> cards == old(cards)
      ensures r.Ok? ==> |cards| == |old(cards)| && multiset(cards) == multiset(old(cards))
      ensures visibleCardIndexes == old(visibleCardIndexes)
      ensures id == old(id) && capacity == old(capacity)
    {
      r := ShuffleGuard(|cards|, visibleCardIndexes);
      if r.Ok? {
        cards := Shuffled(cards, pick);
      }
    }

    /** `Deck::state`. */
    function State(): (r: Result<WebsocketResponse, string>)
      reads this
      ensures r == VisibleState(id, cards, visibleCardIndexes)
    {
      VisibleState(id, cards, visibleCardIndexes)
    }
  }
}
