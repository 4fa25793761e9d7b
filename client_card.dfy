/** The card of the KorGE client
    (mobile/src/commonMain/kotlin/com/jackchap/multiplayercards/models/Card.kt).
    Its value is a Kotlin `Int`, a 32-bit two's-complement integer, and its
    bit layout is its own: bit 7 marks a face-down card and bit 6 a special
    one, the reverse of the backend's. */
module ClientCard {
  import opened Wrappers
  import opened KotlinInt

  const HIDDEN_CARD: Int32 := 0x80
  const SPECIAL_MASK: Int32 := 0x40
  const FACE_DOWN_MASK: Int32 := 0x80

  datatype Card = Card(value: Int32)

  /** `value and FACE_DOWN_MASK != 0`: bit 7, which `xor` with the mask
      clears. */
  predicate IsFaceDown(c: Card)
    ensures IsFaceDown(c) <==> !Bit7(Xor0x80(c.value))
  {
    Bit7(c.value)
  }

  /** `value and SPECIAL_MASK != 0`: bit 6. */
  predicate IsSpecial(c: Card)
    ensures IsSpecial(c) <==> (c.value % 128) / 64 == 1
  {
    c.value % 128 >= SPECIAL_MASK
  }

  /** `value and SPECIAL_MASK == 0`: exactly the cards that are not
      special. */
  predicate IsNumerical(c: Card)
    ensures IsNumerical(c) <==> !IsSpecial(c)
  {
    c.value % 128 < SPECIAL_MASK
  }

  /** `rank()`: `value shr 2`, an arithmetic shift, for a numerical card. */
  function Rank(c: Card): (r: Option<int>)
    ensures r.Some? <==> IsNumerical(c)
    ensures r.Some? ==> r.value * 4 <= c.value < r.value * 4 + 4
  {
    if IsNumerical(c) then Some(c.value / 4) else None
  }

  /** `suit()`: `value and 0b11`, the low two bits, of a numerical card. */
  function Suit(c: Card): (s: Option<int>)
    ensures s.Some? <==> IsNumerical(c)
    ensures s.Some? ==> 0 <= s.value < 4
    ensures s.Some? ==> Rank(c).value * 4 + s.value == c.value
  {
    if IsNumerical(c) then Some(c.value % 4) else None
  }

  /** `specialType()`: `value and 0b0011_1111`, the low six bits, of a
      special card. */
  function SpecialType(c: Card): (t: Option<int>)
    ensures t.Some? <==> IsSpecial(c)
    ensures t.Some? ==> 0 <= t.value < 64
    ensures t.Some? ==> t.value == c.value % 64
  {
    if IsSpecial(c) then Some(c.value % 64) else None
  }

  function DigitChar(d: nat): (ch: char)
    requires d < 10
    ensures '0' <= ch <= '9' && (ch as int) - ('0' as int) == d
  {
    "0123456789"[d]
  }

  predicate AllDigits(s: string)
  {
    forall i :: 0 <= i < |s| ==> '0' <= s[i] <= '9'
  }

  /** The decimal digits of a natural number, most significant first. */
  function NatToString(n: nat): (s: string)
    ensures |s| >= 1 && AllDigits(s)
    decreases n
  {
    if n < 10 then [DigitChar(n)] else NatToString(n / 10) + [DigitChar(n % 10)]
  }

  /** Kotlin's `Int.toString()`: a minus sign for a negative number, then
      its digits. */
  function IntToString(n: int): (s: string)
    ensures |s| >= 1
    ensures n >= 0 ==> AllDigits(s)
    ensures n < 0 ==> s[0] == '-' && AllDigits(s[1..])
  {
    if n < 0 then "-" + NatToString(-n) else NatToString(n)
  }

  /** The number a string of decimal digits denotes. */
  function DecimalValue(s: string): (n: nat)
    requires AllDigits(s)
    decreases |s|
  {
    if s == [] then 0 else DecimalValue(s[..|s| - 1]) * 10 + ((s[|s| - 1] as int) - ('0' as int))
  }

  /** Reading back the digits `NatToString` writes gives the number. */
  lemma {:induction false} DecimalRoundTrip(n: nat)
    ensures DecimalValue(NatToString(n)) == n
    decreases n
  {
    if n >= 10 {
      DecimalRoundTrip(n / 10);
      var s := NatToString(n);
      assert s[..|s| - 1] == NatToString(n / 10);
    }
  }

  /** The rank's word in an image name. */
  function RankName(rank: int): (name: string)
    ensures rank !in {1, 11, 12, 13} ==> name == IntToString(rank)
  {
    match rank
    case 1 => "ace"
    case 11 => "jack"
    case 12 => "queen"
    case 13 => "king"
    case _ => IntToString(rank)
  }

  function SuitName(suit: int): (s: string)
    ensures s == "unknown" <==> !(0 <= suit < 4)
  {
    match suit
    case 0 => "spades"
    case 1 => "hearts"
    case 2 => "diamonds"
    case 3 => "clubs"
    case _ => "unknown"
  }

  const BACKING := "cards/red_backing.png"

  /** `getImagePath`: the back for any face-down card, a joker or the back
      for a face-up special card, and `cards/{rank}_of_{suit}.png` for a
      face-up numerical one. */
  function ImagePath(c: Card): (path: string)
    ensures IsFaceDown(c) ==> path == BACKING
  {
    if IsFaceDown(c) then BACKING
    else if IsSpecial(c) then
      match SpecialType(c).value
      case 0 => "cards/joker_black.png"
      case 1 => "cards/joker_red.png"
      case _ => BACKING
    else
      "cards/" + RankName(Rank(c).value) + "_of_" + SuitName(Suit(c).value) + ".png"
  }

  /** The image names of the 52 cards, as the asset set spells them. */
  const RANK_WORDS: seq<string> :=
    ["ace", "2", "3", "4", "5", "6", "7", "8", "9", "10", "jack", "queen", "king"]
  const SUIT_WORDS: seq<string> := ["spades", "hearts", "diamonds", "clubs"]

  /** The sentinel is the face-down mask, so it shows the back; a card is
      numerical exactly when it is not special. */
  lemma HiddenCardShowsBack(c: Card)
    ensures HIDDEN_CARD == FACE_DOWN_MASK && IsFaceDown(Card(HIDDEN_CARD))
    ensures ImagePath(Card(HIDDEN_CARD)) == BACKING
    ensures IsNumerical(c) <==> !IsSpecial(c)
  {
  }

  /** A face-up special card shows the black joker for type 0, the red
      joker for type 1, and the back for any other type. */
  lemma SpecialImagePath(c: Card)
    requires !IsFaceDown(c) && IsSpecial(c)
    ensures SpecialType(c) == Some(0) ==> ImagePath(c) == "cards/joker_black.png"
    ensures SpecialType(c) == Some(1) ==> ImagePath(c) == "cards/joker_red.png"
    ensures SpecialType(c).value > 1 ==> ImagePath(c) == BACKING
  {
  }

  /** Which joker a face-up special card shows is decided by its low six
      bits: 0 is the black joker and 1 the red one, so `0x40` shows
      `joker_black` and `0x41` shows `joker_red`. */
  lemma JokerImagePaths(c: Card)
    requires !IsFaceDown(c) && IsSpecial(c)
    ensures ImagePath(c) == "cards/joker_black.png" <==> c.value % 64 == 0
    ensures ImagePath(c) == "cards/joker_red.png" <==> c.value % 64 == 1
    ensures ImagePath(Card(0x40)) == "cards/joker_black.png" && ImagePath(Card(0x41)) == "cards/joker_red.png"
  {
    assert "cards/joker_black.png" != BACKING && "cards/joker_red.png" != BACKING;
    assert "cards/joker_black.png" != "cards/joker_red.png";
    assert Bit7(0x40) == false && Bit7(0x41) == false;
  }

  /** A face-up numerical card's suit is one of the four, so its image
      name never says "unknown". */
  lemma SuitNameKnown(c: Card)
    requires IsNumerical(c)
    ensures SuitName(Suit(c).value) in SUIT_WORDS
  {
    var s := Suit(c).value;
    assert SuitName(s) == SUIT_WORDS[s];
  }

  /** The card built from rank `rank` (1 to 13) and suit `suit` (0 to 3),
      face up, shows the image of that rank and suit. */
  lemma NumericalImagePath(rank: int, suit: int)
    requires 1 <= rank <= 13 && 0 <= suit < 4
    ensures var c := Card(rank * 4 + suit);
      && Rank(c) == Some(rank) && Suit(c) == Some(suit)
      && ImagePath(c) == "cards/" + RANK_WORDS[rank - 1] + "_of_" + SUIT_WORDS[suit] + ".png"
  {
    SmallValueFields(rank, suit);
    RankWords(rank);
    assert SuitName(suit) == SUIT_WORDS[suit];
  }

  lemma SmallValueFields(rank: int, suit: int)
    requires 1 <= rank <= 13 && 0 <= suit < 4
    ensures var v := rank * 4 + suit;
      && !IsFaceDown(Card(v)) && IsNumerical(Card(v))
      && Rank(Card(v)) == Some(rank) && Suit(Card(v)) == Some(suit)
  {
    var v := rank * 4 + suit;
    assert v % 256 == v && v % 128 == v && v / 4 == rank && v % 4 == suit;
  }

  /** The word `RankName` gives each of the thirteen ranks. */
  lemma RankWords(rank: int)
    requires 1 <= rank <= 13
    ensures RankName(rank) == RANK_WORDS[rank - 1]
  {
    if 2 <= rank <= 9 {
      assert RankName(rank) == [DigitChar(rank)];
    } else if rank == 10 {
      assert NatToString(10) == NatToString(1) + [DigitChar(0)];
    }
  }
}
