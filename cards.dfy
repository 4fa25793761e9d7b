/** The backend's one-byte card encoding (backend/src/game/deck.rs).
    Bit 7 marks a special card, bit 6 a face-down card; a special card keeps
    its kind in bits 0-5, an ordinary card its rank in bits 2-5 and its suit
    in bits 0-1. */
module Cards {
  import opened Wrappers

  datatype Suit = Spades | Hearts | Diamonds | Clubs

  datatype Rank = Ace | Two | Three | Four | Five | Six | Seven
                | Eight | Nine | Ten | Jack | Queen | King

  datatype SpecialCard = JokerBlack | JokerRed

  /** The `#[repr(u8)]` discriminants. */
  function SuitByte(s: Suit): (b: bv8)
    ensures b <= 3
  {
    match s
    case Spades => 0
    case Hearts => 1
    case Diamonds => 2
    case Clubs => 3
  }

  function RankByte(r: Rank): (b: bv8)
    ensures 1 <= b <= 13
  {
    match r
    case Ace => 1
    case Two => 2
    case Three => 3
    case Four => 4
    case Five => 5
    case Six => 6
    case Seven => 7
    case Eight => 8
    case Nine => 9
    case Ten => 10
    case Jack => 11
    case Queen => 12
    case King => 13
  }

  function SpecialByte(k: SpecialCard): (b: bv8)
    ensures b <= 1
  {
    match k
    case JokerBlack => 0
    case JokerRed => 1
  }

  /** The enum whose discriminant is `b`, if there is one: what a
      `transmute` to the enum is defined on. */
  function SuitWithByte(b: bv8): (r: Option<Suit>)
    ensures r.Some? <==> b <= 3
    ensures r.Some? ==> SuitByte(r.value) == b
  {
    if b == 0 then Some(Spades)
    else if b == 1 then Some(Hearts)
    else if b == 2 then Some(Diamonds)
    else if b == 3 then Some(Clubs)
    else None
  }

  function RankWithByte(b: bv8): (r: Option<Rank>)
    ensures r.Some? <==> 1 <= b <= 13
    ensures r.Some? ==> RankByte(r.value) == b
  {
    if b == 1 then Some(Ace)
    else if b == 2 then Some(Two)
    else if b == 3 then Some(Three)
    else if b == 4 then Some(Four)
    else if b == 5 then Some(Five)
    else if b == 6 then Some(Six)
    else if b == 7 then Some(Seven)
    else if b == 8 then Some(Eight)
    else if b == 9 then Some(Nine)
    else if b == 10 then Some(Ten)
    else if b == 11 then Some(Jack)
    else if b == 12 then Some(Queen)
    else if b == 13 then Some(King)
    else None
  }

  function SpecialWithByte(b: bv8): (r: Option<SpecialCard>)
    ensures r.Some? <==> b <= 1
    ensures r.Some? ==> SpecialByte(r.value) == b
  {
    if b == 0 then Some(JokerBlack)
    else if b == 1 then Some(JokerRed)
    else None
  }

  lemma RankByteInjective(r1: Rank, r2: Rank)
    requires RankByte(r1) == RankByte(r2)
    ensures r1 == r2
  {
    assert RankWithByte(RankByte(r1)) == Some(r1) by { RankWithByteOfRankByte(r1); }
    assert RankWithByte(RankByte(r2)) == Some(r2) by { RankWithByteOfRankByte(r2); }
  }

  lemma RankWithByteOfRankByte(r: Rank)
    ensures RankWithByte(RankByte(r)) == Some(r)
  {
  }

  datatype Card = Card(value: bv8)

  const FACE_DOWN_BIT: bv8 := 0x40
  const SPECIAL_BIT: bv8 := 0x80

  /** The sentinel sent to clients in place of a face-down card. */
  const HIDDEN_CARD: Card := Card(0x40)

  /** `Card::is_face_down`: bit 6, which setting it again leaves as is. */
  predicate IsFaceDown(c: Card)
    ensures IsFaceDown(c) <==> c.value | FACE_DOWN_BIT == c.value
  {
    c.value & FACE_DOWN_BIT != 0
  }

  /** `Card::is_special`: bit 7, so every special byte is 128 or more. */
  predicate IsSpecial(c: Card)
    ensures IsSpecial(c) <==> c.value >= 0x80
  {
    c.value & SPECIAL_BIT != 0
  }

  /** `Card::is_numerical`: exactly the cards that are not special. */
  predicate IsNumerical(c: Card)
    ensures IsNumerical(c) <==> !IsSpecial(c) && c.value < 0x80
  {
    c.value & SPECIAL_BIT == 0
  }

  /** `Card::numerical`: `(rank << 2) | suit`. */
  function Numerical(rank: Rank, suit: Suit): (c: Card)
    ensures IsNumerical(c) && !IsSpecial(c) && !IsFaceDown(c)
  {
    Card((RankByte(rank) << 2) | SuitByte(suit))
  }

  /** `Card::special`: bit 7 plus the kind. */
  function Special(kind: SpecialCard): (c: Card)
    ensures IsSpecial(c) && !IsNumerical(c) && !IsFaceDown(c)
  {
    Card(SPECIAL_BIT | SpecialByte(kind))
  }

  /** `Card::as_face_down`: sets bit 6 and nothing else. */
  function AsFaceDown(c: Card): (r: Card)
    ensures IsFaceDown(r)
    ensures IsSpecial(r) == IsSpecial(c) && IsNumerical(r) == IsNumerical(c)
    ensures r.value & 0xBF == c.value & 0xBF
    ensures IsFaceDown(c) ==> r == c
  {
    Card(c.value | FACE_DOWN_BIT)
  }

  /** `Card::from_u8`: the byte is kept as it is, after a debug assertion
      whose mask is written `0b1011_000` (bits 3, 4 and 6). */
  function CardFromU8(val: bv8): (r: Result<Card, string>)
    ensures r.Ok? ==> r.value == Card(val)
    ensures r.Ok? || r.Panic?
  {
    if val & 0x58 <= 52 || (val & 0x80 != 0 && val & 0x3F <= SpecialByte(JokerRed)) then Ok(Card(val))
    else Panic("Invalid card byte")
  }

  /** The assertion in `Card::from_u8` lets through exactly the bytes with
      bit 6 clear and the bytes of a joker, face-down or not. */
  lemma CardFromU8Accepts(val: bv8)
    ensures CardFromU8(val).Ok? <==> (val & 0x40 == 0 || (val & 0x80 != 0 && val & 0x3F <= 1))
  {
  }

  // ---------------------------------------------------------------------
  // The decoders as written (deck.rs lines 49-70 and 116-126)
  // ---------------------------------------------------------------------

  /** `Rank::from_u8` as written: asserts `val >> 2 <= 12`, then transmutes
      `val >> 2` without masking bit 6. A discriminant that names no rank is
      undefined behaviour; the model reports it as a panic. */
  function RankFromU8(val: bv8): (r: Result<Rank, string>)
    ensures r.Ok? <==> 1 <= val >> 2 <= 12
    ensures r.Ok? ==> RankByte(r.value) == val >> 2
    ensures !r.Ok? ==> r.Panic?
  {
    if !(val >> 2 <= 12) then Panic("Invalid rank")
    else match RankWithByte(val >> 2)
      case Some(rank) => Ok(rank)
      case None => Panic("transmute to Rank of a value that names no rank")
  }

  /** `Suit::from_u8`: `val & 0b11` is always a suit. */
  function SuitFromU8(val: bv8): (s: Suit)
    ensures SuitByte(s) == val & 3
  {
    SuitWithByte(val & 3).value
  }

  /** `SpecialCard::from_u8` as written: asserts `val & 0x7F <= 1` and
      transmutes `val & 0x7F`, which keeps bit 6. */
  function SpecialFromU8(val: bv8): (r: Result<SpecialCard, string>)
    ensures r.Ok? <==> val & 0x7F <= 1
    ensures r.Ok? ==> SpecialByte(r.value) == val & 0x7F
    ensures !r.Ok? ==> r.Panic?
  {
    if val & 0x7F <= SpecialByte(JokerRed) then Ok(SpecialWithByte(val & 0x7F).value)
    else Panic("Invalid suit")
  }

  /** `Card::rank` as written. */
  function RankAsWritten(c: Card): (r: Result<Option<Rank>, string>)
    ensures IsSpecial(c) ==> r == Ok(None)
    ensures IsNumerical(c) ==> !r.Err? && (r.Ok? <==> 1 <= c.value >> 2 <= 12)
    ensures IsNumerical(c) && r.Ok? ==> r.value.Some? && RankByte(r.value.value) == c.value >> 2
  {
    if IsNumerical(c) then
      match RankFromU8(c.value)
      case Ok(rank) => Ok(Some(rank))
      case Err(e) => Err(e)
      case Panic(why) => Panic(why)
    else Ok(None)
  }

  /** `Card::kind` as written. */
  function KindAsWritten(c: Card): (r: Result<Option<SpecialCard>, string>)
    ensures IsNumerical(c) ==> r == Ok(None)
    ensures IsSpecial(c) ==> !r.Err? && (r.Ok? <==> c.value & 0x7F <= 1)
    ensures IsSpecial(c) && r.Ok? ==> r.value.Some? && SpecialByte(r.value.value) == c.value & 0x7F
  {
    if IsSpecial(c) then
      match SpecialFromU8(c.value)
      case Ok(kind) => Ok(Some(kind))
      case Err(e) => Err(e)
      case Panic(why) => Panic(why)
    else Ok(None)
  }

  /** The assertion at deck.rs line 51 rejects every King. */
  lemma KingTripsRankAssertion(s: Suit)
    ensures RankAsWritten(Numerical(King, s)).Panic?
  {
    assert Numerical(King, s).value >> 2 == 13 by {
      match s
      case Spades => case Hearts => case Diamonds => case Clubs =>
    }
  }

  /** `HIDDEN_CARD` is a face-down ordinary card that carries neither a
      rank nor a kind, so it gives away nothing of the card it stands for. */
  lemma HiddenCardCarriesNoValue()
    ensures IsFaceDown(HIDDEN_CARD) && IsNumerical(HIDDEN_CARD)
    ensures RankOf(HIDDEN_CARD) == None && KindOf(HIDDEN_CARD) == None
    ensures HIDDEN_CARD == AsFaceDown(Card(0))
  {
  }

  /** Turning a card face down makes `rank()` as written fail: bit 6 lands in
      the rank field, so the byte reads as the rank plus 16. */
  lemma FaceDownRankAsWrittenFails(r: Rank, s: Suit)
    ensures AsFaceDown(Numerical(r, s)).value >> 2 == RankByte(r) + 16
    ensures RankAsWritten(AsFaceDown(Numerical(r, s))).Panic?
  {
    var b := RankByte(r);
    var t := SuitByte(s);
    assert AsFaceDown(Numerical(r, s)).value == ((b << 2) | t) | 0x40;
    assert 1 <= b <= 13 && t <= 3;
    assert ((((b << 2) | t) | 0x40) >> 2) == b + 16 by {
      BitsOfRankAndSuit(b, t);
    }
  }

  lemma BitsOfRankAndSuit(b: bv8, t: bv8)
    requires 1 <= b <= 13 && t <= 3
    ensures ((((b << 2) | t) | 0x40) >> 2) == b + 16
  {
  }

  /** `kind()` as written fails on a face-down joker: bit 6 is not masked. */
  lemma FaceDownJokerAsWrittenFails(k: SpecialCard)
    ensures KindAsWritten(AsFaceDown(Special(k))).Panic?
  {
  }

  /** On a face-up card of any rank but King, `rank()` as written gives
      back the rank the card was built with. */
  lemma RankAsWrittenFaceUp(r: Rank, s: Suit)
    requires r != King
    ensures RankAsWritten(Numerical(r, s)) == Ok(Some(r))
  {
    NumericalFields(r, s);
    RankWithByteOfRankByte(r);
  }

  /** On a face-up joker, `kind()` as written gives back its kind. */
  lemma KindAsWrittenFaceUp(k: SpecialCard)
    ensures KindAsWritten(Special(k)) == Ok(Some(k))
  {
  }

  // ---------------------------------------------------------------------
  // The decoders as the layout comment intends (corrected)
  // ---------------------------------------------------------------------

  /** The rank of an ordinary card, read from bits 2-5 only; `None` for a
      special card or a rank field outside 1..13. */
  function RankOf(c: Card): (r: Option<Rank>)
    ensures r.Some? ==> IsNumerical(c) && RankByte(r.value) == (c.value & 0x3F) >> 2
    ensures IsNumerical(c) && 1 <= (c.value & 0x3F) >> 2 <= 13 ==> r.Some?
  {
    if IsNumerical(c) then RankWithByte((c.value & 0x3F) >> 2) else None
  }

  /** The suit of an ordinary card, bits 0-1; `None` for a special card. */
  function SuitOf(c: Card): (r: Option<Suit>)
    ensures r.Some? <==> IsNumerical(c)
    ensures r.Some? ==> SuitByte(r.value) == c.value & 3
  {
    if IsNumerical(c) then Some(SuitFromU8(c.value)) else None
  }

  /** The kind of a special card, bits 0-5; `None` for an ordinary card or
      a kind field that names no joker. */
  function KindOf(c: Card): (r: Option<SpecialCard>)
    ensures r.Some? <==> IsSpecial(c) && c.value & 0x3F <= 1
    ensures r.Some? ==> SpecialByte(r.value) == c.value & 0x3F
  {
    if IsSpecial(c) then SpecialWithByte(c.value & 0x3F) else None
  }

  lemma NumericalFields(r: Rank, s: Suit)
    ensures (Numerical(r, s).value & 0x3F) >> 2 == RankByte(r)
    ensures Numerical(r, s).value & 3 == SuitByte(s)
  {
    var b := RankByte(r);
    var t := SuitByte(s);
    assert 1 <= b <= 13 && t <= 3;
    FieldsOfRankAndSuit(b, t);
  }

  lemma FieldsOfRankAndSuit(b: bv8, t: bv8)
    requires b <= 15 && t <= 3
    ensures ((((b << 2) | t) & 0x3F) >> 2) == b
    ensures ((b << 2) | t) & 3 == t
  {
  }

  /** Encoding an ordinary card and decoding it gives back its rank and
      suit, and it has no joker kind. */
  lemma NumericalRoundTrip(r: Rank, s: Suit)
    ensures RankOf(Numerical(r, s)) == Some(r)
    ensures SuitOf(Numerical(r, s)) == Some(s)
    ensures KindOf(Numerical(r, s)) == None
  {
    NumericalFields(r, s);
    var d := RankOf(Numerical(r, s));
    assert d.Some?;
    RankByteInjective(d.value, r);
    var e := SuitOf(Numerical(r, s));
    SuitByteInjective(e.value, s);
  }

  lemma SuitByteInjective(s1: Suit, s2: Suit)
    requires SuitByte(s1) == SuitByte(s2)
    ensures s1 == s2
  {
  }

  /** Encoding a joker and decoding it gives back its kind, and it has
      neither rank nor suit. */
  lemma SpecialRoundTrip(k: SpecialCard)
    ensures KindOf(Special(k)) == Some(k)
    ensures RankOf(Special(k)) == None && SuitOf(Special(k)) == None
  {
  }

  /** As the comment at deck.rs line 83 promises, a face-down card's value
      is still accessible: turning it over changes neither rank, suit nor
      kind. */
  lemma FaceDownKeepsValue(c: Card)
    ensures RankOf(AsFaceDown(c)) == RankOf(c)
    ensures SuitOf(AsFaceDown(c)) == SuitOf(c)
    ensures KindOf(AsFaceDown(c)) == KindOf(c)
  {
    assert (AsFaceDown(c).value & 0x3F) == c.value & 0x3F;
  }

  /** `as_face_down` is idempotent, and the hidden sentinel is itself a
      face-down card with no decodable rank. */
  lemma AsFaceDownIdempotent(c: Card)
    ensures AsFaceDown(AsFaceDown(c)) == AsFaceDown(c)
    ensures IsFaceDown(HIDDEN_CARD) && RankOf(HIDDEN_CARD) == None
  {
  }
}
