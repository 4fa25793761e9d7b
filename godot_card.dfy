/** The card node of the Godot client (mobile/game/card/Card.kt): its value
    is a Kotlin `Int` whose bit 7 marks a face-down card, and its sprite
    shows one frame of a sheet whose frame 0 is the card back. */
module GodotCard {
  import opened Wrappers
  import opened KotlinInt

  /** The frame `updateTexture` shows: `suit * 13 + rank` for a face-up
      value, with suit the low two bits and rank the value shifted right
      logically by two, and the back (frame 0) for a face-down one. */
  function TextureFrame(v: Int32): (frame: int)
    ensures Bit7(v) ==> frame == 0
    ensures !Bit7(v) && 0 <= v ==> frame == (v % 4) * 13 + v / 4
    ensures 0 <= frame < 0x8000_0000
  {
    if !Bit7(v) then (v % 4) * 13 + Ushr2(v) else 0
  }

  /** A face-up card of rank 1 to 13 and suit 0 to 3 shows frame
      `suit * 13 + rank`, one of frames 1 to 52. */
  lemma FrameOfCard(rank: int, suit: int)
    requires 1 <= rank <= 13 && 0 <= suit < 4
    ensures TextureFrame(rank * 4 + suit) == suit * 13 + rank
    ensures 1 <= TextureFrame(rank * 4 + suit) <= 52
  {
    var v := rank * 4 + suit;
    assert v % 256 == v && v % 4 == suit && v / 4 == rank;
  }

  /** Distinct cards show distinct frames. */
  lemma FramesDistinct(rank1: int, suit1: int, rank2: int, suit2: int)
    requires 1 <= rank1 <= 13 && 0 <= suit1 < 4
    requires 1 <= rank2 <= 13 && 0 <= suit2 < 4
    requires rank1 != rank2 || suit1 != suit2
    ensures TextureFrame(rank1 * 4 + suit1) != TextureFrame(rank2 * 4 + suit2)
  {
    FrameOfCard(rank1, suit1);
    FrameOfCard(rank2, suit2);
  }

  /** The frame rule reads every face-up value as a rank and a suit, so a
      value with bit 6 set, the client's special-card bit, shows a
      numbered card: `0x40` shows frame 16, the same as rank 3 of suit 1
      (`0x0D`). */
  lemma SpecialValueSharesFrame()
    ensures TextureFrame(0x40) == 16 == TextureFrame(0x0D)
  {
    FrameOfCard(3, 1);
    assert TextureFrame(0x40) == (0x40 % 4) * 13 + 0x40 / 4;
  }

  /** Flipping a face-up card shows the back; flipping it again shows its
      face. */
  lemma FlipShowsBack(v: Int32)
    requires !Bit7(v)
    ensures TextureFrame(Xor0x80(v)) == 0
    ensures TextureFrame(Xor0x80(Xor0x80(v))) == TextureFrame(v)
  {
    XorInvolution(v);
  }

  class Card {
    var cardValue: Int32
    /** Whether the node is in the scene tree (`isInsideTree()`). */
    var insideTree: bool
    /** The frame the sprite shows; none before `_ready` has run. */
    var shownFrame: Option<int>

    /** `Card.instantiate(value)`: a new node, outside the tree, holding
        `value`. */
    constructor Instantiate(value: Int32)
      ensures cardValue == value && !insideTree && shownFrame == None
    {
      cardValue := value;
      insideTree := false;
      shownFrame := None;
    }

    /** `_ready`: the node enters the tree and shows its frame. */
    method Ready()
      modifies this
      ensures insideTree && cardValue == old(cardValue)
      ensures shownFrame == Some(TextureFrame(cardValue))
    {
      insideTree := true;
      UpdateTexture();
    }

    /** `updateTexture`. */
    method UpdateTexture()
      modifies this
      ensures shownFrame == Some(TextureFrame(cardValue))
      ensures cardValue == old(cardValue) && insideTree == old(insideTree)
    {
      shownFrame := Some(TextureFrame(cardValue));
    }

    /** The `cardValue` setter: stores the value and, inside the tree,
        shows its frame. */
    method SetCardValue(value: Int32)
      modifies this
      ensures cardValue == value && insideTree == old(insideTree)
      ensures shownFrame == if insideTree then Some(TextureFrame(value)) else old(shownFrame)
    {
      cardValue := value;
      if insideTree {
        UpdateTexture();
      }
    }

    /** `flip`: toggles bit 7 through the setter. */
    method Flip()
      modifies this
      ensures cardValue == Xor0x80(old(cardValue)) && insideTree == old(insideTree)
      ensures shownFrame == if insideTree then Some(TextureFrame(cardValue)) else old(shownFrame)
    {
      SetCardValue(Xor0x80(cardValue));
    }
  }
}
