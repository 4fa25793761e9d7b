/** The draggable card node of the Godot scene
    (mobile/game/scene/card/Card.kt): the same value and frame rule as the
    plain card node, plus the tap-versus-drag state that decides whether a
    touch flips the card. */
module SceneCard {
  import opened Wrappers
  import opened KotlinInt
  import GodotCard

  /** A Godot `Vector2`, with exact coordinates. */
  datatype Vector2 = Vector2(x: real, y: real)

  const ZERO := Vector2(0.0, 0.0)

  /** A release closer than this (squared) to the press is a tap. */
  const DRAG_INACCURACY: int := 1

  function DistanceSquared(a: Vector2, b: Vector2): (d: real)
    ensures d >= 0.0
    ensures a == b ==> d == 0.0
  {
    (a.x - b.x) * (a.x - b.x) + (a.y - b.y) * (a.y - b.y)
  }

  /** The input events `onInput` receives: a screen touch (finger index,
      pressed or released, position) or anything else. */
  datatype InputEvent = ScreenTouch(index: int, pressed: bool, position: Vector2) | OtherInput

  /** The fields `onInput` reads and writes. */
  datatype DragState = DragState(cardValue: Int32, dragging: bool, dragStartPos: Vector2, dragDelta: Vector2)

  /** `onInput`: only touches of the first finger count. A press that
      starts no drag yet starts one at the touch position. A release during
      a drag ends it, and flips the card when the finger has not moved
      beyond the drag threshold. */
  function AfterInput(s: DragState, e: InputEvent): (t: DragState)
    ensures !e.ScreenTouch? || e.index != 0 ==> t == s
    ensures e.ScreenTouch? && e.index == 0 && e.pressed ==>
      t == if s.dragging then s else s.(dragging := true, dragStartPos := e.position, dragDelta := e.position)
    ensures e.ScreenTouch? && e.index == 0 && !e.pressed && !s.dragging ==> t == s
    ensures e.ScreenTouch? && e.index == 0 && !e.pressed && s.dragging ==>
      && !t.dragging && t.dragStartPos == s.dragStartPos && t.dragDelta == s.dragDelta
      && t.cardValue == if DistanceSquared(s.dragStartPos, e.position) < DRAG_INACCURACY as real
                        then Xor0x80(s.cardValue) else s.cardValue
  {
    match e
    case OtherInput => s
    case ScreenTouch(index, pressed, position) =>
      if index != 0 then s
      else
        var pressedState :=
          if pressed && !s.dragging then s.(dragging := true, dragStartPos := position, dragDelta := position)
          else s;
        if !pressed && pressedState.dragging then
          var released := pressedState.(dragging := false);
          if DistanceSquared(released.dragStartPos, position) < DRAG_INACCURACY as real
          then released.(cardValue := Xor0x80(released.cardValue))
          else released
        else pressedState
  }

  /** A tap (press and release at one spot) on a card at rest flips it
      once and leaves it at rest. */
  lemma TapFlips(s: DragState, p: Vector2)
    requires !s.dragging
    ensures var t := AfterInput(AfterInput(s, ScreenTouch(0, true, p)), ScreenTouch(0, false, p));
      t.cardValue == Xor0x80(s.cardValue) && !t.dragging
  {
    var pressed := AfterInput(s, ScreenTouch(0, true, p));
    assert pressed.dragging && pressed.dragStartPos == p;
    assert DistanceSquared(p, p) == 0.0;
  }

  /** A drag released at least the threshold away from where it started
      leaves the card's value alone. */
  lemma DragKeepsValue(s: DragState, from: Vector2, to: Vector2)
    requires !s.dragging
    requires DistanceSquared(from, to) >= DRAG_INACCURACY as real
    ensures var t := AfterInput(AfterInput(s, ScreenTouch(0, true, from)), ScreenTouch(0, false, to));
      t.cardValue == s.cardValue && !t.dragging
  {
    var pressed := AfterInput(s, ScreenTouch(0, true, from));
    assert pressed.dragging && pressed.dragStartPos == from && pressed.cardValue == s.cardValue;
  }

  /** Two taps give the card its value back. */
  lemma DoubleTapRestores(s: DragState, p: Vector2, q: Vector2)
    requires !s.dragging
    ensures var once := AfterInput(AfterInput(s, ScreenTouch(0, true, p)), ScreenTouch(0, false, p));
      var twice := AfterInput(AfterInput(once, ScreenTouch(0, true, q)), ScreenTouch(0, false, q));
      twice.cardValue == s.cardValue
  {
    TapFlips(s, p);
    var once := AfterInput(AfterInput(s, ScreenTouch(0, true, p)), ScreenTouch(0, false, p));
    TapFlips(once, q);
    XorInvolution(s.cardValue);
  }

  class Card {
    var cardValue: Int32
    var dragging: bool
    var dragDelta: Vector2
    var dragStartPos: Vector2
    /** Whether the node is in the scene tree (`isInsideTree()`). */
    var insideTree: bool
    /** The frame the sprite shows; none before `_ready` has run. */
    var shownFrame: Option<int>

    function Drag(): DragState
      reads this
    {
      DragState(cardValue, dragging, dragStartPos, dragDelta)
    }

    constructor ()
      ensures cardValue == 0 && !dragging && dragDelta == ZERO && dragStartPos == ZERO
      ensures !insideTree && shownFrame == None
    {
      cardValue := 0;
      dragging := false;
      dragDelta := ZERO;
      dragStartPos := ZERO;
      insideTree := false;
      shownFrame := None;
    }

    /** `_ready`: the node enters the tree and shows its frame; the input
        signal is connected to `onInput`. */
    method Ready()
      modifies this
      ensures insideTree && Drag() == old(Drag())
      ensures shownFrame == Some(GodotCard.TextureFrame(cardValue))
    {
      insideTree := true;
      UpdateTexture();
    }

    /** `updateTexture`: the frame rule of the plain card node. */
    method UpdateTexture()
      modifies this
      ensures shownFrame == Some(GodotCard.TextureFrame(cardValue))
      ensures Drag() == old(Drag()) && insideTree == old(insideTree)
    {
      shownFrame := Some(GodotCard.TextureFrame(cardValue));
    }

    /** The `cardValue` setter. */
    method SetCardValue(value: Int32)
      modifies this
      ensures Drag() == old(Drag()).(cardValue := value) && insideTree == old(insideTree)
      ensures shownFrame == if insideTree then Some(GodotCard.TextureFrame(value)) else old(shownFrame)
    {
      cardValue := value;
      if insideTree {
        UpdateTexture();
      }
    }

    /** `flip`: toggles bit 7 through the setter. */
    method Flip()
      modifies this
      ensures Drag() == old(Drag()).(cardValue := Xor0x80(old(cardValue))) && insideTree == old(insideTree)
      ensures shownFrame == if insideTree then Some(GodotCard.TextureFrame(cardValue)) else old(shownFrame)
    {
      SetCardValue(Xor0x80(cardValue));
    }

    /** `onInput`. The frame is redrawn only when the card flips. */
    method OnInput(e: InputEvent)
      modifies this
      ensures Drag() == AfterInput(old(Drag()), e) && insideTree == old(insideTree)
      ensures shownFrame ==
        if cardValue != old(cardValue) && insideTree then Some(GodotCard.TextureFrame(cardValue))
        else old(shownFrame)
    {
      if !e.ScreenTouch? {
        return;
      }
      if e.index != 0 {
        return;
      }
      if e.pressed && !dragging {
        dragging := true;
        dragStartPos := e.position;
        dragDelta := e.position;
      }
      if !e.pressed && dragging {
        dragging := false;
        if DistanceSquared(dragStartPos, e.position) < DRAG_INACCURACY as real {
          Flip();
        }
      }
    }
  }
}
