/**
 * The logical inputs of the UltimateR4 controller mode: the per-frame button
 * snapshot, the fixed table of 20 default button indices, and the lookup from
 * an index (0-based) or a rule's button number (1-based) to the snapshot.
 */
module Inputs {

  /** One frame's debounced state of the 20 logical buttons. */
  datatype InputState = InputState(
    l: bool, left: bool, down: bool, right: bool,
    modX: bool, modY: bool, start: bool, r: bool,
    y: bool, lightshield: bool, midshield: bool, b: bool,
    x: bool, z: bool, up: bool, cLeft: bool,
    cUp: bool, cDown: bool, a: bool, cRight: bool)

  /** The snapshot with no button held. */
  const NoneHeld: InputState :=
    InputState(false, false, false, false, false, false, false, false, false, false,
               false, false, false, false, false, false, false, false, false, false)

  /**
   * The fields of InputState, by name: what an SOCD pair's member
   * reference (`&InputState::left` and so on) designates.
   */
  datatype Button =
    | L | Left | Down | Right | ModX | ModY | Start | R | Y | Lightshield
    | Midshield | B | X | Z | Up | CLeft | CUp | CDown | A | CRight

  /** Reads the field that `button` designates. */
  function Held(inputs: InputState, button: Button): bool
  {
    match button
    case L => inputs.l
    case Left => inputs.left
    case Down => inputs.down
    case Right => inputs.right
    case ModX => inputs.modX
    case ModY => inputs.modY
    case Start => inputs.start
    case R => inputs.r
    case Y => inputs.y
    case Lightshield => inputs.lightshield
    case Midshield => inputs.midshield
    case B => inputs.b
    case X => inputs.x
    case Z => inputs.z
    case Up => inputs.up
    case CLeft => inputs.cLeft
    case CUp => inputs.cUp
    case CDown => inputs.cDown
    case A => inputs.a
    case CRight => inputs.cRight
  }

  /** Number of logical buttons; valid default indices are 0 .. ButtonCount - 1. */
  const ButtonCount: int := 20

  // The default button indices.
  const BtnL: int := 0
  const BtnLeft: int := 1
  const BtnDown: int := 2
  const BtnRight: int := 3
  const BtnModX: int := 4
  const BtnModY: int := 5
  const BtnStart: int := 6
  const BtnR: int := 7
  const BtnY: int := 8
  const BtnLightshield: int := 9
  const BtnMidshield: int := 10
  const BtnB: int := 11
  const BtnX: int := 12
  const BtnZ: int := 13
  const BtnUp: int := 14
  const BtnCLeft: int := 15
  const BtnCUp: int := 16
  const BtnCDown: int := 17
  const BtnA: int := 18
  const BtnCRight: int := 19

  /**
   * The switch from a default button index to the field it reads; any index
   * outside the table reads as not pressed.
   */
  function IsPressed(inputs: InputState, buttonIndex: int): (pressed: bool)
    ensures pressed ==> 0 <= buttonIndex < ButtonCount
  {
    if buttonIndex == BtnL then inputs.l
    else if buttonIndex == BtnLeft then inputs.left
    else if buttonIndex == BtnDown then inputs.down
    else if buttonIndex == BtnRight then inputs.right
    else if buttonIndex == BtnModX then inputs.modX
    else if buttonIndex == BtnModY then inputs.modY
    else if buttonIndex == BtnStart then inputs.start
    else if buttonIndex == BtnR then inputs.r
    else if buttonIndex == BtnY then inputs.y
    else if buttonIndex == BtnLightshield then inputs.lightshield
    else if buttonIndex == BtnMidshield then inputs.midshield
    else if buttonIndex == BtnB then inputs.b
    else if buttonIndex == BtnX then inputs.x
    else if buttonIndex == BtnZ then inputs.z
    else if buttonIndex == BtnUp then inputs.up
    else if buttonIndex == BtnCLeft then inputs.cLeft
    else if buttonIndex == BtnCUp then inputs.cUp
    else if buttonIndex == BtnCDown then inputs.cDown
    else if buttonIndex == BtnA then inputs.a
    else if buttonIndex == BtnCRight then inputs.cRight
    else false
  }

  /**
   * A button number as written in a profile rule: numbers are 1-based, so
   * number `number` tests default index `number - 1`.
   */
  function Pressed(inputs: InputState, number: int): (pressed: bool)
    ensures pressed ==> 1 <= number <= ButtonCount
  {
    IsPressed(inputs, number - 1)
  }

  /** The default index bound to each field, as the constant table gives it. */
  function DefaultIndex(button: Button): (index: int)
    ensures 0 <= index < ButtonCount
  {
    match button
    case L => BtnL
    case Left => BtnLeft
    case Down => BtnDown
    case Right => BtnRight
    case ModX => BtnModX
    case ModY => BtnModY
    case Start => BtnStart
    case R => BtnR
    case Y => BtnY
    case Lightshield => BtnLightshield
    case Midshield => BtnMidshield
    case B => BtnB
    case X => BtnX
    case Z => BtnZ
    case Up => BtnUp
    case CLeft => BtnCLeft
    case CUp => BtnCUp
    case CDown => BtnCDown
    case A => BtnA
    case CRight => BtnCRight
  }

  /** The field bound to an in-range default index: the inverse of DefaultIndex. */
  function ButtonAt(index: int): (button: Button)
    requires 0 <= index < ButtonCount
    ensures DefaultIndex(button) == index
  {
    if index == BtnL then L else if index == BtnLeft then Left else if index == BtnDown then Down
    else if index == BtnRight then Right else if index == BtnModX then ModX
    else if index == BtnModY then ModY else if index == BtnStart then Start
    else if index == BtnR then R else if index == BtnY then Y
    else if index == BtnLightshield then Lightshield else if index == BtnMidshield then Midshield
    else if index == BtnB then B else if index == BtnX then X else if index == BtnZ then Z
    else if index == BtnUp then Up else if index == BtnCLeft then CLeft
    else if index == BtnCUp then CUp else if index == BtnCDown then CDown
    else if index == BtnA then A else CRight
  }

  /** The snapshot in which exactly `button` is held. */
  function OnlyHeld(button: Button): (inputs: InputState)
    ensures forall other :: Held(inputs, other) <==> other == button
  {
    match button
    case L => NoneHeld.(l := true)
    case Left => NoneHeld.(left := true)
    case Down => NoneHeld.(down := true)
    case Right => NoneHeld.(right := true)
    case ModX => NoneHeld.(modX := true)
    case ModY => NoneHeld.(modY := true)
    case Start => NoneHeld.(start := true)
    case R => NoneHeld.(r := true)
    case Y => NoneHeld.(y := true)
    case Lightshield => NoneHeld.(lightshield := true)
    case Midshield => NoneHeld.(midshield := true)
    case B => NoneHeld.(b := true)
    case X => NoneHeld.(x := true)
    case Z => NoneHeld.(z := true)
    case Up => NoneHeld.(up := true)
    case CLeft => NoneHeld.(cLeft := true)
    case CUp => NoneHeld.(cUp := true)
    case CDown => NoneHeld.(cDown := true)
    case A => NoneHeld.(a := true)
    case CRight => NoneHeld.(cRight := true)
  }

  /** The switch reads, at each field's default index, exactly that field. */
  lemma IsPressedReadsBoundField(inputs: InputState, button: Button)
    ensures IsPressed(inputs, DefaultIndex(button)) == Held(inputs, button)
  {
  }

  /**
   * The switch agrees with the index table at every index: in range it reads
   * the field bound there, out of range it reports false.
   */
  lemma IsPressedMatchesTable(inputs: InputState, index: int)
    ensures IsPressed(inputs, index) ==
            (0 <= index < ButtonCount && Held(inputs, ButtonAt(index)))
  {
    if 0 <= index < ButtonCount {
      IsPressedReadsBoundField(inputs, ButtonAt(index));
    }
  }

  /** No two fields share a default index. */
  lemma DefaultIndexInjective(b1: Button, b2: Button)
    ensures DefaultIndex(b1) == DefaultIndex(b2) ==> b1 == b2
  {
  }

  /**
   * Holding a single button makes exactly its own default index report
   * pressed, and no other index.
   */
  lemma SinglePressReportsOnlyItsIndex(button: Button, index: int)
    ensures IsPressed(OnlyHeld(button), index) <==> index == DefaultIndex(button)
  {
    IsPressedMatchesTable(OnlyHeld(button), index);
    if 0 <= index < ButtonCount {
      DefaultIndexInjective(ButtonAt(index), button);
    }
  }

  /** Rule number `DefaultIndex(b) + 1` tests field `b`; numbers 0 and above 20 never test anything. */
  lemma PressedIsOneBased(inputs: InputState, button: Button, number: int)
    ensures Pressed(inputs, DefaultIndex(button) + 1) == Held(inputs, button)
    ensures (number < 1 || number > ButtonCount) ==> !Pressed(inputs, number)
  {
    IsPressedReadsBoundField(inputs, button);
  }

  /** With no button held, no index reports pressed. */
  lemma NothingPressedWhenNoneHeld(index: int)
    ensures !IsPressed(NoneHeld, index)
  {
  }
}
