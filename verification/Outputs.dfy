/**
 * The output report the controller mode fills in each frame: 17 digital
 * fields and 6 analog fields on the 8-bit unsigned scale, the names a profile
 * rule uses for them, and the mutable OutputState the mode writes through.
 */
module Outputs {

  datatype Option<T> = None | Some(value: T)

  /** An 8-bit unsigned analog level. */
  newtype uint8 = x: int | 0 <= x < 256

  /** The fields of OutputState. */
  datatype Field =
    | A | B | X | Y | ButtonL | ButtonR | TriggerLDigital | TriggerRDigital
    | Start | Select | Home | DpadUp | DpadDown | DpadLeft | DpadRight
    | LeftStickClick | RightStickClick
    | LeftStickX | LeftStickY | RightStickX | RightStickY
    | TriggerLAnalog | TriggerRAnalog

  predicate IsAnalog(f: Field)
  {
    f.LeftStickX? || f.LeftStickY? || f.RightStickX? || f.RightStickY? ||
    f.TriggerLAnalog? || f.TriggerRAnalog?
  }

  /** What one field holds: a digital field a bool, an analog field a level. */
  datatype Slot = Digital(on: bool) | Analog(level: uint8)

  /** Whether `s` is the kind of content field `f` can hold. */
  predicate SlotFits(f: Field, s: Slot)
  {
    s.Analog? == IsAnalog(f)
  }

  /** The value of an OutputState: one component per field. */
  datatype OutputSnapshot = OutputSnapshot(
    a: bool, b: bool, x: bool, y: bool,
    buttonL: bool, buttonR: bool, triggerLDigital: bool, triggerRDigital: bool,
    start: bool, select: bool, home: bool,
    dpadUp: bool, dpadDown: bool, dpadLeft: bool, dpadRight: bool,
    leftStickClick: bool, rightStickClick: bool,
    leftStickX: uint8, leftStickY: uint8, rightStickX: uint8, rightStickY: uint8,
    triggerLAnalog: uint8, triggerRAnalog: uint8)

  /** Reads field `f` of a snapshot. */
  function Get(o: OutputSnapshot, f: Field): Slot
  {
    match f
    case A => Digital(o.a)
    case B => Digital(o.b)
    case X => Digital(o.x)
    case Y => Digital(o.y)
    case ButtonL => Digital(o.buttonL)
    case ButtonR => Digital(o.buttonR)
    case TriggerLDigital => Digital(o.triggerLDigital)
    case TriggerRDigital => Digital(o.triggerRDigital)
    case Start => Digital(o.start)
    case Select => Digital(o.select)
    case Home => Digital(o.home)
    case DpadUp => Digital(o.dpadUp)
    case DpadDown => Digital(o.dpadDown)
    case DpadLeft => Digital(o.dpadLeft)
    case DpadRight => Digital(o.dpadRight)
    case LeftStickClick => Digital(o.leftStickClick)
    case RightStickClick => Digital(o.rightStickClick)
    case LeftStickX => Analog(o.leftStickX)
    case LeftStickY => Analog(o.leftStickY)
    case RightStickX => Analog(o.rightStickX)
    case RightStickY => Analog(o.rightStickY)
    case TriggerLAnalog => Analog(o.triggerLAnalog)
    case TriggerRAnalog => Analog(o.triggerRAnalog)
  }

  /** Writes field `f` of a snapshot with `s`, copying every other field. */
  function Set(o: OutputSnapshot, f: Field, s: Slot): OutputSnapshot
    requires SlotFits(f, s)
  {
    OutputSnapshot(
      if f.A? then s.on else o.a,
      if f.B? then s.on else o.b,
      if f.X? then s.on else o.x,
      if f.Y? then s.on else o.y,
      if f.ButtonL? then s.on else o.buttonL,
      if f.ButtonR? then s.on else o.buttonR,
      if f.TriggerLDigital? then s.on else o.triggerLDigital,
      if f.TriggerRDigital? then s.on else o.triggerRDigital,
      if f.Start? then s.on else o.start,
      if f.Select? then s.on else o.select,
      if f.Home? then s.on else o.home,
      if f.DpadUp? then s.on else o.dpadUp,
      if f.DpadDown? then s.on else o.dpadDown,
      if f.DpadLeft? then s.on else o.dpadLeft,
      if f.DpadRight? then s.on else o.dpadRight,
      if f.LeftStickClick? then s.on else o.leftStickClick,
      if f.RightStickClick? then s.on else o.rightStickClick,
      if f.LeftStickX? then s.level else o.leftStickX,
      if f.LeftStickY? then s.level else o.leftStickY,
      if f.RightStickX? then s.level else o.rightStickX,
      if f.RightStickY? then s.level else o.rightStickY,
      if f.TriggerLAnalog? then s.level else o.triggerLAnalog,
      if f.TriggerRAnalog? then s.level else o.triggerRAnalog)
  }

  /** After writing `f`, field `f` holds the written content. */
  lemma GetSetSame(o: OutputSnapshot, f: Field, s: Slot)
    requires SlotFits(f, s)
    ensures Get(Set(o, f, s), f) == s
  {
  }

  /** Writing `f` leaves every other field as it was. */
  lemma GetSetOther(o: OutputSnapshot, f: Field, s: Slot, g: Field)
    requires SlotFits(f, s) && g != f
    ensures Get(Set(o, f, s), g) == Get(o, g)
  {
  }

  /**
   * The key a profile rule uses for each field. Four keys are renamed:
   * "zl", "zr", "l" and "r" name buttonL, buttonR, triggerLDigital and
   * triggerRDigital.
   */
  function FieldKey(f: Field): string
  {
    match f
    case A => "a"
    case B => "b"
    case X => "x"
    case Y => "y"
    case ButtonL => "zl"
    case ButtonR => "zr"
    case TriggerLDigital => "l"
    case TriggerRDigital => "r"
    case Start => "start"
    case Select => "select"
    case Home => "home"
    case DpadUp => "dpadUp"
    case DpadDown => "dpadDown"
    case DpadLeft => "dpadLeft"
    case DpadRight => "dpadRight"
    case LeftStickClick => "leftStickClick"
    case RightStickClick => "rightStickClick"
    case LeftStickX => "leftStickX"
    case LeftStickY => "leftStickY"
    case RightStickX => "rightStickX"
    case RightStickY => "rightStickY"
    case TriggerLAnalog => "triggerLAnalog"
    case TriggerRAnalog => "triggerRAnalog"
  }

  /** The field a rule's key writes, in the order the key comparisons are made; None for an unknown key. */
  function KeyToField(key: string): (f: Option<Field>)
    ensures f.Some? ==> FieldKey(f.value) == key
  {
    if key == "a" then Some(A)
    else if key == "b" then Some(B)
    else if key == "x" then Some(X)
    else if key == "y" then Some(Y)
    else if key == "zl" then Some(ButtonL)
    else if key == "zr" then Some(ButtonR)
    else if key == "l" then Some(TriggerLDigital)
    else if key == "r" then Some(TriggerRDigital)
    else if key == "start" then Some(Start)
    else if key == "select" then Some(Select)
    else if key == "home" then Some(Home)
    else if key == "dpadUp" then Some(DpadUp)
    else if key == "dpadDown" then Some(DpadDown)
    else if key == "dpadLeft" then Some(DpadLeft)
    else if key == "dpadRight" then Some(DpadRight)
    else if key == "leftStickClick" then Some(LeftStickClick)
    else if key == "rightStickClick" then Some(RightStickClick)
    else if key == "leftStickX" then Some(LeftStickX)
    else if key == "leftStickY" then Some(LeftStickY)
    else if key == "rightStickX" then Some(RightStickX)
    else if key == "rightStickY" then Some(RightStickY)
    else if key == "triggerLAnalog" then Some(TriggerLAnalog)
    else if key == "triggerRAnalog" then Some(TriggerRAnalog)
    else None
  }

  /**
   * Every field is reachable by its key: together with KeyToField's
   * postcondition, recognised keys and fields are in one-to-one correspondence.
   */
  lemma KeyToFieldRoundTrip(f: Field)
    ensures KeyToField(FieldKey(f)) == Some(f)
  {
    match f
    case A => case B => case X => case Y => case ButtonL => case ButtonR =>
    case TriggerLDigital => case TriggerRDigital => case Start => case Select =>
    case Home => case DpadUp => case DpadDown => case DpadLeft => case DpadRight =>
    case LeftStickClick => case RightStickClick => case LeftStickX => case LeftStickY =>
    case RightStickX => case RightStickY => case TriggerLAnalog => case TriggerRAnalog =>
  }

  /** Distinct recognised keys write distinct fields. */
  lemma DistinctKeysDistinctFields(k1: string, k2: string)
    requires KeyToField(k1).Some? && KeyToField(k2).Some?
    ensures k1 != k2 ==> KeyToField(k1) != KeyToField(k2)
  {
  }

  /**
   * The output report the mode writes through. Its contents are held as one
   * record value: storing one field replaces the record with a copy that
   * differs from it in that field alone.
   */
  class OutputState {
    var report: OutputSnapshot

    constructor (init: OutputSnapshot)
      ensures report == init
    {
      report := init;
    }

    /** Stores `s` in field `f`; every other field keeps its content. */
    method Write(f: Field, s: Slot)
      requires SlotFits(f, s)
      modifies this
      ensures report == Set(old(report), f, s)
    {
      report := Set(report, f, s);
    }
  }
}
