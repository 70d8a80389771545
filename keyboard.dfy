/**
 * Model of cpp_texteditor/Keyboard.h: the control-key enumeration and the
 * manually tagged `KeyEvent` union. The union becomes a datatype with one
 * constructor per shape, so the `printable` tag is the constructor and a field
 * of the inactive shape cannot be read at all.
 */
module Keyboard {
  import opened Wrappers

  /** The named control keys; their `char` values are 0, 1 and 2 in declaration order. */
  datatype ControlKeyEvent = CK_ERROR | CK_COPY | CK_PASTE

  /** The `char` value the enumeration gives each control key. */
  function Code(ck: ControlKeyEvent): (c: char)
    ensures c as int < 3
  {
    match ck
    case CK_ERROR => 0 as char
    case CK_COPY => 1 as char
    case CK_PASTE => 2 as char
  }

  /** The control key whose value is `c`, if there is one. */
  function FromCode(c: char): (r: Option<ControlKeyEvent>)
    ensures r.Some? <==> c as int < 3
    ensures r.Some? ==> Code(r.value) == c
  {
    if c == 0 as char then Some(CK_ERROR)
    else if c == 1 as char then Some(CK_COPY)
    else if c == 2 as char then Some(CK_PASTE)
    else None
  }

  /** Each control key has its own value: reading the value back gives the key. */
  lemma CodeRoundTrip(ck: ControlKeyEvent)
    ensures FromCode(Code(ck)) == Some(ck)
  {
  }

  /**
   * A key event: a printable character with four modifier flags, or a control
   * key. `Printable?` is the source's `printable` tag.
   */
  datatype KeyEvent =
    | Printable(ascii: char, shift: bool, ctrl: bool, alt: bool, os: bool)
    | Control(ck: ControlKeyEvent)

  /** `KeyEvent(char)`: a printable event carrying `c`, no modifier held. */
  function FromChar(c: char): (e: KeyEvent)
    ensures e.Printable? && e.ascii == c
    ensures !e.shift && !e.ctrl && !e.alt && !e.os
  {
    Printable(c, false, false, false, false)
  }

  /** `KeyEvent(ControlKeyEvent)`: a non-printable event carrying `ck`. */
  function FromControl(ck: ControlKeyEvent): (e: KeyEvent)
    ensures e.Control? && e.ck == ck
  {
    Control(ck)
  }

  /** A printable event with explicit modifier flags, in the order shift, ctrl, alt, os. */
  function WithModifiers(c: char, shift: bool, ctrl: bool, alt: bool, os: bool): (e: KeyEvent)
    ensures e.Printable? && e.ascii == c
    ensures e.shift == shift && e.ctrl == ctrl && e.alt == alt && e.os == os
  {
    Printable(c, shift, ctrl, alt, os)
  }

  /** The quit event: 'q' with control held and no other modifier. */
  const QuitEvent: KeyEvent := WithModifiers('q', false, true, false, false)

  /**
   * The two constructors never build the same value, and each determines its
   * argument: the tag always tells which field is meaningful.
   */
  lemma ConstructorsDistinguishable(c: char, c': char, ck: ControlKeyEvent, ck': ControlKeyEvent)
    ensures FromChar(c) != FromControl(ck)
    ensures FromChar(c) == FromChar(c') ==> c == c'
    ensures FromControl(ck) == FromControl(ck') ==> ck == ck'
  {
  }
}
