/**
 * Model of the Windows console backend (cpp_texteditor/WinConsole.cpp) as far
 * as it computes something: the translation of one console input record into
 * a `KeyEvent`, the "are keys ready" test, and the window-size arithmetic of
 * the constructor. The Win32 calls themselves are left out: the record that
 * `ReadConsoleInput` delivers, the number of pending events and the window
 * rectangle are inputs here.
 */
module WinConsole {
  import opened Keyboard

  /** A Win32 `WORD`: unsigned 16 bits. */
  type Word = x: int | 0 <= x < 0x1_0000

  /** A Win32 `SHORT`: signed 16 bits. */
  type Short = x: int | -0x8000 <= x < 0x8000

  /** Values of `size_t` are taken modulo 2^64. */
  const SizeModulus: int := 0x1_0000_0000_0000_0000

  /** Win32 `KEY_EVENT` and `WINDOW_BUFFER_SIZE_EVENT` event types. */
  const KeyEventType: Word := 0x0001
  const WindowBufferSizeEventType: Word := 0x0004

  /** Event types other than the two the decoder names. */
  type OtherEventType = t: Word | t != KeyEventType && t != WindowBufferSizeEventType witness 0x0002

  /**
   * One console input record. Only the parts the decoder looks at are kept:
   * for a key event, whether the key went down and its virtual-key code.
   */
  datatype InputRecord =
    | KeyRecord(keyDown: bool, virtualKeyCode: Word)
    | WindowBufferSizeRecord(width: Short, height: Short)
    | OtherRecord(eventType: OtherEventType)

  /** The visible window of the screen buffer, inclusive on all four sides. */
  datatype SmallRect = SmallRect(left: Short, top: Short, right: Short, bottom: Short)

  /** Virtual-key codes of the digit keys '0'..'9'. */
  predicate IsDigitKey(vk: Word) { 0x30 <= vk <= 0x39 }

  /** Virtual-key codes of the letter keys 'A'..'Z'. */
  predicate IsLetterKey(vk: Word) { 0x41 <= vk <= 0x5A }

  /** Key-down records the decoder turns into a printable event. */
  predicate IsAccepted(r: InputRecord)
  {
    r.KeyRecord? && r.keyDown && (IsDigitKey(r.virtualKeyCode) || IsLetterKey(r.virtualKeyCode))
  }

  /** The `(char)` cast of a `WORD`: its low eight bits. */
  function CharOfWord(w: Word): (c: char)
  {
    (w % 0x100) as char
  }

  /**
   * The classification at the end of `doReadKey`. A key-down record with a
   * digit or letter code becomes a printable event, the 'Q' key being promoted
   * to the quit event; every other record becomes `CK_ERROR`.
   */
  function DecodeRecord(r: InputRecord): (e: KeyEvent)
    ensures e.Printable? <==> IsAccepted(r)
    ensures e.Control? ==> e.ck == CK_ERROR
    ensures IsAccepted(r) && r.virtualKeyCode == 'Q' as int ==> e == QuitEvent
    ensures IsAccepted(r) && r.virtualKeyCode != 'Q' as int ==>
              e == FromChar(e.ascii) && e.ascii as int == r.virtualKeyCode
    ensures e.Printable? ==>
              e == QuitEvent || ('0' <= e.ascii <= '9') || ('A' <= e.ascii <= 'Z' && e.ascii != 'Q')
  {
    match r
    case KeyRecord(down, vk) =>
      if down && (IsDigitKey(vk) || IsLetterKey(vk)) then
        if vk == 'q' as int || vk == 'Q' as int then QuitEvent
        else FromChar(CharOfWord(vk))
      else FromControl(CK_ERROR)
    case WindowBufferSizeRecord(_, _) => FromControl(CK_ERROR)
    case OtherRecord(_) => FromControl(CK_ERROR)
  }

  /**
   * The test for a lower-case 'q' code can never succeed: that code lies
   * outside both accepted ranges, so such a key decodes to `CK_ERROR`.
   */
  lemma LowercaseQTestUnreachable()
    ensures !IsDigitKey('q' as int) && !IsLetterKey('q' as int)
    ensures DecodeRecord(KeyRecord(true, 'q' as int)) == FromControl(CK_ERROR)
  {
  }

  /** Every digit and letter other than 'Q' comes back from its own key-down record unchanged. */
  lemma DecodeKeyRoundTrip(c: char)
    requires '0' <= c <= '9' || ('A' <= c <= 'Z' && c != 'Q')
    ensures DecodeRecord(KeyRecord(true, c as int)) == FromChar(c)
  {
  }

  /**
   * `Right - Left + 1` (or `Bottom - Top + 1`) computed in `int` and stored in
   * a `size_t`: the number of cells of a non-empty inclusive range; an
   * inverted range wraps around to a huge value.
   */
  function Extent(low: Short, high: Short): (n: nat)
    ensures n < SizeModulus
    ensures low <= high ==> 1 <= n <= 0x1_0000 && n == high - low + 1
    ensures high == low - 1 ==> n == 0
    ensures high < low - 1 ==> n >= SizeModulus - 0x1_0000
  {
    (high - low + 1) % SizeModulus
  }

  /**
   * The console seen as a keyboard and a screen size: `pending` is the console
   * input buffer, oldest record first; `cols` and `rows` are the window size
   * saved by the constructor.
   */
  class Console {
    var pending: seq<InputRecord>
    var cols: nat
    var rows: nat

    /** Saves the window size from the screen-buffer info; `input` is the records already waiting. */
    constructor (window: SmallRect, input: seq<InputRecord>)
      ensures cols == Extent(window.left, window.right)
      ensures rows == Extent(window.top, window.bottom)
      ensures pending == input
    {
      pending := input;
      cols := Extent(window.left, window.right);
      rows := Extent(window.top, window.bottom);
    }

    /** Reads the oldest pending record and decodes it. */
    method DoReadKey() returns (e: KeyEvent)
      requires pending != []
      modifies this`pending
      ensures pending == old(pending)[1..]
      ensures e == DecodeRecord(old(pending)[0])
    {
      var input := pending[0];
      pending := pending[1..];
      e := DecodeRecord(input);
    }

    /** True exactly when the number of pending input events is positive. */
    method DoKeysReady() returns (ready: bool)
      ensures ready <==> |pending| > 0
    {
      var num := |pending|;
      ready := num > 0;
    }

    /** `Keyboard::readKey`: returns what `doReadKey` returns. */
    method ReadKey() returns (e: KeyEvent)
      requires pending != []
      modifies this`pending
      ensures pending == old(pending)[1..]
      ensures e == DecodeRecord(old(pending)[0])
    {
      e := DoReadKey();
    }

    /** `Keyboard::keysReady`: returns what `doKeysReady` returns. */
    method KeysReady() returns (ready: bool)
      ensures ready <==> pending != []
    {
      ready := DoKeysReady();
    }
  }
}
