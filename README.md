# cpp_texteditor: channel, key events and worker loops in Dafny

This project models the message-passing core of a small Windows console text
editor (the `cpp_texteditor` repository):

- `Channel<M>` (channel.dfy, module `Channels`) is a FIFO queue of owned
  messages. It is a class whose `queue` field is the contents of the
  underlying `std::queue`, head first. `Push` appends at the tail. `Pop`
  returns the head, or no value (the null pointer) when the queue is empty.
  `Size` reports the length. The pure functions `Dequeue`, `PushAll` and `PopN`
  describe the same operations on sequences. The FIFO, no-loss and
  idempotent-emptiness properties are proved about them.
- `ControlKeyEvent` and `KeyEvent` (keyboard.dfy, module `Keyboard`) model the
  hand-tagged union. The `printable` tag becomes the choice of constructor, so
  code can read the active field only. The source's two constructors are
  `FromChar` and `FromControl`.
- The console backend (win_console.dfy, module `WinConsole`) covers three
  pieces:
  - `DecodeRecord` classifies one console input record the way `doReadKey`
    does.
  - `Extent` is the window-size arithmetic of the constructor.
  - The class `Console` holds the pending input records and the saved window
    size. It also carries `doReadKey`/`doKeysReady` and the `Keyboard` wrappers
    `readKey`/`keysReady`, which call straight through to them.
- `main.cpp` (workers.dfy, module `Workers`) contributes four pieces:
  - the run flag `State`;
  - the inner loops of `input_worker` (`DrainKeyboard`) and `screen_worker`
    (`DrainToScreen`);
  - one iteration of each worker's outer loop;
  - the echo loop of `main` (`MainLoop`).

  Everything runs in a single thread. The keyboard is the `Console`'s buffer of
  pending records. Standard error is a `seq<char>`: each loop takes the text
  written so far and returns it with the new output appended.

Representation choices:

- `WinConsole.cpp:156` calls a five-argument `KeyEvent` constructor that
  `Keyboard.h` does not declare. The model reads it as a character followed by
  the flags shift, ctrl, alt and os (`Keyboard.WithModifiers`). So the 'Q' key
  decodes to `QuitEvent`: a printable 'q' with only ctrl set. Because of this
  call, `Printable` carries four modifier flags. `FromChar` sets all four to
  false.
- A C `char` is a Dafny `char`. The `(char)` cast of a virtual-key code keeps
  its low eight bits. Only codes 0x30-0x39 and 0x41-0x5A ever reach the cast.
- `SHORT` and `WORD` are the subset types `Short` and `Word`. The window
  extents are computed in `int` and stored in a `size_t`, which on the 64-bit
  target modelled here is taken modulo 2^64 (a 32-bit build would wrap modulo
  2^32). An inverted rectangle therefore wraps around, and `Extent`
  states this explicitly.
- An input record is either a key record (key-down flag and virtual-key code),
  a window-buffer-size record, or a record of some other event type. The type
  of an "other" record excludes the `KEY_EVENT` and `WINDOW_BUFFER_SIZE_EVENT`
  values, so each Win32 record has exactly one representation.
- The code has only two key-event shapes. It has no screen commands, no editor
  worker and no quit filtering inside `input_worker`. The model follows the
  code and invents none of them.

## Model

| member | source | states |
|---|---|---|
| `Channels.Dequeue` | cpp_texteditor/Channel.h:25-36 | a pop gives no value exactly on an empty queue, which it leaves unchanged; otherwise the value returned followed by the remaining queue is the old queue |
| `Channels.PushAllAppends` | cpp_texteditor/Channel.h:18-23 | pushing messages one at a time leaves the old contents followed by those messages in push order |
| `Channels.PopNYields` | cpp_texteditor/Channel.h:25-36 | `k` pops return the first `k` queued messages in order and then null once the queue is exhausted; what remains is the queue minus those taken |
| `Channels.PopEmptyIdempotent` | cpp_texteditor/Channel.h:28-29 | any number of pops on an empty channel all return null and leave it empty |
| `Channels.DrainAfterPushes` | cpp_texteditor/Channel.h:18-34 | FIFO and no loss: after pushing m1..mn onto an empty channel, the first n pops return m1..mn in that order, pop n+1 returns null, and the channel ends empty |
| `Channels.Channel.constructor` | cpp_texteditor/Channel.h:11-15 | a new channel is empty |
| `Channels.Channel.Push` | cpp_texteditor/Channel.h:18-23 | the contents become the old contents with the message appended at the tail; the size grows by exactly one |
| `Channels.Channel.Pop` | cpp_texteditor/Channel.h:25-36 | on an empty queue returns null and changes nothing; otherwise returns the old head, leaves the old tail, and the size drops by exactly one |
| `Channels.Channel.Size` | cpp_texteditor/Channel.h:38-43 | returns the number of queued messages and does not change the channel |
| `Keyboard.Code` | cpp_texteditor/Keyboard.h:5-10 | each control key's `char` value is below 3 |
| `Keyboard.FromCode` | cpp_texteditor/Keyboard.h:5-10 | exactly the values 0, 1 and 2 name a control key, and the key named has that value |
| `Keyboard.CodeRoundTrip` | cpp_texteditor/Keyboard.h:5-10 | reading a control key's value back gives the same key, so the three values are distinct |
| `Keyboard.FromChar` | cpp_texteditor/Keyboard.h:22 | `KeyEvent(char)` is printable, carries the character and has no modifier set |
| `Keyboard.FromControl` | cpp_texteditor/Keyboard.h:23 | `KeyEvent(ControlKeyEvent)` is not printable and carries the control key |
| `Keyboard.WithModifiers` | cpp_texteditor/WinConsole.cpp:156 | the five-argument event is printable and carries the character and the four flags as given |
| `Keyboard.ConstructorsDistinguishable` | cpp_texteditor/Keyboard.h:14-25 | a printable event never equals a control event, and each constructor determines its argument, so the tag always says which field is meaningful |
| `WinConsole.DecodeRecord` | cpp_texteditor/WinConsole.cpp:147-177 | printable exactly for key-down records with a digit or letter code. The 'Q' key gives the quit event; any other such key gives a printable event, without modifiers, whose character is the code. Every other record gives `CK_ERROR`. Every printable result is a digit, a letter other than 'Q', or the quit event |
| `WinConsole.LowercaseQTestUnreachable` | cpp_texteditor/WinConsole.cpp:153-155 | code 0x71 ('q') is in neither accepted range, so the `'q'` comparison can never succeed and that key decodes to `CK_ERROR` |
| `WinConsole.DecodeKeyRoundTrip` | cpp_texteditor/WinConsole.cpp:150-158 | the key-down record of any digit or letter other than 'Q' decodes to a printable event carrying that character |
| `WinConsole.Extent` | cpp_texteditor/WinConsole.cpp:88-89 | for a non-inverted range the size is `high - low + 1`, between 1 and 65536. A range inverted by one gives 0, and a more inverted range wraps to at least 2^64 - 65536. The result always fits a `size_t` |
| `WinConsole.Console.constructor` | cpp_texteditor/WinConsole.cpp:78-89 | `cols` and `rows` are the extents of the window's left/right and top/bottom edges |
| `WinConsole.Console.DoReadKey` | cpp_texteditor/WinConsole.cpp:129-179 | consumes the oldest pending record and returns its decoding |
| `WinConsole.Console.DoKeysReady` | cpp_texteditor/WinConsole.cpp:181-193 | true exactly when the number of pending input events is greater than 0 |
| `WinConsole.Console.ReadKey` | cpp_texteditor/Keyboard.h:35 | returns exactly what `doReadKey` returns, with the same effect on the buffer |
| `WinConsole.Console.KeysReady` | cpp_texteditor/Keyboard.h:36 | returns exactly what `doKeysReady` returns: whether any record is pending |
| `Workers.State.constructor` | cpp_texteditor/main.cpp:10-11 | a fresh state is running |
| `Workers.State.ShouldRun` | cpp_texteditor/main.cpp:16-19 | reports the flag and does not change it |
| `Workers.State.Stop` | cpp_texteditor/main.cpp:21-24 | afterwards the flag is clear whatever it was before, so stopping twice is the same as once |
| `Workers.State.Start` | cpp_texteditor/main.cpp:26-29 | afterwards the flag is set whatever it was before, so starting twice is the same as once |
| `Workers.Decoded` | cpp_texteditor/main.cpp:47-50 | the events read for a run of records correspond one to one, in order, with the records, each being its decoding |
| `Workers.Printed` | cpp_texteditor/main.cpp:76-77 | the text written for a run of events is never longer than the run |
| `Workers.PrintedAppend` | cpp_texteditor/main.cpp:73-79 | the text written for two consecutive runs of events is the first run's text followed by the second's |
| `Workers.PrintedOfControls` | cpp_texteditor/main.cpp:76-77 | non-printable events write nothing |
| `Workers.PrintedOfPrintables` | cpp_texteditor/main.cpp:76-77 | a run of printable events writes exactly one character per event, each event's own, in order |
| `Workers.DrainKeyboard` | cpp_texteditor/main.cpp:47-52 | the loop stops exactly when no key is ready. Every pending record is read and its decoding pushed, in read order, so the channel ends as its old contents followed by those events. The window size is untouched |
| `Workers.DrainToScreen` | cpp_texteditor/main.cpp:73-79 | no pop inside the loop returns null, and the channel ends empty. The output grows by the characters of the printable events in FIFO order; non-printable events add nothing |
| `Workers.TypedKeysReachScreen` | cpp_texteditor/main.cpp:47-79 | typing digits and letters other than 'Q' and passing them through both drain loops writes exactly the typed characters, in order |
| `Workers.InputWorkerRound` | cpp_texteditor/main.cpp:45-57 | an outer iteration runs exactly when the flag is set. When it is clear, nothing is read or pushed; when it is set, the keyboard is drained into the channel. The console's window size is untouched either way |
| `Workers.ScreenWorkerRound` | cpp_texteditor/main.cpp:71-84 | an outer iteration runs exactly when the flag is set. When it is clear, nothing is popped or written; when it is set, the channel is drained to the output |
| `Workers.Echo` | cpp_texteditor/main.cpp:106-113 | the echo loop over a run of events writes at most one character per event, and it exits exactly when some printable event in the run passes the exit test |
| `Workers.BreaksAsWritten` | cpp_texteditor/main.cpp:110 | the exit test as written accepts only printable events other than the quit event, and none of them is the decoding of any console record |
| `Workers.EchoWithoutQuit` | cpp_texteditor/main.cpp:106-113 | if no event passes the exit test, the echo loop writes every printable character in order and never exits |
| `Workers.EchoStopsAtFirstQuit` | cpp_texteditor/main.cpp:106-113 | the echo loop exits at the first printable event that passes the exit test, having written the printable characters up to and including that event |
| `Workers.AsWrittenNeverBreaks` | cpp_texteditor/main.cpp:108-111 | with the exit test as written (a printable 'Q'), no sequence of console records ever ends the loop: everything printable is echoed |
| `Workers.AsWrittenMissesQuitKey` | cpp_texteditor/main.cpp:110 | pressing the 'Q' key echoes 'q' and, as written, the loop does not exit |
| `Workers.QuitKeyEndsMain` | cpp_texteditor/main.cpp:106-113 | with the exit test corrected to the quit event, the first 'Q' key-down ends the loop, right after the echoes of the earlier keys and its own 'q' |
| `Workers.MainLoop` | cpp_texteditor/main.cpp:106-113 | with the corrected exit test, the loop reads records in order, echoes each printable character and stops right after the quit event. Its output and exit flag are those the echo definition gives for the decoded records. On quitting, exactly the records up to and including the first one that decodes to the quit event have been consumed. Otherwise no record decodes to the quit event and the buffer is empty. The window size is untouched |

## Left out

- Threads, `std::mutex`, `std::unique_lock` and `sleep_for`: the channel and the run flag are plain sequential objects, and the 5 ms sleeps are left out. Races between workers, and an extra iteration after a concurrent `stop()`, are not modelled.
- Workers.InputWorkerRound and Workers.ScreenWorkerRound: each models one iteration of a worker's outer `while`, not the unbounded loop. In a single thread nothing can clear the flag between iterations, so the loop's only exit, another thread's `stop()`, cannot happen in this model.
- WinConsole.Console.DoReadKey and WinConsole.Console.ReadKey: both require a pending record. The real `ReadConsoleInput` blocks until the user types one, and a model without future input cannot express that wait. `Workers.MainLoop` likewise also stops when the buffer is exhausted, where the program would wait.
- Win32 console I/O is outside the model. This covers `GetStdHandle`, `Get/SetConsoleMode`, the escape sequences written by `WriteConsole` (including `doInit` and the destructor), `ReadConsoleInput`, `GetNumberOfConsoleInputEvents` and `GetConsoleScreenBufferInfo`. The record read, the number of pending events (the length of `pending`) and the window rectangle are inputs.
- The `std::system_error` throws after failed Win32 calls and the `catch` in `main`: device failures are not modelled.
- `std::cerr` output is the returned `seq<char>`, not a stream.
- Signedness of C `char`: codes above 0x7F would become negative `char` values in C but are Dafny characters 0x80-0xFF here. The decoder never casts such a code.
- The payload of a window-buffer-size record is carried but never used, as in the source, where resize handling is still a to-do.
- cpp_texteditor/Editor.h, cpp_texteditor/LineEditor.h and cpp_texteditor/Emacs.h are not part of this model. They hold no implemented behaviour: `doConsumeKey` returns an empty vector, and `ScreenCommand` is defined in no file present.
- cpp_texteditor/Screen.h is not part of this model beyond `cols`/`rows`. Its `getSize` and `getCurrPos` only return fields.
- cpp_texteditor/WinConsole.h declares the class. Its inline `doInit` is console output only.

## Findings

| source | as written | input that shows it | evidently intended | confidence | as-written member | corrected member |
|---|---|---|---|---|---|---|
| cpp_texteditor/main.cpp:110 | `main` leaves its read loop only on a printable 'Q'. But `doReadKey` (WinConsole.cpp:155-156) turns the 'Q' key into a printable 'q' with ctrl held and never produces a 'Q'. | a key-down record with virtual-key code 0x51: 'q' is echoed and the loop keeps reading | leave the loop on the quit event that the decoder produces for the 'Q' key | medium, not executed | `Workers.AsWrittenMissesQuitKey` | `Workers.QuitKeyEndsMain` |
