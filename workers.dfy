/**
 * Model of cpp_texteditor/main.cpp: the shared run flag, the inner loops of
 * the input and screen workers, and the echo loop of `main`. Everything runs
 * in one thread: the keyboard is a `Console` whose pending records are the
 * keys the user has typed, and the standard error stream is the sequence of
 * characters written to it so far.
 */
module Workers {
  import opened Wrappers
  import opened Keyboard
  import opened Channels
  import opened WinConsole

  /** The global run flag shared by the workers. */
  class State {
    var running: bool

    /** A new state is running. */
    constructor ()
      ensures running
    {
      running := true;
    }

    /** Reports the flag without changing it. */
    method ShouldRun() returns (b: bool)
      ensures b == running
    {
      b := running;
    }

    /** Clears the flag, whatever it was. */
    method Stop()
      modifies this
      ensures !running
    {
      running := false;
    }

    /** Sets the flag, whatever it was. */
    method Start()
      modifies this
      ensures running
    {
      running := true;
    }
  }

  /** The events `readKey` delivers for the records `rs`, in order. */
  function Decoded(rs: seq<InputRecord>): (es: seq<KeyEvent>)
    ensures |es| == |rs|
    ensures forall i :: 0 <= i < |rs| ==> es[i] == DecodeRecord(rs[i])
  {
    if rs == [] then [] else [DecodeRecord(rs[0])] + Decoded(rs[1..])
  }

  /** Decoding one more record appends one more event. */
  lemma {:induction false} DecodedSnoc(rs: seq<InputRecord>, r: InputRecord)
    ensures Decoded(rs + [r]) == Decoded(rs) + [DecodeRecord(r)]
  {
    var a, b := Decoded(rs + [r]), Decoded(rs) + [DecodeRecord(r)];
    assert |a| == |b|;
    forall i | 0 <= i < |a|
      ensures a[i] == b[i]
    {
      assert (rs + [r])[i] == if i < |rs| then rs[i] else r;
    }
  }

  /** The characters written to standard error for the events `es`: the printable ones, in order. */
  function Printed(es: seq<KeyEvent>): (out: seq<char>)
    ensures |out| <= |es|
  {
    if es == [] then []
    else (if es[0].Printable? then [es[0].ascii] else []) + Printed(es[1..])
  }

  /** Output for consecutive runs of events concatenates. */
  lemma {:induction false} PrintedAppend(a: seq<KeyEvent>, b: seq<KeyEvent>)
    ensures Printed(a + b) == Printed(a) + Printed(b)
  {
    if a == [] {
      assert a + b == b;
    } else {
      assert (a + b)[0] == a[0];
      assert (a + b)[1..] == a[1..] + b;
      PrintedAppend(a[1..], b);
    }
  }

  /** Control events write nothing. */
  lemma {:induction false} PrintedOfControls(es: seq<KeyEvent>)
    requires forall i :: 0 <= i < |es| ==> es[i].Control?
    ensures Printed(es) == []
  {
    if es != [] {
      PrintedOfControls(es[1..]);
    }
  }

  /** A run of printable events writes exactly their characters, one each, in order. */
  lemma {:induction false} PrintedOfPrintables(es: seq<KeyEvent>)
    requires forall i :: 0 <= i < |es| ==> es[i].Printable?
    ensures |Printed(es)| == |es|
    ensures forall i :: 0 <= i < |es| ==> Printed(es)[i] == es[i].ascii
  {
    if es != [] {
      PrintedOfPrintables(es[1..]);
      assert Printed(es) == [es[0].ascii] + Printed(es[1..]);
    }
  }

  /**
   * The inner loop of `input_worker`: while keys are ready, read one and push
   * it. The channel ends as its old contents followed by every pending key,
   * decoded, in read order; the keyboard is left with nothing ready.
   */
  method DrainKeyboard(kb: Console, ch: Channel<KeyEvent>)
    modifies kb`pending, ch
    ensures ch.queue == old(ch.queue) + Decoded(old(kb.pending))
    ensures kb.pending == []
    ensures kb.cols == old(kb.cols) && kb.rows == old(kb.rows)
  {
    ghost var input := kb.pending;
    ghost var k := 0;
    var ready := kb.KeysReady();
    while ready
      invariant 0 <= k <= |input|
      invariant kb.pending == input[k..]
      invariant ready <==> kb.pending != []
      invariant ch.queue == old(ch.queue) + Decoded(input[..k])
      invariant kb.cols == old(kb.cols) && kb.rows == old(kb.rows)
      decreases |kb.pending|
    {
      var c := kb.ReadKey();
      ch.Push(c);
      assert input[..k + 1] == input[..k] + [input[k]];
      DecodedSnoc(input[..k], input[k]);
      k := k + 1;
      ready := kb.KeysReady();
    }
    assert input[..k] == input;
  }

  /**
   * The inner loop of `screen_worker`: while the channel is non-empty, pop an
   * event and write its character if it is printable. The pop never returns
   * null, the channel ends empty and the output grows by the printable
   * characters of the old contents, in FIFO order.
   */
  method DrainToScreen(ch: Channel<KeyEvent>, err: seq<char>) returns (out: seq<char>)
    modifies ch
    ensures ch.queue == []
    ensures out == err + Printed(old(ch.queue))
  {
    out := err;
    var n := ch.Size();
    while n > 0
      invariant n == |ch.queue|
      invariant out + Printed(ch.queue) == err + Printed(old(ch.queue))
      decreases n
    {
      ghost var before := ch.queue;
      var c := ch.Pop();
      var e := c.value;
      assert before == [e] + ch.queue;
      PrintedAppend([e], ch.queue);
      if e.Printable? {
        out := out + [e.ascii];
      }
      n := ch.Size();
    }
  }

  /** Key-down records for the keys `cs`, in order. */
  function KeyDowns(cs: seq<char>): (rs: seq<InputRecord>)
    requires forall i :: 0 <= i < |cs| ==> cs[i] as int < 0x1_0000
  {
    seq(|cs|, i requires 0 <= i < |cs| => KeyRecord(true, cs[i] as int))
  }

  /**
   * End to end through both drain loops: typing digits and letters other than
   * 'Q' makes the screen worker write exactly those characters, in typing order.
   */
  lemma {:induction false} TypedKeysReachScreen(cs: seq<char>)
    requires forall i :: 0 <= i < |cs| ==> '0' <= cs[i] <= '9' || ('A' <= cs[i] <= 'Z' && cs[i] != 'Q')
    ensures Printed(Decoded(KeyDowns(cs))) == cs
  {
    var es := Decoded(KeyDowns(cs));
    forall i | 0 <= i < |es|
      ensures es[i] == FromChar(cs[i])
    {
      DecodeKeyRoundTrip(cs[i]);
    }
    PrintedOfPrintables(es);
  }

  /**
   * One iteration of the outer loop of `input_worker`: check the flag and, if
   * it is set, drain the keyboard into the channel. With the flag clear
   * nothing is read and nothing is pushed.
   */
  method InputWorkerRound(kb: Console, ch: Channel<KeyEvent>, state: State) returns (ran: bool)
    modifies kb`pending, ch
    ensures ran == state.running
    ensures !ran ==> ch.queue == old(ch.queue) && kb.pending == old(kb.pending)
    ensures ran ==> ch.queue == old(ch.queue) + Decoded(old(kb.pending)) && kb.pending == []
    ensures kb.cols == old(kb.cols) && kb.rows == old(kb.rows)
  {
    ran := state.ShouldRun();
    if ran {
      DrainKeyboard(kb, ch);
    }
  }

  /**
   * One iteration of the outer loop of `screen_worker`: check the flag and, if
   * it is set, drain the channel to the output. With the flag clear nothing is
   * popped and nothing is written.
   */
  method ScreenWorkerRound(ch: Channel<KeyEvent>, state: State, err: seq<char>) returns (ran: bool, out: seq<char>)
    modifies ch
    ensures ran == state.running
    ensures !ran ==> ch.queue == old(ch.queue) && out == err
    ensures ran ==> ch.queue == [] && out == err + Printed(old(ch.queue))
  {
    ran := state.ShouldRun();
    out := err;
    if ran {
      out := DrainToScreen(ch, err);
    }
  }

  /**
   * Output and exit flag of an echo loop over `es`: each printable event is
   * written, and the loop ends right after writing the first printable event
   * that `quits` accepts.
   */
  function Echo(es: seq<KeyEvent>, quits: KeyEvent -> bool): (r: (seq<char>, bool))
    ensures |r.0| <= |es|
    ensures r.1 <==> exists k :: 0 <= k < |es| && es[k].Printable? && quits(es[k])
  {
    if es == [] then ([], false)
    else if es[0].Printable? && quits(es[0]) then ([es[0].ascii], true)
    else
      var (rest, q) := Echo(es[1..], quits);
      (Printed([es[0]]) + rest, q)
  }

  /**
   * One step of the echo loop at position `k` of `es`, where `out` is what
   * has been written for the events before `k`.
   */
  lemma {:induction false} EchoStep(es: seq<KeyEvent>, k: nat, quits: KeyEvent -> bool, out: seq<char>)
    requires k < |es|
    requires Echo(es, quits).0 == out + Echo(es[k..], quits).0
    requires Echo(es, quits).1 == Echo(es[k..], quits).1
    ensures es[k].Printable? && quits(es[k]) ==> Echo(es, quits) == (out + [es[k].ascii], true)
    ensures es[k].Printable? && !quits(es[k]) ==>
              Echo(es, quits).0 == (out + [es[k].ascii]) + Echo(es[k + 1..], quits).0 &&
              Echo(es, quits).1 == Echo(es[k + 1..], quits).1
    ensures !es[k].Printable? ==>
              Echo(es, quits).0 == out + Echo(es[k + 1..], quits).0 &&
              Echo(es, quits).1 == Echo(es[k + 1..], quits).1
  {
    var tail := es[k..];
    assert tail != [] && tail[0] == es[k];
    assert tail[1..] == es[k + 1..];
    var rest := Echo(es[k + 1..], quits);
    if es[k].Printable? {
      assert Printed([es[k]]) == [es[k].ascii] + Printed([]);
      assert !quits(es[k]) ==> Echo(tail, quits).0 == [es[k].ascii] + rest.0;
      assert out + ([es[k].ascii] + rest.0) == (out + [es[k].ascii]) + rest.0;
    } else {
      assert Printed([es[k]]) == Printed([]);
      assert Echo(tail, quits).0 == [] + rest.0;
      assert [] + rest.0 == rest.0;
    }
  }

  /** Without a quitting event, the echo loop writes every printable character and never exits. */
  lemma {:induction false} EchoWithoutQuit(es: seq<KeyEvent>, quits: KeyEvent -> bool)
    requires forall i :: 0 <= i < |es| ==> !(es[i].Printable? && quits(es[i]))
    ensures Echo(es, quits) == (Printed(es), false)
  {
    if es != [] {
      EchoWithoutQuit(es[1..], quits);
      PrintedAppend([es[0]], es[1..]);
      assert [es[0]] + es[1..] == es;
    }
  }

  /** The echo loop exits at the first quitting event, having written the printable characters up to and including it. */
  lemma {:induction false} EchoStopsAtFirstQuit(es: seq<KeyEvent>, quits: KeyEvent -> bool, k: nat)
    requires k < |es| && es[k].Printable? && quits(es[k])
    requires forall i :: 0 <= i < k ==> !(es[i].Printable? && quits(es[i]))
    ensures Echo(es, quits) == (Printed(es[..k + 1]), true)
  {
    if k == 0 {
      assert es[..1] == [es[0]];
      assert Printed([es[0]]) == [es[0].ascii] + Printed([]);
      assert Printed(es[..1]) == [es[0].ascii];
      assert Echo(es, quits) == ([es[0].ascii], true);
    } else {
      EchoStopsAtFirstQuit(es[1..], quits, k - 1);
      assert es[..k + 1] == [es[0]] + es[1..][..k];
      PrintedAppend([es[0]], es[1..][..k]);
    }
  }

  /** The exit test of `main` as written: a printable upper-case 'Q'. */
  predicate BreaksAsWritten(e: KeyEvent): (b: bool)
    ensures b ==> e.Printable? && e != QuitEvent
    ensures b ==> forall r :: DecodeRecord(r) != e
  {
    e.Printable? && e.ascii == 'Q'
  }

  /** The exit test the decoder was built for: the quit event it produces for the 'Q' key. */
  predicate IsQuit(e: KeyEvent)
  {
    e == QuitEvent
  }

  /**
   * As written, `main` never leaves its loop through a key: the decoder never
   * produces a printable 'Q', so every printable key is echoed and reading
   * goes on.
   */
  lemma {:induction false} AsWrittenNeverBreaks(rs: seq<InputRecord>)
    ensures Echo(Decoded(rs), BreaksAsWritten) == (Printed(Decoded(rs)), false)
  {
    var es := Decoded(rs);
    forall i | 0 <= i < |es|
      ensures !(es[i].Printable? && BreaksAsWritten(es[i]))
    {
      assert es[i] == DecodeRecord(rs[i]);
    }
    EchoWithoutQuit(es, BreaksAsWritten);
  }

  /** Concretely: pressing 'Q' echoes 'q' and `main` as written keeps reading. */
  lemma {:induction false} AsWrittenMissesQuitKey()
    ensures Echo(Decoded([KeyRecord(true, 'Q' as int)]), BreaksAsWritten) == (['q'], false)
  {
    var rs := [KeyRecord(true, 'Q' as int)];
    AsWrittenNeverBreaks(rs);
    assert Decoded(rs) == [QuitEvent];
    assert Printed([QuitEvent]) == ['q'] + Printed([]);
    assert Printed([QuitEvent]) == ['q'];
  }

  /** With the corrected test, the first 'Q' key-down ends the loop right after its 'q' is echoed. */
  lemma {:induction false} QuitKeyEndsMain(rs: seq<InputRecord>, k: nat)
    requires k < |rs| && rs[k] == KeyRecord(true, 'Q' as int)
    requires forall i :: 0 <= i < k ==> !IsQuit(DecodeRecord(rs[i]))
    ensures Echo(Decoded(rs), IsQuit) == (Printed(Decoded(rs[..k])) + ['q'], true)
  {
    var es := Decoded(rs);
    assert es[k] == QuitEvent;
    forall i | 0 <= i < k
      ensures !(es[i].Printable? && IsQuit(es[i]))
    {
      assert es[i] == DecodeRecord(rs[i]);
    }
    EchoStopsAtFirstQuit(es, IsQuit, k);
    var before := Decoded(rs[..k]);
    assert es[..k + 1] == before + [QuitEvent];
    PrintedAppend(before, [QuitEvent]);
    assert Printed([QuitEvent]) == ['q'] + Printed([]);
    assert Printed([QuitEvent]) == ['q'];
    assert Printed(es[..k + 1]) == Printed(before) + ['q'];
  }

  /**
   * The read loop of `main`, with the exit test corrected to the quit event:
   * read a key, echo it if printable, stop after echoing the quit event. The
   * model stops also when the input buffer runs out, where the real program
   * would block waiting for a key.
   */
  method MainLoop(con: Console) returns (out: seq<char>, quit: bool)
    modifies con`pending
    ensures (out, quit) == Echo(Decoded(old(con.pending)), IsQuit)
    ensures con.cols == old(con.cols) && con.rows == old(con.rows)
    ensures |con.pending| <= |old(con.pending)|
    ensures con.pending == old(con.pending)[|old(con.pending)| - |con.pending|..]
    ensures !quit ==> con.pending == []
    ensures !quit ==> forall i :: 0 <= i < |old(con.pending)| ==> DecodeRecord(old(con.pending)[i]) != QuitEvent
    ensures quit ==>
              var n := |old(con.pending)| - |con.pending|;
              0 < n && DecodeRecord(old(con.pending)[n - 1]) == QuitEvent &&
              forall i :: 0 <= i < n - 1 ==> DecodeRecord(old(con.pending)[i]) != QuitEvent
  {
    ghost var input := con.pending;
    ghost var es := Decoded(input);
    ghost var k := 0;
    out, quit := [], false;
    assert es[k..] == es;
    assert out + Echo(es, IsQuit).0 == Echo(es, IsQuit).0;
    while !quit && con.pending != []
      invariant 0 <= k <= |input|
      invariant con.pending == input[k..]
      invariant quit ==> Echo(es, IsQuit) == (out, true)
      invariant quit ==> 0 < k && DecodeRecord(input[k - 1]) == QuitEvent
      invariant forall i :: 0 <= i < (if quit then k - 1 else k) ==> DecodeRecord(input[i]) != QuitEvent
      invariant !quit ==> Echo(es, IsQuit).0 == out + Echo(es[k..], IsQuit).0
      invariant !quit ==> Echo(es, IsQuit).1 == Echo(es[k..], IsQuit).1
      decreases |con.pending|, !quit
    {
      var c := con.ReadKey();
      assert c == es[k];
      EchoStep(es, k, IsQuit, out);
      if c.Printable? {
        out := out + [c.ascii];
        if IsQuit(c) {
          quit := true;
        }
      }
      k := k + 1;
    }
    if !quit {
      assert es[k..] == [];
      assert out + [] == out;
    }
  }
}
