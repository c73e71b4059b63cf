/**
 * Runs of the T3 window from its creation, proved from the contracts of its
 * operations alone. The keyboard sets are those of the usage example in
 * T3Window.h: lower and upper case on UP, digits on SELECT, punctuation and
 * brackets on DOWN.
 */
module Scenarios {
  import opened Wrappers
  import opened Layouts
  import opened T3

  /** The maximum input length of these runs. */
  const MaxInput: nat := 24

  /** A window with the keyboard sets of the usage example and a close handler. */
  method NewExampleWindow() returns (w: T3Window)
    ensures fresh(w) && fresh(w.inputString) && fresh(w.singleChars)
    ensures w.Valid() && w.Clean() && w.GetText() == []
    ensures w.MaxLength == MaxInput && w.hasCloseHandler
    ensures w.keyboardSets == [Some([LowercaseLayout, UppercaseLayout]), Some([NumbersLayout]),
                               Some([PuncLayout, BracketsLayout])]
    ensures w.keyboardCounts == [2, 1, 2]
    ensures w.activeSet == 0 && w.kb == 0 && w.row == 0 && w.col == 0
    ensures !w.selectionMode && !w.timer && !w.timerLive && !w.closed
  {
    var set1 := Some([LowercaseLayout, UppercaseLayout]);
    var set2 := Some([NumbersLayout]);
    var set3 := Some([PuncLayout, BracketsLayout]);
    assert Present([set1, set2, set3], [2, 1, 2], 0);
    w := new T3Window.Create(set1, 2, set2, 1, set3, 2, true, MaxInput);
  }

  /**
   * UP arms "abc"; the key holds three characters, so the timeout enters
   * selection mode with a, b, c; DOWN picks the third: the text is "c".
   */
  method TapAbcThenPickThird() returns (text: seq<char>)
    ensures text == "c"
  {
    var w := NewExampleWindow();
    w.Click(1);
    assert w.row == 1 && w.col == 1 && w.timerLive;
    w.TimerCallback();
    assert w.selectionMode && w.singleChars[2, 0] == 'c';
    w.Click(3);
    text := w.GetText();
  }

  /**
   * SELECT three times arms the third key of row 2, "pqr"; after the timeout
   * UP picks its first character.
   */
  method CycleRowTwoThenPickFirst() returns (text: seq<char>)
    ensures text == "p"
  {
    var w := NewExampleWindow();
    w.Click(2);
    w.Click(2);
    w.Click(2);
    assert w.row == 2 && w.col == 3 && w.timerLive;
    w.TimerCallback();
    assert w.selectionMode && w.singleChars[0, 0] == 'p';
    w.Click(1);
    text := w.GetText();
  }

  /**
   * A long SELECT makes the digits layout active; UP twice arms "2", a
   * single-character key, which the timeout commits directly.
   */
  method SingleCharacterKeyCommitsOnTimeout() returns (text: seq<char>, selecting: bool)
    ensures text == "2" && !selecting
  {
    var w := NewExampleWindow();
    w.LongClick(1);
    assert w.activeSet == 1 && w.kb == 0;
    w.Click(1);
    w.Click(1);
    w.TimerCallback();
    selecting := w.selectionMode;
    text := w.GetText();
  }

  /**
   * A long UP on the active set cycles to upper case; a second long UP wraps
   * back to lower case.
   */
  method LongClickCyclesLayouts() returns (first: nat, second: nat)
    ensures first == 1 && second == 0
  {
    var w := NewExampleWindow();
    w.LongClick(0);
    first := w.kb;
    w.LongClick(0);
    second := w.kb;
  }

  /**
   * BACK while a key is armed cancels the timer but keeps the handle; from
   * then on clicks only reschedule the dead handle and BACK never closes the
   * window.
   */
  method CancelledTimerBlocksClose() returns (handed1: Option<seq<char>>, handed2: Option<seq<char>>,
                                              closed: bool, handle: bool)
    ensures handed1 == None && handed2 == None && !closed && handle
  {
    var w := NewExampleWindow();
    w.Click(2);
    handed1 := w.BackClick();
    assert w.timer && !w.timerLive;
    w.Click(3);
    handed2 := w.BackClick();
    assert w.timer && !w.timerLive;
    closed := w.closed;
    handle := w.timer;
  }

  /** With nothing armed and no selection, BACK closes the window and hands over the text. */
  method BackClosesWithText() returns (handed: Option<seq<char>>)
    ensures handed == Some("hi")
  {
    var w := NewExampleWindow();
    w.SetText("hi");
    assert "hi"[..2] == "hi";
    handed := w.BackClick();
  }

  /**
   * Setting the empty text resets the length only: the buffer still holds
   * the previous text, which is what `t3window_get_text` returns.
   */
  method EmptyTextKeepsOldBuffer() returns (text: seq<char>, length: nat)
    ensures text == "ab" && length == 0
  {
    var w := NewExampleWindow();
    w.SetText("ab");
    w.SetText("");
    text := w.GetText();
    length := w.inputLength;
  }

  /** The example window after `SetText("ab")` and `SetText("")`: length 0, "ab" still in the buffer. */
  method StaleBufferWindow() returns (w: T3Window)
    ensures fresh(w) && fresh(w.inputString) && fresh(w.singleChars)
    ensures w.Valid() && w.MaxLength == MaxInput
    ensures w.keyboardSets[0] == Some([LowercaseLayout, UppercaseLayout])
    ensures w.activeSet == 0 && w.kb == 0 && w.row == 0 && w.col == 0
    ensures !w.selectionMode && !w.timer && !w.timerLive
    ensures w.inputLength == 0
    ensures w.inputString[0] == 'a' && w.inputString[1] == 'b' && w.inputString[2] == NUL
  {
    w := NewExampleWindow();
    w.SetText("ab");
    w.SetText("");
  }

  /**
   * A commit after `SetText("")` overwrites only the first stale byte: `SetText("ab")`,
   * `SetText("")`, UP, timeout, DOWN leaves "cb" readable.
   */
  method CommitOverStaleBuffer() returns (text: seq<char>)
    ensures text == "cb"
  {
    var w := StaleBufferWindow();
    w.Click(1);
    w.TimerCallback();
    assert w.selectionMode && w.singleChars[2, 0] == 'c' && w.inputLength == 0;
    w.Click(3);
    assert w.inputString[0] == 'c' && w.inputString[1] == 'b' && w.inputString[2] == NUL;
    CStringOfNonNulPrefix(w.inputString[..], 2);
    text := w.GetText();
  }

  /**
   * A text longer than the maximum length is cut to its first `MaxInput`
   * characters by the corrected `SetText`.
   */
  method LongTextIsCut() returns (text: seq<char>, length: nat)
    ensures text == "abcdefghijklmnopqrstuvwx" && length == MaxInput
  {
    var w := NewExampleWindow();
    w.SetText("abcdefghijklmnopqrstuvwxyz");
    text := w.GetText();
    length := w.inputLength;
  }

  /**
   * Without any keyboard the window has no active set; long clicks change
   * nothing and BACK closes it with the empty text.
   */
  method NoKeyboards() returns (active: nat, handed: Option<seq<char>>)
    ensures active == 3 && handed == Some([])
  {
    var w := new T3Window.Create(None, 0, None, 0, None, 0, true, MaxInput);
    w.LongClick(0);
    w.LongClick(1);
    w.LongClick(2);
    active := w.activeSet;
    handed := w.BackClick();
  }

  /**
   * A character that `_t3_addChar` accepts into a clean buffer is taken back
   * by a double BACK, which restores the buffer byte for byte.
   */
  method AddCharThenBackspace(w: T3Window, c: char) returns (added: bool)
    requires w.Valid() && w.Clean()
    modifies w, w.inputString
    ensures w.Valid() && w.Clean()
    ensures added <==> old(w.inputLength) < w.MaxLength && c != NUL
    ensures added ==> w.inputLength == old(w.inputLength) && w.inputString[..] == old(w.inputString[..])
  {
    added := w.AddChar(c);
    w.BackspaceClick();
  }

  /** The button events the host delivers to the window. */
  datatype Event = Tap(pressedRow: nat) | Hold(button: nat) | Back | DoubleBack

  /**
   * Once BACK has cancelled the timer, the handle is dead for good: whatever
   * buttons follow, the handle stays set, the timer never fires again (the
   * callback's precondition `timerLive` never holds), BACK hands over no text
   * and the window is never closed.
   */
  method EventsAfterCancel(w: T3Window, events: seq<Event>) returns (handed: seq<Option<seq<char>>>)
    requires w.Valid() && w.timer && !w.timerLive && !w.closed
    requires forall k :: 0 <= k < |events| ==>
      (events[k].Tap? ==> 1 <= events[k].pressedRow <= 3) && (events[k].Hold? ==> events[k].button < 3)
    modifies w, w.inputString, w.singleChars
    ensures w.Valid() && w.timer && !w.timerLive && !w.closed && !w.selectionMode
    ensures |handed| == |events| && forall k :: 0 <= k < |handed| ==> handed[k] == None
  {
    handed := [];
    var k := 0;
    while k < |events|
      invariant 0 <= k <= |events|
      invariant w.Valid() && w.timer && !w.timerLive && !w.closed
      invariant |handed| == k && forall j :: 0 <= j < k ==> handed[j] == None
    {
      var h := None;
      match events[k] {
        case Tap(r) => w.Click(r);
        case Hold(b) => w.LongClick(b);
        case Back => h := w.BackClick();
        case DoubleBack => w.BackspaceClick();
      }
      handed := handed + [h];
      k := k + 1;
    }
  }

  /** Three clicks on the armed row bring its column back: the cycle 1, 2, 3, 1 has length three. */
  method ThreeClicksOnArmedRow(w: T3Window)
    requires w.Valid() && !w.selectionMode && w.row != 0
    modifies w, w.inputString, w.singleChars
    ensures w.Valid() && !w.selectionMode && w.timer
    ensures w.row == old(w.row) && w.col == old(w.col)
  {
    var r := w.row;
    w.Click(r);
    w.Click(r);
    w.Click(r);
  }
}
