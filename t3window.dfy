/**
 * The T3 window: the multi-tap input state machine of the T3 keyboard.
 *
 * A short click on UP, SELECT or DOWN arms a key of the active layout (row 1,
 * 2 or 3; repeated clicks cycle the column 1, 2, 3, 1, ...); when the host's
 * timer fires, a key with at most one character is committed, otherwise the
 * window enters selection mode and the next short click picks one of the
 * key's three bytes. Long clicks switch between the three keyboard sets or
 * cycle the layouts of the active one; BACK cancels, leaves selection mode or
 * closes the window, and a double BACK deletes the last character.
 *
 * The host timer is abstract: `timer` stands for `w->timer != NULL` and the
 * ghost field `timerLive` says that the host will still fire the callback.
 */
module T3 {
  import opened Wrappers
  import opened Layouts

  /**
   * The three keyboard sets handed to `t3window_create`: a set is a NULL
   * pointer (None) or an array of layouts, with a `uint8_t` count; the count
   * of a NULL set is 0 and every counted layout has `KeyboardSize` bytes
   * (layouts past the count are never read).
   */
  predicate WellFormedSets(sets: seq<Option<seq<Layout>>>, counts: seq<nat>)
  {
    && |sets| == 3 && |counts| == 3
    && forall i :: 0 <= i < 3 ==>
         && counts[i] < 256
         && (sets[i].None? ==> counts[i] == 0)
         && (sets[i].Some? ==>
               && counts[i] <= |sets[i].value|
               && forall k :: 0 <= k < counts[i] ==> |sets[i].value[k]| == KeyboardSize)
  }

  /** Set `i` is usable: a non-NULL pointer with a positive count. */
  predicate Present(sets: seq<Option<seq<Layout>>>, counts: seq<nat>, i: nat)
    requires |sets| == 3 && |counts| == 3 && i < 3
  {
    sets[i].Some? && counts[i] > 0
  }

  // The zeroing loop of `t3window_create`, as written, counts with a
  // `uint8_t i` while `i <= T3_MAXLENGTH`. `Create` below uses an unbounded
  // counter instead.

  /** The value of the loop's `uint8_t` counter after k increments from 0. */
  function ZeroingCounterAfter(k: nat): (i: nat)
    ensures i < 256
  {
    if k == 0 then 0 else (ZeroingCounterAfter(k - 1) + 1) % 256
  }

  /** The counter is the number of increments modulo 256. */
  lemma {:induction false} ZeroingCounterIsModular(k: nat)
    ensures ZeroingCounterAfter(k) == k % 256
  {
    if k > 0 {
      ZeroingCounterIsModular(k - 1);
      var q, r := (k - 1) / 256, (k - 1) % 256;
      assert k == 256 * q + r + 1;
      if r < 255 {
        assert k % 256 == r + 1;
      } else {
        assert k == 256 * (q + 1);
      }
    }
  }

  /** For a maximum length below 255 the loop visits 0 .. max and then exits. */
  lemma ZeroingLoopExitsBelow255(max: nat)
    requires max < 255
    ensures forall k :: 0 <= k <= max ==> ZeroingCounterAfter(k) == k
    ensures ZeroingCounterAfter(max + 1) > max
  {
    forall k | 0 <= k <= max + 1
      ensures ZeroingCounterAfter(k) == k
    {
      ZeroingCounterIsModular(k);
    }
  }

  /**
   * For a maximum length of 255, which the `uint8_t` type of `T3_MAXLENGTH`
   * admits, the guard `i <= T3_MAXLENGTH` holds after every number of
   * increments, so the loop never exits.
   */
  lemma ZeroingLoopNeverExitsAt255(k: nat)
    ensures ZeroingCounterAfter(k) <= 255
    ensures ZeroingCounterAfter(256 * k + 255) == 255
  {
    ZeroingCounterIsModular(256 * k + 255);
  }

  // `t3window_set_text`, as written, stores `strlen(text)` in the `uint8_t`
  // field `inputLength` without cutting it to `T3_MAXLENGTH`.
  // `T3Window.SetText` below cuts it.

  /** The length `t3window_set_text` stores, as written: `strlen(text)` truncated to `uint8_t`. */
  function SetTextLengthAsWritten(text: seq<char>): (n: nat)
    requires NUL !in text
    ensures n == |text| % 256
  {
    StrLen(text) % 256
  }

  /**
   * For a maximum length below 254, setting a text of `T3_MAXLENGTH + 2`
   * characters, as written, stores the length `T3_MAXLENGTH + 2`; the double
   * BACK that follows then writes NUL at index `T3_MAXLENGTH + 1`, past the
   * buffer of `T3_MAXLENGTH + 1` bytes.
   */
  lemma LongTextOverrunsBufferAsWritten(maxLength: nat, text: seq<char>)
    requires maxLength < 254
    requires NUL !in text && |text| == maxLength + 2
    ensures SetTextLengthAsWritten(text) == maxLength + 2
    ensures !(0 <= SetTextLengthAsWritten(text) - 1 < maxLength + 1)
  {
  }

  /**
   * At the two largest maximum lengths the stored length wraps instead: a
   * text of 256 characters stores 0 and one of 257 characters stores 1.
   */
  lemma LongTextLengthWrapsAsWritten(text: seq<char>)
    requires NUL !in text && 256 <= |text| <= 257
    ensures SetTextLengthAsWritten(text) == |text| - 256
  {
  }

  /** Incrementing an index below n and wrapping to 0 at n is addition modulo n. */
  lemma ModularIncrement(k: nat, n: nat)
    requires k < n
    ensures (k + 1) % n == if k + 1 < n then k + 1 else 0
  {
  }

  class T3Window {
    /** `T3_MAXLENGTH`, a `uint8_t`. */
    const MaxLength: nat
    const keyboardSets: seq<Option<seq<Layout>>>
    const keyboardCounts: seq<nat>
    /** Whether `closeHandler` is non-NULL. */
    const hasCloseHandler: bool
    /** The active keyboard set (`set` in the C struct), 3 when none is usable. */
    var activeSet: nat
    /** The active layout within the active set. */
    var kb: nat
    /** The armed key, (0, 0) when none. */
    var row: nat
    var col: nat
    /** `char singleChars[3][2]`: the candidates of selection mode, each a one-character string. */
    const singleChars: array2<char>
    /** `char inputString[T3_MAXLENGTH + 1]`. */
    const inputString: array<char>
    var inputLength: nat
    var selectionMode: bool
    /** `w->timer != NULL`. */
    var timer: bool
    /** The host will still fire the timer callback. */
    ghost var timerLive: bool
    /** The window has been popped from the window stack. */
    var closed: bool

    /** The keyboard registry is well formed and the active layout exists. */
    ghost predicate SetsValid()
      reads this
    {
      && WellFormedSets(keyboardSets, keyboardCounts)
      && activeSet <= 3
      && (activeSet < 3 ==> kb < keyboardCounts[activeSet])
    }

    /** The layout shown on the keys. */
    function ActiveLayout(): (l: Layout)
      reads this
      requires SetsValid() && activeSet < 3
      ensures |l| == KeyboardSize
    {
      keyboardSets[activeSet].value[kb]
    }

    /**
     * `_t3_getCharGroup`: the four bytes of the key at (r, c) of the active
     * layout, or None (the NULL pointer) when no keyboard set is active.
     */
    function GetCharGroup(r: int, c: int): (g: Option<seq<char>>)
      reads this
      requires SetsValid()
      requires 1 <= r <= 3 && 1 <= c <= 3
      ensures g.Some? <==> activeSet < 3
      ensures g.Some? ==>
        && |g.value| == KeySize
        && forall j :: 0 <= j < KeySize ==> g.value[j] == ActiveLayout()[KeySize * KeyIndex(r, c) + j]
    {
      if activeSet < 3 then Some(CharGroup(ActiveLayout(), r, c)) else None
    }

    /** The key that is armed. */
    ghost function ArmedKey(): seq<char>
      reads this
      requires SetsValid() && activeSet < 3
      requires 1 <= row <= 3 && 1 <= col <= 3
    {
      GetCharGroup(row, col).value
    }

    /** The state invariant, which holds between any two steps of the machine. */
    ghost predicate Inv()
      reads this, inputString, singleChars
    {
      && singleChars.Length0 == 3 && singleChars.Length1 == 2
      && SetsValid()
      && (activeSet == 3 ==> forall i :: 0 <= i < 3 ==> keyboardCounts[i] == 0)
      && row <= 3 && col <= 3 && (row == 0 <==> col == 0)
      && (timerLive ==> timer && !selectionMode && row != 0)
      && (selectionMode ==>
            && activeSet < 3 && row != 0
            && forall i :: 0 <= i < 3 ==> singleChars[i, 0] == ArmedKey()[i])
      && (forall i :: 0 <= i < 3 ==> singleChars[i, 1] == NUL)
      && BufferValid()
    }

    /** The input buffer is NUL-terminated at its last byte and holds no NUL among the entered characters. */
    ghost predicate BufferValid()
      reads this, inputString
    {
      && 0 < MaxLength < 256
      && inputString.Length == MaxLength + 1
      && inputLength <= MaxLength
      && inputString[MaxLength] == NUL
      && (forall i :: 0 <= i < inputLength ==> inputString[i] != NUL)
    }

    /**
     * The invariant between two events. Inside `TimerCallback` selection mode
     * begins while the handle is still set, so `ToggleMode` needs only `Inv`.
     */
    ghost predicate Valid()
      reads this, inputString, singleChars
    {
      Inv() && (selectionMode ==> !timer)
    }

    /** The characters entered: the first `inputLength` bytes of the buffer. */
    ghost function Text(): seq<char>
      reads this, inputString
      requires inputLength <= inputString.Length
    {
      inputString[..inputLength]
    }

    /** Every byte from `inputLength` on is NUL. */
    ghost predicate Clean()
      reads this, inputString
    {
      forall i :: inputLength <= i < inputString.Length ==> inputString[i] == NUL
    }

    /**
     * `t3window_get_text`: the C string the buffer holds. It begins with the
     * entered characters and, when the buffer is clean, is exactly them.
     */
    function GetText(): (s: seq<char>)
      reads this, inputString
      requires BufferValid()
      ensures |s| <= MaxLength
      ensures NUL !in s
      ensures inputString[..inputLength] <= s
      ensures Clean() ==> s == inputString[..inputLength]
    {
      var buffer := inputString[..];
      assert buffer[MaxLength] == NUL;
      CStringOfNonNulPrefix(buffer, inputLength);
      CString(buffer)
    }

    /** `t3window_create`, state initialisation only. */
    constructor Create(set1: Option<seq<Layout>>, count1: nat,
                       set2: Option<seq<Layout>>, count2: nat,
                       set3: Option<seq<Layout>>, count3: nat,
                       hasCloseHandler: bool, maxLength: nat)
      requires WellFormedSets([set1, set2, set3], [count1, count2, count3])
      requires 0 < maxLength < 256
      ensures Valid() && Clean()
      ensures keyboardSets == [set1, set2, set3] && keyboardCounts == [count1, count2, count3]
      ensures this.hasCloseHandler == hasCloseHandler && MaxLength == maxLength
      ensures activeSet < 3 ==> Present(keyboardSets, keyboardCounts, activeSet)
      ensures forall i :: 0 <= i < 3 && i < activeSet ==> !Present(keyboardSets, keyboardCounts, i)
      ensures kb == 0 && row == 0 && col == 0
      ensures !selectionMode && !timer && !timerLive && !closed
      ensures inputLength == 0
      ensures forall i :: 0 <= i < inputString.Length ==> inputString[i] == NUL
      ensures GetText() == []
      ensures fresh(inputString) && fresh(singleChars)
    {
      MaxLength := maxLength;
      keyboardSets := [set1, set2, set3];
      keyboardCounts := [count1, count2, count3];
      this.hasCloseHandler := hasCloseHandler;
      if set1.Some? && count1 > 0 {
        activeSet := 0;
      } else if set2.Some? && count2 > 0 {
        activeSet := 1;
      } else if set3.Some? && count3 > 0 {
        activeSet := 2;
      } else {
        activeSet := 3;
      }
      kb, row, col := 0, 0, 0;
      selectionMode := false;
      timer := false;
      timerLive := false;
      closed := false;
      // The candidates themselves are uninitialised until selection mode begins.
      var candidates := new char[3, 2];
      candidates[0, 1] := NUL;
      candidates[1, 1] := NUL;
      candidates[2, 1] := NUL;
      singleChars := candidates;
      var buffer := new char[maxLength + 1];
      var i := 0;
      while i <= maxLength
        modifies buffer
        invariant 0 <= i <= maxLength + 1
        invariant forall j :: 0 <= j < i ==> buffer[j] == NUL
      {
        buffer[i] := NUL;
        i := i + 1;
      }
      inputString := buffer;
      inputLength := 0;
    }

    /**
     * `t3window_set_text`: the text is copied "up to T3_MAXLENGTH" with
     * `strncpy` unless it is empty. The stored length is `strlen(text)` cut
     * to `T3_MAXLENGTH` (the source does not cut it; see `SetTextLengthAsWritten`).
     */
    method SetText(text: seq<char>)
      requires Valid()
      requires NUL !in text
      modifies this`inputLength, inputString
      ensures Valid()
      ensures inputLength == (if |text| <= MaxLength then |text| else MaxLength)
      ensures Text() == text[..inputLength]
      ensures |text| > 0 ==>
        forall j :: 0 <= j <= MaxLength ==> inputString[j] == if j < |text| && j < MaxLength then text[j] else NUL
      ensures |text| > 0 ==> Clean() && GetText() == text[..inputLength]
      ensures |text| == 0 ==> inputString[..] == old(inputString[..]) && GetText() == old(GetText())
    {
      inputLength := if |text| <= MaxLength then |text| else MaxLength;
      if inputLength > 0 {
        var i := 0;
        while i < MaxLength
          modifies inputString
          invariant 0 <= i <= MaxLength
          invariant forall j :: 0 <= j < i ==> inputString[j] == if j < |text| then text[j] else NUL
          invariant forall j :: i <= j <= MaxLength ==> inputString[j] == old(inputString[j])
        {
          inputString[i] := if i < |text| then text[i] else NUL;
          i := i + 1;
        }
        assert inputString[..inputLength] == text[..inputLength];
      }
    }

    /** `_t3_addChar`: append `c` unless the buffer is full or `c` is NUL. */
    method AddChar(c: char) returns (added: bool)
      requires Inv()
      modifies this`inputLength, inputString
      ensures Inv()
      ensures added <==> old(inputLength) < MaxLength && c != NUL
      ensures Text() == if added then old(Text()) + [c] else old(Text())
      ensures added ==> inputString[..] == old(inputString[..])[old(inputLength) := c]
      ensures !added ==> inputString[..] == old(inputString[..])
      ensures old(Clean()) ==> Clean()
    {
      if inputLength < MaxLength {
        if c == NUL {
          added := false;
        } else {
          inputString[inputLength] := c;
          inputLength := inputLength + 1;
          added := true;
        }
      } else {
        added := false;
      }
    }

    /** `_t3_backspace_click` (double BACK): remove the last character, if any. */
    method BackspaceClick()
      requires Valid()
      modifies this`inputLength, inputString
      ensures Valid()
      ensures Text() == if old(inputLength) > 0 then old(Text())[..old(inputLength) - 1] else old(Text())
      ensures old(inputLength) > 0 ==> inputString[..] == old(inputString[..])[inputLength := NUL]
      ensures old(inputLength) == 0 ==> inputString[..] == old(inputString[..])
      ensures old(Clean()) ==> Clean()
    {
      if inputLength > 0 {
        inputLength := inputLength - 1;
        inputString[inputLength] := NUL;
      }
    }

    /**
     * `_t3_toggleMode`: on entry snapshot the armed key's three bytes as the
     * candidates; on exit disarm the key.
     */
    method ToggleMode()
      requires Inv()
      requires !selectionMode ==> activeSet < 3 && row != 0 && !timerLive
      modifies this`selectionMode, this`row, this`col, singleChars
      ensures Inv()
      ensures selectionMode == !old(selectionMode)
      ensures selectionMode ==>
        && row == old(row) && col == old(col)
        && forall i :: 0 <= i < 3 ==> singleChars[i, 0] == ArmedKey()[i]
      ensures !selectionMode ==> row == 0 && col == 0 && unchanged(singleChars)
    {
      selectionMode := !selectionMode;
      if selectionMode {
        var cg := GetCharGroup(row, col).value;
        singleChars[0, 0] := cg[0];
        singleChars[1, 0] := cg[1];
        singleChars[2, 0] := cg[2];
      } else {
        row := 0;
        col := 0;
      }
    }

    /**
     * `_t3_click`: in selection mode, commit the candidate of the clicked row
     * and leave selection mode; otherwise arm the row (a new row starts at
     * column 1, the same row advances the column 1, 2, 3, 1) and register or
     * reschedule the timer.
     */
    method Click(pressedRow: nat)
      requires Valid() && 1 <= pressedRow <= 3
      modifies this`row, this`col, this`selectionMode, this`timer, this`timerLive
      modifies this`inputLength, inputString, singleChars
      ensures Valid()
      ensures !selectionMode
      ensures old(selectionMode) ==>
        && Text() == (if old(inputLength) < MaxLength && old(singleChars[pressedRow - 1, 0]) != NUL
                      then old(Text()) + [old(singleChars[pressedRow - 1, 0])] else old(Text()))
        && inputString[..] == (if old(inputLength) < MaxLength && old(singleChars[pressedRow - 1, 0]) != NUL
                               then old(inputString[..])[old(inputLength) := old(singleChars[pressedRow - 1, 0])]
                               else old(inputString[..]))
        && row == 0 && col == 0
        && timer == old(timer) && timerLive == old(timerLive)
      ensures !old(selectionMode) ==>
        && row == pressedRow
        && col == (if old(row) == pressedRow then old(col) % 3 + 1 else 1)
        && timer
        && timerLive == (old(timerLive) || !old(timer))
        && inputLength == old(inputLength) && unchanged(inputString)
      ensures unchanged(singleChars)
      ensures old(Clean()) ==> Clean()
    {
      if selectionMode {
        var _ := AddChar(singleChars[pressedRow - 1, 0]);
        ToggleMode();
      } else {
        if row != pressedRow {
          row := pressedRow;
          col := 1;
        } else {
          col := col + 1;
          if col > 3 {
            col := 1;
          }
        }
        if !timer {
          // app_timer_register
          timer := true;
          timerLive := true;
        } else {
          // app_timer_reschedule: the host fires the handle again only if it is still pending
        }
      }
    }

    /**
     * `_t3_timerCallback`: commit the armed key if its byte 1 is NUL (at most
     * one character) and disarm it; otherwise enter selection mode. Either way
     * the handle is cleared. The host has consumed its one-shot timer.
     */
    method TimerCallback()
      requires Valid() && timerLive && activeSet < 3
      modifies this`row, this`col, this`selectionMode, this`timer, this`timerLive
      modifies this`inputLength, inputString, singleChars
      ensures Valid()
      ensures !timer && !timerLive
      ensures old(ArmedKey())[1] == NUL ==>
        && !selectionMode && row == 0 && col == 0
        && Text() == (if old(inputLength) < MaxLength && old(ArmedKey())[0] != NUL
                      then old(Text()) + [old(ArmedKey())[0]] else old(Text()))
        && inputString[..] == (if old(inputLength) < MaxLength && old(ArmedKey())[0] != NUL
                               then old(inputString[..])[old(inputLength) := old(ArmedKey())[0]]
                               else old(inputString[..]))
        && unchanged(singleChars)
      ensures old(ArmedKey())[1] != NUL ==>
        && selectionMode && row == old(row) && col == old(col)
        && (forall i :: 0 <= i < 3 ==> singleChars[i, 0] == old(ArmedKey())[i])
        && inputLength == old(inputLength) && unchanged(inputString)
      ensures old(Clean()) ==> Clean()
    {
      timerLive := false;
      var text := GetCharGroup(row, col).value;
      if text[1] == NUL {
        var _ := AddChar(text[0]);
        row := 0;
        col := 0;
      } else {
        ToggleMode();
      }
      timer := false;
    }

    /**
     * `_t3_longclick`: on a button whose set has layouts, leave selection
     * mode, then cycle the layouts of the active set or make the button's set
     * active at its first layout.
     */
    method LongClick(button: nat)
      requires Valid() && button < 3
      modifies this`activeSet, this`kb, this`selectionMode, this`row, this`col, singleChars
      ensures Valid()
      ensures keyboardCounts[button] == 0 ==>
        && activeSet == old(activeSet) && kb == old(kb) && selectionMode == old(selectionMode)
        && row == old(row) && col == old(col)
      ensures keyboardCounts[button] > 0 ==>
        && activeSet == button
        && kb == (if old(activeSet) == button then (old(kb) + 1) % keyboardCounts[button] else 0)
        && !selectionMode
        && (if old(selectionMode) then row == 0 && col == 0 else row == old(row) && col == old(col))
      ensures unchanged(singleChars)
      ensures old(activeSet) == 3 ==> activeSet == 3
    {
      if keyboardCounts[button] > 0 {
        if selectionMode {
          ToggleMode();
        }
        if activeSet == button {
          var count := keyboardCounts[button];
          if count > 1 {
            kb := kb + 1;
            if kb >= count {
              kb := 0;
            }
          }
          assert kb == (old(kb) + 1) % count by {
            ModularIncrement(old(kb), count);
          }
        } else {
          activeSet := button;
          kb := 0;
        }
      }
    }

    /**
     * `_t3_back_click`: with a timer handle, cancel the timer and disarm the
     * key, keeping the (now dead) handle; else leave selection mode; else pop
     * the window and hand the text to the close handler, if there is one.
     */
    method BackClick() returns (handed: Option<seq<char>>)
      requires Valid()
      modifies this`row, this`col, this`selectionMode, this`timerLive, this`closed, singleChars
      ensures Valid()
      ensures old(timer) ==>
        && timer && !timerLive && row == 0 && col == 0
        && selectionMode == old(selectionMode)
        && closed == old(closed) && handed == None
      ensures !old(timer) && old(selectionMode) ==>
        && !selectionMode && row == 0 && col == 0
        && closed == old(closed) && handed == None
      ensures !old(timer) && !old(selectionMode) ==>
        && closed
        && handed == (if hasCloseHandler then Some(GetText()) else None)
        && row == old(row) && col == old(col) && !selectionMode
      ensures unchanged(singleChars)
      ensures timerLive == (old(timerLive) && !old(timer))
    {
      if timer {
        // app_timer_cancel: w->timer keeps its value
        timerLive := false;
        row := 0;
        col := 0;
        handed := None;
      } else if selectionMode {
        ToggleMode();
        handed := None;
      } else {
        // window_stack_pop
        closed := true;
        handed := if hasCloseHandler then Some(GetText()) else None;
      }
    }
  }
}
