# T3 keyboard: the multi-tap input state machine

A Dafny model of the input logic of the T3 keyboard for Pebble watches
(`T3Window.c`). The keyboard has three buttons, UP, SELECT and DOWN. Each
button is bound to a keyboard set, which is a list of layouts. A layout is a
3×3 grid of keys. Each key holds up to three characters.

- A short click arms a key. The clicked row is selected, and clicking the
  same row again cycles the column 1 → 2 → 3 → 1. Outside selection mode
  every click registers the host timer or reschedules it. In selection mode a
  click commits a candidate and touches no timer.
- When the timer fires, a key whose byte 1 is NUL (at most one character) is
  committed to the input buffer. For any other key the window enters
  selection mode: the key's three bytes become the candidates, and the next
  UP/SELECT/DOWN click commits candidate 0/1/2.
- A long click on a button whose set has layouts makes that set active. If
  the set is already active, the long click cycles its layouts instead.
- BACK does one of three things. If a timer handle exists, it cancels the
  timer. Otherwise, in selection mode, it leaves selection mode. Otherwise it
  closes the window and hands the text to the close handler. A double BACK
  deletes the last character.

Files and modules:

- `layouts.dfy`, module `Layouts`, pure code:
  - the 36-byte layout encoding (nine 4-byte keys);
  - the key grammar of `T3Window.h` as `ValidKey`/`ValidLayout`;
  - `strlen` and the C-string view of a buffer;
  - the key lookup `CharGroup`;
  - the five predefined layout tables, with proofs that they follow the
    grammar.
- `t3window.dfy`, module `T3`: class `T3Window`. Its fields mirror the C
  struct. The struct field `set` is called `activeSet`, because `set` is a
  Dafny keyword. `inputString` is an array of `MaxLength + 1` chars and
  `singleChars` a 3×2 array. Each event handler is a method. `Valid()` is the
  invariant every handler preserves:
  - `row == 0 <==> col == 0`, and both are at most 3;
  - `timerLive ==> timer && !selectionMode && row, col in 1..3`;
  - `activeSet < 3 ==> kb < keyboardCounts[activeSet]`;
  - `activeSet == 3` only when every count is 0, so it is permanent;
  - in selection mode the candidates are the bytes of the armed key, and no
    timer handle exists;
  - `inputLength <= MaxLength`, and `inputString[MaxLength] == NUL`;
  - no NUL among the entered characters.
- `scenarios.dfy`, module `Scenarios`: runs of the machine from creation. It
  uses the keyboard sets of the usage example in `T3Window.h`. Each run is
  proved from the handlers' contracts alone. There are also three client
  methods that hold for every window: `AddCharThenBackspace`,
  `EventsAfterCancel` and `ThreeClicksOnArmedRow`.

The host timer is modelled by two flags:

- `timer` stands for `w->timer != NULL`;
- the ghost field `timerLive` means the host will still fire the callback.

Registering sets both flags. `app_timer_cancel` clears `timerLive` only. It
is assumed that `app_timer_reschedule` leaves `timerLive` as it was: a
cancelled handle is not revived. `TimerCallback` requires `timerLive`.

Some source behaviours look like bugs but are modelled as written:

- `BackClick` cancels the timer but keeps the handle.
  - After that, clicks only reschedule the dead handle.
  - The timer never fires again.
  - BACK can never again leave selection mode or close the window.
  - `Scenarios.EventsAfterCancel` proves this for every sequence of buttons.
- `SetText` of an empty text sets the length to 0 and does not copy. The old
  bytes stay in the buffer, and `GetText` (the C string) still returns them.
  A later commit overwrites only the first of them
  (`Scenarios.CommitOverStaleBuffer`).
- The C code reads the key through the NULL group pointer when no keyboard
  set is active. So `TimerCallback`, and entering selection mode in
  `ToggleMode`, require `activeSet < 3`.

Two further behaviours of the code, which the scenarios show:

- One tap on `abc` followed by a timeout does not commit `a`. Byte 1 of the
  key is not NUL, so the window enters selection mode (T3Window.c:463, 467).
- The column advances on every click of the same row, starting at 1. So
  three SELECT clicks arm row 2, column 3, which is `pqr`
  (T3Window.c:422-435).

One source behaviour is corrected in the model:

- `t3window_set_text` copies at most `T3_MAXLENGTH` bytes with `strncpy`
  (T3Window.c:292), as the header's "copied locally, up to the T3_MAXLENGTH"
  says. But it stores `strlen(text)` as the length (T3Window.c:290), without
  cutting it to `T3_MAXLENGTH`; the `uint8_t` field keeps `strlen(text)` mod
  256. This is recorded under Findings.
  `SetText` cuts the stored length to `MaxLength`.

## Model

| member | source | states |
|---|---|---|
| `Layouts.StrLen` | T3Window.c:290 | `strlen`: every byte before the result is non-NUL, and the byte at the result (if any) is NUL |
| `Layouts.CString` | T3Window.c:296-302 | the C string of a buffer is a prefix of it without NUL, followed in the buffer by a NUL (or the buffer's end) |
| `Layouts.CStringOfNonNulPrefix` | T3Window.c:296-302 | a C string extends any NUL-free prefix of its buffer, and equals it when the next byte is NUL |
| `Layouts.Printable` | T3Window.h:129 | a printable character is one from ASCII 0x20 to 0x7E |
| `Layouts.ValidKey` | T3Window.h:125-130 | a key is four bytes in one of the four grammar alternatives: zero to three printable characters, then NUL up to the fourth byte |
| `Layouts.ValidLayout` | T3Window.h:118-124 | a layout is 36 bytes whose nine 4-byte keys each follow the key grammar |
| `Layouts.LowercaseLayout` | T3Window.c:21-25 | the lower-case table, with the literal's implicit terminator as its last byte |
| `Layouts.UppercaseLayout` | T3Window.c:28-32 | the upper-case table, with its implicit terminator |
| `Layouts.NumbersLayout` | T3Window.c:35-39 | the digits table; the hex escapes are the digits 0 to 9 |
| `Layouts.PuncLayout` | T3Window.c:42-46 | the punctuation table, with its implicit terminator |
| `Layouts.BracketsLayout` | T3Window.c:49-53 | the brackets table, with one byte per character in its last key |
| `Layouts.ValidKeyIsWidthAtMostThree` | T3Window.h:118-130 | the four-alternative key grammar holds iff the key is 4 bytes, has at most 3 bytes before its first NUL, those are printable, and every later byte is NUL |
| `Layouts.SecondByteNulIffSingle` | T3Window.c:462-468 | for a valid key, the timeout's test `text[1] == '\0'` holds exactly when the key holds at most one character |
| `Layouts.KeyIndex` | T3Window.c:618 | the key index of (row, col) in 1..3 × 1..3 is below 9, with row − 1 = index / 3 and col − 1 = index % 3 (row-major) |
| `Layouts.KeyIndexInjective` | T3Window.c:618 | distinct positions have distinct key indexes, and equal indexes mean equal positions |
| `Layouts.KeyAt` | T3Window.c:619 | key `idx` is 4 bytes long |
| `Layouts.CharGroup` | T3Window.c:617-619 | the group at (row, col) is 4 bytes; byte j is layout byte 4·index + j; the group ends within the 36 bytes |
| `Layouts.ValidLayoutByKeys` | T3Window.h:118-124 | a 36-byte layout whose nine keys each follow the key grammar is a valid layout |
| `Layouts.LowercaseLayoutValid` | T3Window.c:21-26 | the lower-case table (with its implicit terminator) is nine grammatical keys |
| `Layouts.UppercaseLayoutValid` | T3Window.c:28-33 | the upper-case table is nine grammatical keys |
| `Layouts.NumbersLayoutValid` | T3Window.c:35-40 | the digits table is nine grammatical keys |
| `Layouts.PuncLayoutValid` | T3Window.c:42-47 | the punctuation table is nine grammatical keys |
| `Layouts.BracketsLayoutFirstEightKeysValid` | T3Window.c:49-54 | the brackets table has 36 bytes under a one-byte-per-character reading; its first eight keys are grammatical; its last key starts with a non-ASCII character |
| `T3.WellFormedSets` | T3Window.h:132-146 | three keyboard sets, each NULL with count 0 or an array of at least count layouts whose counted layouts have 36 bytes, with `uint8_t` counts |
| `T3.Present` | T3Window.c:133-140 | a set is usable when its pointer is non-NULL and its count is positive |
| `T3.T3Window.BufferValid` | T3Window.c:77-78 | the buffer has MaxLength + 1 bytes, its last byte is NUL, the length is at most MaxLength, and no entered character is NUL |
| `T3.T3Window.Inv` | T3Window.c:65-96 | the struct invariant: sets well formed with kb inside the active set, row and col both 0 or both in 1..3, a live timer only with an armed key outside selection mode, selection-mode candidates equal to the armed key's bytes, one-character candidate strings, and a valid buffer |
| `T3.T3Window.Valid` | T3Window.c:65-96 | `Inv` between events, plus no timer handle in selection mode |
| `T3.T3Window.SetsValid` | T3Window.c:67-71 | the keyboard registry is well formed, the active set is 0..3, and kb indexes a counted layout of the active set |
| `T3.T3Window.ArmedKey` | T3Window.c:462 | the armed key is `_t3_getCharGroup(w, w->row, w->col)`, the group of the active layout at (row, col) |
| `T3.T3Window.Text` | T3Window.c:77-78 | the entered characters are the first `inputLength` bytes of `inputString` |
| `T3.T3Window.Clean` | T3Window.c:215-216 | every buffer byte from `inputLength` on is NUL, as the zeroing loop leaves it |
| `T3.T3Window.ActiveLayout` | T3Window.c:617 | the layout `keyboardSets[set][kb]` has 36 bytes |
| `T3.T3Window.GetCharGroup` | T3Window.c:615-622 | `_t3_getCharGroup`: NULL iff no set is active; otherwise a 4-byte key, byte j of which is active-layout byte 4·index(r, c) + j |
| `T3.T3Window.GetText` | T3Window.c:296-302 | the returned text has at most MaxLength characters and no NUL; it begins with the entered characters, and equals them when the buffer is clean |
| `T3.T3Window.Create` | T3Window.c:133-217 | the active set is the first of 0, 1, 2 that is non-NULL with count > 0, else 3; kb, row and col are 0; not selecting; no timer; length 0; every buffer byte NUL; invariant established |
| `T3.T3Window.SetText` | T3Window.c:285-294 | length := \|text\| cut to MaxLength; a non-empty text has its first MaxLength bytes copied with NUL padding (so `GetText` returns the cut text); an empty text leaves the buffer and `GetText` unchanged; invariant kept |
| `T3.SetTextLengthAsWritten` | T3Window.c:290 | the length the source stores is the text's length mod 256: not cut to MaxLength, and truncated to `uint8_t` |
| `T3.LongTextLengthWrapsAsWritten` | T3Window.c:290 | a text of 256 or 257 characters stores the length 0 or 1 |
| `T3.LongTextOverrunsBufferAsWritten` | T3Window.c:290 | for MaxLength below 254 and a text of MaxLength + 2 characters the stored length is MaxLength + 2, and the write index of the double BACK (T3Window.c:330) lies outside the MaxLength + 1 buffer bytes |
| `T3.T3Window.AddChar` | T3Window.c:597-613 | appends and returns true iff length < MaxLength and c ≠ NUL; otherwise changes nothing; never writes the final NUL; a clean buffer stays clean |
| `T3.T3Window.BackspaceClick` | T3Window.c:323-333 | removes the last character (writing NUL over it) iff the length is positive; otherwise nothing changes |
| `T3.T3Window.ToggleMode` | T3Window.c:577-595 | flips selection mode; on entry the candidates are the armed key's bytes 0, 1, 2 and the key stays armed; on exit row = col = 0 |
| `T3.T3Window.Click` | T3Window.c:417-454 | in selection mode: commits the clicked row's candidate (unless NUL or full), writing exactly that one buffer byte, leaves selection mode, row = col = 0, timer untouched; otherwise: row := clicked row, col := 1 on a new row or col mod 3 + 1 on the same row, and a handle exists (registered and live if there was none, else rescheduled with liveness unchanged) |
| `T3.T3Window.TimerCallback` | T3Window.c:456-471 | if byte 1 of the armed key is NUL: commits byte 0 (unless NUL or full), writing exactly that one buffer byte, and disarms; otherwise: enters selection mode with candidates = key bytes 0..2, key stays armed; either way the handle is cleared |
| `T3.T3Window.LongClick` | T3Window.c:391-415 | count 0: nothing changes; otherwise: leaves selection mode (disarming the key), then kb := (kb + 1) mod count on the active set, or set := button and kb := 0; no active set stays no active set |
| `T3.T3Window.BackClick` | T3Window.c:335-365 | with a handle: cancels (not live), row = col = 0, handle and selection flag kept; else if selecting: leaves selection; else closes and hands `GetText()` to the handler if there is one |
| `T3.ModularIncrement` | T3Window.c:402-403 | incrementing an index below n and resetting it when it reaches n is (k + 1) mod n |
| `T3.ZeroingCounterAfter` | T3Window.c:215 | the `uint8_t` loop counter after k increments is below 256 |
| `T3.ZeroingCounterIsModular` | T3Window.c:215 | it equals k mod 256 |
| `T3.ZeroingLoopExitsBelow255` | T3Window.c:215-216 | for T3_MAXLENGTH < 255 the loop visits 0..max and its guard then fails |
| `T3.ZeroingLoopNeverExitsAt255` | T3Window.c:215-216 | for T3_MAXLENGTH = 255 the guard `i <= T3_MAXLENGTH` holds after every number of increments, and i returns to 255 again and again |
| `Scenarios.NewExampleWindow` | T3Window.h:99-116 | a window with the header's example sets starts on set 0, layout 0, idle, with empty text |
| `Scenarios.TapAbcThenPickThird` | T3Window.c:417-471 | UP, timeout, DOWN on the lower-case layout gives the text "c" |
| `Scenarios.CycleRowTwoThenPickFirst` | T3Window.c:430-438 | three SELECT clicks arm "pqr"; timeout, then UP gives "p" |
| `Scenarios.SingleCharacterKeyCommitsOnTimeout` | T3Window.c:462-466 | long SELECT, UP twice, timeout on the digits layout commits "2" without entering selection mode |
| `Scenarios.LongClickCyclesLayouts` | T3Window.c:396-404 | two long UPs on a two-layout active set give kb 1, then 0 |
| `Scenarios.CancelledTimerBlocksClose` | T3Window.c:341-348 | after BACK cancels an armed key, a click and a second BACK neither close the window nor hand over text, and the handle remains |
| `Scenarios.BackClosesWithText` | T3Window.c:356-364 | from idle, BACK hands the entered text "hi" to the close handler |
| `Scenarios.EmptyTextKeepsOldBuffer` | T3Window.c:290-292 | after setting "ab" and then "", the length is 0 but the text read back is "ab" |
| `Scenarios.StaleBufferWindow` | T3Window.c:290-292 | after setting "ab" and then "", the length is 0 and the buffer still starts with "ab" |
| `Scenarios.CommitOverStaleBuffer` | T3Window.c:417-471 | on that buffer, UP, timeout, DOWN leaves the text "cb": the commit overwrites one stale byte |
| `Scenarios.LongTextIsCut` | T3Window.c:290-292 | with the corrected `SetText`, a 26-letter text on a window of maximum length 24 reads back as its first 24 letters (as in the source, whose `inputString[24]` stays NUL) and has length 24 (the source stores 26) |
| `Scenarios.EventsAfterCancel` | T3Window.c:341-348 | from a cancelled handle, any sequence of clicks, long clicks, BACK and double BACK keeps the handle set and dead, never closes the window and hands over no text |
| `Scenarios.NoKeyboards` | T3Window.c:139-140 | with no keyboard the active set is 3, long clicks keep it, and BACK closes with the empty text |
| `Scenarios.AddCharThenBackspace` | T3Window.c:323-333 | a character accepted into a clean buffer is removed by a double BACK, restoring the buffer exactly |
| `Scenarios.ThreeClicksOnArmedRow` | T3Window.c:430-438 | three clicks on the armed row return to the same column, leaving a timer handle |

## Left out

- Drawing is not modelled: `_t3_drawInput` and `_t3_drawKey` are presentation only.
- The colour and theme setters are not modelled, for the same reason.
- Window and layer creation, destruction and `t3window_show` are Pebble calls and are not modelled.
- `layer_mark_dirty` is a Pebble call and is not modelled.
- `window_stack_pop` is modelled as the `closed` flag.
- The close handler is modelled by `hasCloseHandler` plus the text `BackClick` returns. What the handler then does is not modelled.
- Events after the window is closed are not excluded: the host simply stops delivering them.
- The click subscription (`_t3_clickConfigProvider`) is host dispatch; `Click` and `LongClick` are called directly.
- The `_t3_r*_click`/`_t3_r*_longclick` forwarders only pass the row (1..3) or button (0..2) on.
- The real `app_timer` is not modelled: no durations, no clock, no concurrency. Only the two flags above.
- Logging (`app_log`), `malloc` and `free` are not modelled.
- `_t3_validateKeyboard` is only declared in the source. `ValidLayout` is the documented grammar, not that function.
- `Layouts.Printable` reads "printable" as ASCII 0x20–0x7E.
- `Layouts.BracketsLayoutFirstEightKeysValid`: the last brackets key ("¢½") has an encoding-dependent width. It is written with one byte per character, and `ValidLayout` is not claimed for that layout.
- `T3.T3Window.Create`: the candidate bytes `singleChars[i][0]` come from `malloc` uninitialised. The model gives them an unspecified value and states nothing about them; they are never read before selection mode sets them.
- `T3.T3Window.Create`: the zeroing loop uses an unbounded counter (see Findings); the source's `uint8_t` counter is modelled separately by `T3.ZeroingCounterAfter`.
- `T3.T3Window.TimerCallback` requires `activeSet < 3`: the source dereferences the NULL key pointer there.
- `T3.T3Window.ToggleMode` requires `activeSet < 3` on entry to selection mode, for the same reason.
- `T3.T3Window.SetText` stores the length cut to `MaxLength`, not the source's `strlen(text)` mod 256 (see Findings).
- `Scenarios.LongTextIsCut` runs the corrected `SetText`: the length 24 it proves is the corrected one; the source stores 26.
- `T3.T3Window.SetText` requires a text without NUL, because a C string cannot contain NUL.
- Integer widths: `kb`, `col` and `inputLength` are `uint8_t` in the source. Their contracts keep them below 256 (`kb < count <= 255`, `col <= 4`, `inputLength <= T3_MAXLENGTH <= 255`), so none of them wraps around. The two places where the source does wrap are the zeroing loop's counter and the length stored by `t3window_set_text` (`strlen(text)` mod 256); both are modelled by the as-written members of Findings.

## Findings

| source | as written | input that shows it | evidently intended | confidence | as-written member | corrected member |
|---|---|---|---|---|---|---|
| T3Window.c:290-292 | `window->inputLength = strlen(text)`, then `strncpy(window->inputString, text, T3_MAXLENGTH)` | T3_MAXLENGTH at most 253 and a text of T3_MAXLENGTH + 2 characters: the length becomes T3_MAXLENGTH + 2, and the next double BACK (T3Window.c:330) writes `inputString[T3_MAXLENGTH + 1]`, one byte past the buffer; on the usual struct layout this is the byte of `inputLength` itself (T3Window.c:78), and what follows is undefined. (At 254 and 255 the `uint8_t` length wraps to 0 or 1 instead, `T3.LongTextLengthWrapsAsWritten`) | store the length of the copied text, at most T3_MAXLENGTH | medium; not executed | `T3.LongTextOverrunsBufferAsWritten` | `T3.T3Window.SetText` |
| T3Window.c:215-216 | `for(uint8_t i = 0; i <= T3_MAXLENGTH; ++i)` with `T3_MAXLENGTH` a `uint8_t` the user "may change" | T3_MAXLENGTH = 255: `i` wraps from 255 to 0, the guard never fails, and `t3window_create` never returns | zero all `T3_MAXLENGTH + 1` bytes and stop | medium; not executed | `T3.ZeroingLoopNeverExitsAt255` | `T3.T3Window.Create` |
