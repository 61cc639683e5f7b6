# Notes app: Pomodoro timer, keyboard shortcuts and note editing, in Dafny

This project models the sequential logic of a small browser notes application:

- **Pomodoro countdown** (`pomodoro.dfy`, module `PomodoroTimer`). The widget's state is the record
  `{minutes, seconds, isRunning, isBreak, sessions}`. Its four events are start/pause, skip, reset and
  the one-second tick. Each is a pure step function on `TimerState` and a method of class `Timer`. Each
  method updates the five fields in place and is proved equal to its step function. The mode caption,
  the "Focus Time" statistic and the elapsed seconds behind the progress ring are functions of the state.
- **Keyboard shortcuts** (`shortcuts.dfy`, module `KeyboardShortcuts`). This is a first-match search over
  the registered shortcuts. Keys are compared ignoring case. The four modifier flags are compared exactly,
  and an absent flag counts as `false`. The dispatch reports whether the default was prevented and which
  handlers ran.
- **Note-creation form** (`note_form.dfy`, module `NoteForm`, with `String.prototype.trim` in
  `js_string.dfy`, module `JsString`). The form holds a title buffer and a content buffer. Submit refuses
  blank input and clears the buffers after an accepted submit.
- **Note editor** (`note.dfy`, module `NoteCard`). It holds the edit flag and the edit buffers of one
  listed note, and its save, cancel, edit and delete handlers. The clock read on save is a parameter.

The timer follows the code as written. When a focus period ends, by skip or by the tick at 00:00, the
code first queues `sessions + 1` and then calls `resetTimer`. `resetTimer` chooses the break length from
the session count its closure captured, which is the count before the increment. The caption and the
progress ring read the count after the increment. The model passes the captured count to
`ResetStep` explicitly.

Some behaviours of the code, kept as written:

- The widget's own tips say to work 25 minutes and then take a 5-minute break, and to take a 15-minute
  break after 4 sessions (src/components/PomodoroTimer.tsx:211-212). The code instead gives the first
  break after one focus session 15 minutes, and its caption says "Short Break" (see Findings).
- A running timer takes 1501 ticks from 25:00 to the break. It needs 1500 ticks to reach 00:00, and one
  more tick at 00:00 performs the transition (`FirstFocusPeriod`).
- A captured session count of 0 selects the long break, because `0 % 4 == 0`.
- The creation form refuses a blank title or content (src/components/NoteForm.tsx:14). Saving an edited
  note performs no such check (src/components/Note.tsx:15-21; `Editor.Save`, `SaveEmitsBlank`).

## Model

| member | source | states |
|---|---|---|
| `PomodoroTimer.PhaseLength` | src/components/PomodoroTimer.tsx:30-34 | the full length of a phase, shared by `resetTimer` and `progress()` (lines 105-109): 1500 s exactly in focus; in a break 900 s iff the given count is divisible by 4, else 300 s; always a positive whole number of minutes |
| `PomodoroTimer.Elapsed` | src/components/PomodoroTimer.tsx:104-112 | the numerator of `progress()`: never more than the phase length, non-negative iff the clock shows no more than the phase length, zero iff it shows exactly the phase length |
| `PomodoroTimer.Initial` | src/components/PomodoroTimer.tsx:18-24 | the widget starts at 25:00 (1500 s), paused, in focus, with zero sessions, and seconds in 0..59 |
| `PomodoroTimer.ResetStep` | src/components/PomodoroTimer.tsx:29-43 | reset sets `isBreak` to the argument and pauses; it keeps `sessions`; the clock shows the full phase length for the captured count (25:00 in focus; 900 s if the captured count is divisible by 4, else 300 s) with seconds in 0..59 |
| `PomodoroTimer.ToggleStep` | src/components/PomodoroTimer.tsx:45-50 | start/pause flips `isRunning` and changes no other field |
| `PomodoroTimer.AdvanceStep` | src/components/PomodoroTimer.tsx:52-61 | leaving focus adds exactly one session and enters a break whose length comes from the pre-increment count; leaving a break returns to 25:00 with `sessions` unchanged; both end paused |
| `PomodoroTimer.TickStep` | src/components/PomodoroTimer.tsx:66-93 | a tick while paused does nothing; with time left it removes exactly one second and keeps the phase, sessions and running flag; at 00:00 it performs the skip transition and the timer ends paused; seconds stay in 0..59 |
| `PomodoroTimer.ModeLabel` | src/components/PomodoroTimer.tsx:161-165 | the caption is "Focus Time", "Long Break" or "Short Break" exactly when the phase length read from the current count is 1500, 900 or 300 s |
| `PomodoroTimer.FocusMinutes` | src/components/PomodoroTimer.tsx:131 | the focus-time statistic is exactly 25 minutes per counted session |
| `PomodoroTimer.StepsPreserveValid` | src/components/PomodoroTimer.tsx:36-42 | reset, toggle, skip and tick all keep seconds within 0..59 |
| `PomodoroTimer.ToggleTwice` | src/components/PomodoroTimer.tsx:45-50 | toggling twice restores the state |
| `PomodoroTimer.TickAdvancesElapsed` | src/components/PomodoroTimer.tsx:104-112 | each running tick with time left moves the progress ring's elapsed seconds on by exactly one |
| `PomodoroTimer.ResetButtonRestartsPhase` | src/components/PomodoroTimer.tsx:198 | the Reset button restarts the current phase: elapsed time 0, same phase and sessions, paused |
| `PomodoroTimer.CountDown` | src/components/PomodoroTimer.tsx:68-93 | k ticks of a running timer with at least k seconds left remove exactly k seconds and leave it running in the same phase |
| `PomodoroTimer.AdvanceIgnoresClock` | src/components/PomodoroTimer.tsx:36-42 | the phase transition depends only on the phase and the session count, not on the clock |
| `PomodoroTimer.FullPeriod` | src/components/PomodoroTimer.tsx:66-93 | a running timer reaches 00:00 after as many ticks as it has seconds left, still running, and the next tick equals a skip |
| `PomodoroTimer.FirstFocusPeriod` | src/components/PomodoroTimer.tsx:18-93 | after start and 1501 ticks, the widget is paused in a 15:00 break with one session |
| `PomodoroTimer.AdvanceLengthMatchesLabelIff` | src/components/PomodoroTimer.tsx:52-61 | the break entered from focus lasts as long as its caption and ring say if and only if the pre-increment count is 1 or 2 modulo 4 |
| `PomodoroTimer.FirstBreakMislabelled` | src/components/PomodoroTimer.tsx:29-43 | the first break lasts 900 s but is captioned "Short Break", and the ring starts at -600 s |
| `PomodoroTimer.IntendedAdvanceStep` | src/components/PomodoroTimer.tsx:52-61 | the corrected transition: the break length comes from the incremented count, a break is long iff the new count is divisible by 4, and the ring starts at 0 |
| `PomodoroTimer.IntendedFirstBreakIsShort` | src/components/PomodoroTimer.tsx:211-212 | under the corrected transition the first break is a 5-minute "Short Break" |
| `PomodoroTimer.Timer.constructor` | src/components/PomodoroTimer.tsx:18-24 | the fields start as the initial state |
| `PomodoroTimer.Timer.ResetTimer` | src/components/PomodoroTimer.tsx:29-43 | updates the fields as `ResetStep` with the captured count: the given phase, paused, full length, `sessions` kept |
| `PomodoroTimer.Timer.Reset` | src/components/PomodoroTimer.tsx:198 | the Reset button resets to the current phase using the current count; elapsed time becomes 0 |
| `PomodoroTimer.Timer.ToggleTimer` | src/components/PomodoroTimer.tsx:45-50 | flips `isRunning`; the other four fields are unchanged |
| `PomodoroTimer.Timer.LeavePhase` | src/components/PomodoroTimer.tsx:73-80 | increments `sessions` when leaving focus, then resets with the count from before; equals `AdvanceStep` |
| `PomodoroTimer.Timer.SkipTimer` | src/components/PomodoroTimer.tsx:52-61 | from focus: a break with one more session; from a break: 25:00 focus with sessions kept; always paused |
| `PomodoroTimer.Timer.Tick` | src/components/PomodoroTimer.tsx:66-93 | updates the fields as `TickStep`: no change while paused, one second off with time left, the skip transition at 00:00 |
| `PomodoroTimer.SkipRoundTrip` | src/components/PomodoroTimer.tsx:52-61 | skipping a focus period and then its break gives a paused 25:00 focus with one more session |
| `KeyboardShortcuts.Matches` | src/hooks/useKeyboardShortcuts.ts:18-23 | the `find` predicate: keys equal after lower-casing (`Lower` for `toLowerCase`) and each modifier equal after `!!` (`Flag`); a match implies keys of equal length and each event modifier pressed exactly when the shortcut sets it to true, so an absent flag requires it unpressed |
| `KeyboardShortcuts.Match` | src/hooks/useKeyboardShortcuts.ts:17-24 | returns the index of a matching shortcut with no match before it; returns none exactly when no shortcut in the list matches |
| `KeyboardShortcuts.HandleKeyDown` | src/hooks/useKeyboardShortcuts.ts:26-29 | the default is prevented exactly when some shortcut matches; then exactly one handler runs, the first match's; otherwise none runs |
| `KeyboardShortcuts.MatchAppend` | src/hooks/useKeyboardShortcuts.ts:17-24 | shortcuts after the first match are ignored; past a non-matching prefix the search continues in the rest, at shifted positions |
| `KeyboardShortcuts.MatchIgnoresKeyCase` | src/hooks/useKeyboardShortcuts.ts:19 | two events whose keys differ only in letter case select the same shortcut |
| `KeyboardShortcuts.ExtraShiftNeverMatches` | src/hooks/useKeyboardShortcuts.ts:20-23 | an absent modifier flag counts as false, so a pressed Shift matches no shortcut that does not ask for it, and nothing is dispatched |
| `KeyboardShortcuts.CtrlNExample` | src/hooks/useKeyboardShortcuts.ts:17-29 | `{key:'n', ctrlKey:true}` fires on Ctrl+N and Ctrl+n and not on a plain n |
| `JsString.IsWhiteSpace` | src/components/NoteForm.tsx:14 | the characters `trim` removes, the ECMAScript WhiteSpace and LineTerminator code points; below 128 exactly space and tab through carriage return, and none above U+FEFF |
| `JsString.TrimStart` | src/components/NoteForm.tsx:14 | the result is a suffix that starts with non-white space or is empty, and every dropped character is white space |
| `JsString.TrimEnd` | src/components/NoteForm.tsx:14 | the result is a prefix that ends with non-white space or is empty, and every dropped character is white space |
| `JsString.Trim` | src/components/NoteForm.tsx:14 | the result is a slice of the input bounded by non-white space, and everything cut from either end is white space |
| `JsString.TrimEmptyIffBlank` | src/components/NoteForm.tsx:14 | the trimmed string is empty if and only if the input is all white space |
| `NoteForm.Form.constructor` | src/components/NoteForm.tsx:9-10 | both buffers start empty |
| `NoteForm.Form.SetTitle` | src/components/NoteForm.tsx:26 | typing in the title input replaces the title only |
| `NoteForm.Form.SetContent` | src/components/NoteForm.tsx:33 | typing in the textarea replaces the content only |
| `NoteForm.Form.HandleSubmit` | src/components/NoteForm.tsx:12-19 | the default is always prevented; the submit is accepted iff neither buffer is blank; if accepted, `onSubmit` gets the untrimmed buffers once and both buffers become empty; if rejected, nothing is emitted and the buffers are kept |
| `NoteForm.RejectsBlankTitle` | src/components/NoteForm.tsx:14 | a whitespace-only title with filled-in content is refused: the outcome is default prevented with nothing submitted, and both buffers stay in the form |
| `NoteCard.Edited` | src/components/Note.tsx:16-21 | the saved note keeps `id` and `createdAt`, and takes the edited title, the edited content and the current time as `updatedAt` |
| `NoteCard.EditedUnchangedText` | src/components/Note.tsx:16-21 | saving the note's own text only changes `updatedAt` |
| `NoteCard.EditedTwice` | src/components/Note.tsx:16-21 | a later save overrides an earlier one |
| `NoteCard.Editor.constructor` | src/components/Note.tsx:11-13 | not editing, and the buffers start from the note's title and content |
| `NoteCard.Editor.Edit` | src/components/Note.tsx:58 | entering edit mode changes only `isEditing` |
| `NoteCard.Editor.Cancel` | src/components/Note.tsx:43 | cancel leaves edit mode, keeps the buffers and emits nothing |
| `NoteCard.Editor.SetEditedTitle` | src/components/Note.tsx:31 | typing replaces the title buffer only |
| `NoteCard.Editor.SetEditedContent` | src/components/Note.tsx:38 | typing replaces the content buffer only |
| `NoteCard.Editor.Save` | src/components/Note.tsx:15-23 | emits the note with the same id and `createdAt`, the buffers' text unchecked, `updatedAt` = the supplied time; ends edit mode |
| `NoteCard.Editor.Delete` | src/components/Note.tsx:59 | `onDelete` gets exactly the note's id; the edit state is not touched |
| `NoteCard.CancelKeepsDraft` | src/components/Note.tsx:43 | text typed, cancelled and re-opened is still in the buffer |
| `NoteCard.SaveEmitsBlank` | src/components/Note.tsx:15-21 | a blank title is saved as it is |

## Left out

- Interval plumbing: `setInterval`, `clearInterval` and the effect lifecycle. One call of `Timer.Tick` is
  one firing of the interval, which exists only while the timer runs.
- Sound playback (`use-sound`): it has no effect on the state.
- React scheduling. Queued updates are applied in order. A `setState` nested inside an updater and
  StrictMode double invocation are not modelled.
- `progress()` is a floating-point percentage. The model keeps its integer numerator `Elapsed`.
- Clock display formatting (`padStart`) and all markup.
- `toLowerCase` is modelled on ASCII letters only. Unicode case mapping is not modelled.
- Key listener registration and removal on `window`: this is browser I/O.
- `KeyboardShortcuts.HandleKeyDown`: the handler's own effect is code outside the model. "Calling the
  handler" is the recorded index of the shortcut.
- `src/App.tsx` and the storage module it calls are not part of this model. The storage module is not
  available. Ids and timestamps come from `crypto.randomUUID` and the clock.
- Search, sorting and drag-reorder: the files modelled here contain no such logic. The filter, list and
  confirmation-dialog components only render and forward callbacks.
- `NoteCard.Editor` keeps the note it was created with as a constant. In the app the list keys each card
  by id, so after a save the card keeps its edit state and receives the re-read note as a new prop
  (src/components/NotesList.tsx:17-23). The model does not capture that prop replacement. Outputs still
  agree, because `Save` and `Delete` read only `id` and `createdAt` from the note, and those do not change.
- Numbers are modelled as unbounded naturals. The values involved are far below the point where
  JavaScript's floating-point integers lose precision.

## Findings

| source | as written | input that shows it | evidently intended | confidence | as-written member | corrected member |
|---|---|---|---|---|---|---|
| src/components/PomodoroTimer.tsx:29-43 | leaving focus picks the break length from the session count before the increment, while the caption and progress ring use the count after it | initial state, then skip (or 1501 running ticks): sessions 1, clock 15:00, caption "Short Break", ring at -600 of 300 s | the break length comes from the incremented count, so the first three breaks are short and the fourth is long | high; not executed | `PomodoroTimer.FirstBreakMislabelled` | `PomodoroTimer.IntendedAdvanceStep` |

The class `Timer` keeps the behaviour as written, because it models the code. `IntendedAdvanceStep` and
`IntendedFirstBreakIsShort` state the corrected transition alongside it.
