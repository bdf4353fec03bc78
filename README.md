# Console state machine

A model of the in-memory state machine behind a terminal console with five
screen regions (header, navigation menu, preview, input line, footer). Keys
arrive one at a time. The top-level dispatcher handles the quit dialog
(Ctrl-Q, then `y` or `n`) and the function keys F1–F5 that jump to a region.
It routes every other key either to the line editor, when the input line has
focus, or to the region navigator, which moves focus with `h`/`l`/`j`/`k`
and moves the menu selection with `j`/`k`. The line editor keeps a buffer and
a cursor. It supports the usual Emacs-style shortcuts. It turns on a sticky
command mode when `/` is typed into an empty line. On Enter it logs the line
and, in command mode, shows the answer of a tiny command interpreter
(`help`, `clear`) in the preview.

Files and modules:

- `keys.dfy` (`Keys`): key events as a key code plus two modifier facts: CONTROL
  is held, some other modifier is held.
- `app_state.dfy` (`State`): `FocusArea`, the menu size, the mutable record
  `AppState` and its value `AppView`. Each mutator of `AppState` is proved to
  agree with the member of `AppView` that has the same name.
- `input.dfy` (`InputHandler`): the line editor. `EditKey` gives the effect of
  one key on an `AppView`. `HandleKeyEvent` applies that effect in place on an
  `AppState` and is proved equal to `EditKey`. Also here: the command
  interpreter and the editor's properties.
- `terminal_manager.dfy` (`TerminalManager`): the dispatcher. It has the pure
  `HandleKey`/`Navigate`, the in-place `HandleKeyEvent`/`HandleNavigation`
  proved against them, and `Replay`, which feeds a series of keys to
  `HandleKey` the way the event loop does. Lemmas about whole sessions are
  stated over `Replay`.

Modelling choices:

- The buffer is a `string` with one character per cursor position. `InsertAt`
  and `RemoveAt` stand for inserting and removing one character at a cursor
  position.
- Integers are unbounded. The cursor and the selection never come near
  overflow, since the selection is clamped to 5.
- The editor functions require `cursorPosition <= |inputBuffer|`. The
  source would panic when slicing or inserting past the end of the buffer.
  The dispatcher keeps this bound on every key (`HandleKey`, `Replay`).
- The terminal object that owns the dispatcher's methods is not used by
  them, so the methods take only the `AppState`.

Some behaviours of the code are easy to misread, and the model keeps
them exactly as written:

- A confirmation dialog would usually swallow other keys. This one does
  not: while it shows, keys other than `y`, `n`, Ctrl-Q and the function
  keys are still routed to the focused region (`DialogDoesNotBlockRouting`).
- Enter logs the raw line even when it is empty.
- Command mode is a sticky flag, not "the line starts with `/`". The
  flag goes on only when `/` is typed into an empty line, and off only when
  the line becomes empty. The lemma `CommandModeIsSticky` shows both
  directions of the difference. The invariant that does hold is "empty line
  ⇒ not in command mode" (`AppView.Valid`).
- There is no submenu state and no menu-driven preview table. The selection
  is one index clamped to six entries.

## Model

| member | source | states |
|---|---|---|
| State.Initial | src/core/app_state.rs:81-94 | the fresh state focuses Navigation with empty line, log and preview, dialog off and selection 0, and satisfies the invariant |
| State.AppState.constructor | src/core/app_state.rs:81-94 | `new`/`default` set focus Navigation, empty buffer, cursor 0, empty log, dialog off, selection 0, empty preview, command mode off |
| State.AppView.ResetInput | src/core/app_state.rs:49-53 | buffer empty, cursor 0, command mode off; every other field unchanged; the result satisfies the invariant whenever the selection is in range |
| State.AppState.ResetInput | src/core/app_state.rs:49-53 | the in-place reset agrees with `AppView.ResetInput` |
| State.AppView.LogOutput | src/core/app_state.rs:56-58 | the log grows by one, the message is last, earlier entries are unchanged, nothing else changes |
| State.AppState.LogOutput | src/core/app_state.rs:56-58 | the in-place append agrees with `AppView.LogOutput` |
| State.AppView.SetFocus | src/core/app_state.rs:61-68 | afterwards `HasFocus(area)` holds and `HasFocus(b)` holds for no other `b`; nothing else changes |
| State.AppState.SetFocus | src/core/app_state.rs:61-68 | the in-place update agrees with `AppView.SetFocus`, and `has_focus` answers true for `area` only |
| State.AppView.UpdatePreview | src/core/app_state.rs:71-73 | the preview becomes the given content and no other field changes |
| State.AppState.UpdatePreview | src/core/app_state.rs:71-73 | the in-place update agrees with `AppView.UpdatePreview` |
| State.AppView.SelectNavigationItem | src/core/app_state.rs:76-78 | the stored index is below the menu size, an in-range index is kept, an out-of-range one saturates to 5, nothing else changes |
| State.AppState.SelectNavigationItem | src/core/app_state.rs:76-78 | the in-place update agrees with `AppView.SelectNavigationItem` |
| State.SelectNavigationItemIdempotent | src/core/app_state.rs:76-78 | selecting the same index twice equals selecting it once |
| InputHandler.StripSlash | src/core/input.rs:108 | exactly one leading `/` is removed when present, otherwise the text is unchanged |
| InputHandler.HandleCommand | src/core/input.rs:106-114 | the answer is the help text iff the stripped command is `help`, empty iff it is `clear`, and otherwise "Unknown command: " followed by the stripped command |
| InputHandler.CommandVocabulary | src/core/input.rs:106-114 | `help`/`clear` work with or without `/`; `//help` and `/Help` are unknown; the empty command is unknown |
| InputHandler.InsertAt | src/core/input.rs:36 | inserting a character lengthens the line by one |
| InputHandler.RemoveAt | src/core/input.rs:44 | removing a character shortens the line by one |
| InputHandler.PreviewText | src/core/input.rs:90-96 | the preview text is "Command: " in command mode and "Echo: " otherwise, followed by the whole line |
| InputHandler.WithPreview | src/core/input.rs:90-97 | the preview becomes the prefixed line for the current mode; nothing else changes |
| InputHandler.WithPreviewAndMode | src/core/input.rs:99-104 | command mode survives only on a non-empty line; the preview then shows "Command: " or "Echo: " with the line, according to the mode; nothing else changes |
| InputHandler.UpdatePreview | src/core/input.rs:90-97 | the in-place refresh sets the preview to the prefixed line, as `WithPreview` does |
| InputHandler.UpdatePreviewAndMode | src/core/input.rs:99-104 | the in-place refresh agrees with `WithPreviewAndMode` |
| InputHandler.EditChar | src/core/input.rs:8-39 | character keys keep the cursor within the line, keep the invariant, and change only the line, cursor, mode and preview |
| InputHandler.Submit | src/core/input.rs:75-85 | Enter logs the raw line (even empty); in command mode the preview becomes the command's answer, otherwise it is unchanged; the line ends empty at cursor 0 outside command mode; focus, dialog and selection are unchanged |
| InputHandler.EditKey | src/core/input.rs:5-88 | every editor key keeps the cursor within the line and keeps the invariant (cursor in range, selection in range, empty line not in command mode); it never touches focus, dialog or selection; only Enter touches the log |
| InputHandler.HandleCharKey | src/core/input.rs:8-39 | the in-place character arm agrees with `EditKey` |
| InputHandler.HandleDeletion | src/core/input.rs:40-54 | the in-place Backspace and Delete arms agree with `EditKey` |
| InputHandler.HandleKeyEvent | src/core/input.rs:5-88 | the in-place editor agrees with `EditKey` on every key |
| InputHandler.CursorKeysOnlyMoveCursor | src/core/input.rs:55-74 | Left/Right/Home/End with any modifiers, and `a`/`e` with any modifiers that include CONTROL, change only the cursor; Home and Ctrl-A give 0; End and Ctrl-E give the line's length; Left stops at 0 and Right at the end |
| InputHandler.InsertAtCursor | src/core/input.rs:29-39 | a plain character lands at the cursor and the cursor moves past it; both sides of the line are kept; command mode goes on only for `/` typed into an empty line; the preview shows the prefixed line |
| InputHandler.InsertThenBackspace | src/core/input.rs:29-47 | typing a character and then Backspace restores the line, cursor and mode (only the preview differs) |
| InputHandler.EditorIgnoresOtherKeys | src/core/input.rs:5-39 | a key code without an arm, and a character with modifiers other than the four CONTROL shortcuts, leave the state unchanged |
| InputHandler.EnterSubmits | src/core/input.rs:75-85 | Enter with any modifiers has exactly the effect of `Submit` |
| InputHandler.BackspaceRemovesBefore | src/core/input.rs:40-47 | Backspace with any modifiers: at cursor 0 it is a no-op; otherwise the character before the cursor is removed and the cursor steps back, command mode survives only on a non-empty line, and the preview shows the new line |
| InputHandler.DeleteRemovesAt | src/core/input.rs:48-54 | Delete with any modifiers: at the end it is a no-op; otherwise the character under the cursor is removed and the cursor stays, command mode survives only on a non-empty line, and the preview shows the new line |
| InputHandler.LeftThenDeleteIsBackspace | src/core/input.rs:40-60 | Left followed by Delete has the same effect as Backspace |
| InputHandler.KillsSplitTheLine | src/core/input.rs:16-27 | with any modifiers that include CONTROL, Ctrl-K keeps the text before the cursor (cursor unchanged) and Ctrl-U keeps the text after it (cursor 0); together the two pieces give the whole line; after each, command mode survives only on a non-empty line and the preview shows what is left |
| InputHandler.TypeTextInserts | src/core/input.rs:29-39 | typing a text inserts it at the cursor, which ends up right after it; command mode afterwards is the old mode, or "line was empty and text starts with `/`" |
| InputHandler.LeftLeftDelete | src/core/input.rs:48-60 | on "abc" with the cursor at the end, Left, Left, Delete leaves "ac" with the cursor at 1 |
| InputHandler.DeleteScenario | src/core/input.rs:48-60 | typing "abc", Left, Left, Delete leaves "ac" with the cursor at 1 |
| InputHandler.CommandModeIsSticky | src/core/input.rs:31-33 | "/a" can be outside command mode (the `/` was typed second) and "a" can be inside it (the `/` was deleted) |
| TerminalManager.FKeyArea | src/main.rs:58-71 | a function key names a region iff it is F1–F5, and it names the input line iff it is F4 |
| TerminalManager.FKeyAreaInjective | src/main.rs:58-66 | distinct function keys name distinct regions |
| TerminalManager.FocusLeft | src/main.rs:85-94 | `h` never enters or leaves the input line and always moves the other regions |
| TerminalManager.FocusRight | src/main.rs:95-104 | `l` never enters or leaves the input line and always moves the other regions |
| TerminalManager.FocusDown | src/main.rs:111-118 | `j` away from the menu never enters or leaves the input line and always moves |
| TerminalManager.FocusUp | src/main.rs:129-136 | `k` away from the menu never enters or leaves the input line and always moves |
| TerminalManager.LeftRightInverse | src/main.rs:85-104 | `h` and `l` undo each other on every region |
| TerminalManager.RightIsFourCycle | src/main.rs:95-104 | `l` cycles through Header, Navigation, Preview and Footer: all four are distinct and four steps return to the start |
| TerminalManager.DownUpFollowRightLeft | src/main.rs:105-138 | the `j` table equals the `l` table and the `k` table equals the `h` table |
| TerminalManager.Navigate | src/main.rs:83-141 | only focus and selection change; the input line is never entered or left; the selection moves only while Navigation has focus; the invariant is kept |
| TerminalManager.HandleNavigation | src/main.rs:83-141 | the in-place navigator agrees with `Navigate` |
| TerminalManager.MenuSelection | src/main.rs:105-127 | with Navigation focused, `j` and `k` with any modifiers keep focus and move the selection by one; `j` saturates at 5 and `k` does nothing at 0 |
| TerminalManager.NavigateUsesTables | src/main.rs:84-138 | `h` and `l` set focus by the left and right tables; `j` and `k` away from the menu set focus by the down and up tables; modifiers do not matter and nothing else changes |
| TerminalManager.LeftRightKeysUndo | src/main.rs:85-104 | pressing `h` then `l`, or `l` then `h`, gives back the state unchanged |
| TerminalManager.OtherKeysIgnored | src/main.rs:83-141 | keys other than h/l/j/k leave the state unchanged outside the input line |
| TerminalManager.Route | src/main.rs:72-79 | a key no earlier arm claims never moves focus into or out of the input line and never touches the dialog; it is logged only by Enter in the input line; outside the input line only focus and selection change; the invariant is kept |
| TerminalManager.HandleKey | src/main.rs:47-81 | the console stops iff the dialog shows and the key is `y`; the invariant is kept; focus reaches the input line from elsewhere only by F4, and F4 always reaches it |
| TerminalManager.HandleKeyEvent | src/main.rs:47-81 | the in-place dispatcher agrees with `HandleKey`, state and return value |
| TerminalManager.QuitRequest | src/main.rs:49-52 | Ctrl-Q (with any other modifiers) raises the dialog whatever has focus, returns false, and changes nothing else |
| TerminalManager.DialogAnswers | src/main.rs:53-57 | while the dialog shows, `y` with any modifiers stops the console and leaves the state unchanged; `n` with any modifiers closes the dialog and changes nothing else |
| TerminalManager.QuitThenCancel | src/main.rs:49-57 | Ctrl-Q (with any other modifiers) followed by `n` (with any modifiers) gives back exactly the state from before the request |
| TerminalManager.YesNoWithoutDialog | src/main.rs:53-79 | without the dialog, `y` and `n` are routed like any other key |
| TerminalManager.RoutesOtherKeys | src/main.rs:72-79 | a key that is not Ctrl-Q, not an F-key and not `y`/`n` answering the dialog goes to the line editor when the input region has focus and to the navigator otherwise, and never stops the console |
| TerminalManager.DialogDoesNotBlockRouting | src/main.rs:72-79 | while the dialog shows, keys other than Ctrl-Q, `y`, `n` and F-keys are still routed to the focused region |
| TerminalManager.FunctionKeys | src/main.rs:58-71 | F1–F5 focus Header, Navigation, Preview, Input and Footer from any state; other F-keys change nothing |
| TerminalManager.Replay | src/main.rs:36-40 | events are handled one by one until one returns true; the cursor bound and the invariant hold after any series |
| TerminalManager.ReplayAppend | src/main.rs:36-40 | replaying two series in a row equals replaying them joined |
| TerminalManager.SessionKeepsInvariant | src/main.rs:47-81 | from a fresh state, after any keys, the invariant holds |
| TerminalManager.InputReachedOnlyByF4 | src/main.rs:58-138 | a series of keys with no F4 never brings focus to the input line |
| TerminalManager.ReplayStopsOnlyOnYes | src/main.rs:53 | a series of keys with no `y` never stops the console |
| TerminalManager.TypingGoesToEditor | src/main.rs:72-74 | with the input line focused and no dialog, typed characters reach the line editor one by one |
| TerminalManager.SubmitTypedLine | src/core/input.rs:75-85 | typing a line into an empty input and pressing Enter logs exactly that line. The preview then shows the command's answer for a `/` line, or the echo of any other non-empty line. The line ends empty, outside command mode |
| TerminalManager.HelpScenario | src/core/input.rs:106-114 | from a fresh state, F4, "/help", Enter logs "/help", shows the help text, and leaves an empty line outside command mode |

## Left out

- Terminal management in `src/main.rs`: creating the manager, raw mode, the
  alternate screen, polling and reading events, drawing, and restoring the
  terminal on drop. All of this is I/O. `Replay` stands for the loop's
  handling of the events it reads.
- All rendering (`src/ui/*`, the image tools view): it builds widgets for a
  library that is not part of this model.
- Navigation submenus and the menu-driven preview table. The record in
  `src/core/app_state.rs` has no submenu state, so nothing in the source can
  be checked against them.
- The image tools state and handlers: a constant welcome text and unused code.
- Byte offsets: the source indexes the line by bytes and would panic on
  multi-byte characters. The model assumes one character per position.
- The terminal library's key and modifier types. They are abstracted as
  `Keys.KeyEvent`; modifiers other than CONTROL are lumped into one flag,
  which is all the handlers distinguish.
