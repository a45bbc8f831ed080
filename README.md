# Chat session controller

A Dafny model of `ChatInterface` (`src/chat_interface.rs`), the controller
behind a terminal chat screen. It owns an input line, a mode (Normal or
Editing), the chat history, a quit flag and a `u16` scroll offset.

- `do_input` handles keys. In Normal mode it handles scrolling (Up/Down,
  saturating at 0 and 65535), `e` (start editing) and `q` (quit). In Editing
  mode it handles typing, Backspace, Esc and Enter. Enter commits a non-empty
  input to the history.
- `draw` clamps the scroll offset to the number of messages and numbers the
  history lines `i: message`. It then inserts or appends the synthetic line
  `...s messages above`.

Files:

- `decimal.dfy` (module `Decimal`) writes numbers in decimal, as `format!("{}", n)` does. It also reads them back, and proves that reading back gives the number written.
- `chat_interface.dfy` (module `Chat`) holds the model itself:
  - `Session` is the controller's state as a value.
  - `Step` is one key press and `Apply` is one terminal event.
  - `Loop` is the program's main loop over a key sequence: a `draw` clamp before each key, and a stop after a quit request.
  - `Render` is the part of `draw` that is not painting.
  - `ChatInterface` is a class with the source's fields. Its methods change those fields in place. They are proved equal to `Apply` and `Render` applied to the old state.
- `chat_properties.dfy` (module `ChatProperties`) proves the per-key rules, the properties of key sequences, and the layout rules of `Render`.

With an empty history the offset clamps to 0. Since `0 >= num_messages` holds (line 222), `draw` still appends `"...0 messages above\n"`, so the line sequence is never empty. `ChatProperties.EmptyHistoryOffsetSeven` states it.

## Model

| member | source | states |
|---|---|---|
| `Chat.ChatInterface.constructor` | src/chat_interface.rs:84-91 | a new controller has an empty input, Normal mode, an empty history, no quit request and offset 0 |
| `Chat.ChatInterface.DoInput` | src/chat_interface.rs:112-155 | the fields after one event are exactly what `Apply` gives for the old fields; an event that is not a key press changes nothing |
| `Chat.ChatInterface.CheckQuit` | src/chat_interface.rs:157-159 | reports the quit flag and changes nothing |
| `Chat.ChatInterface.Draw` | src/chat_interface.rs:161-231 | writes back the clamped offset and changes no other field; the returned tooltip, lines and scroll are those of `Render` of the old state |
| `Chat.ChatInterface.HandleInput` | src/chat_interface.rs:237-239 | appends the committed line as one history entry; nothing else changes |
| `Chat.ChatInterface.PushMessage` | src/chat_interface.rs:241-243 | appends the message verbatim in either mode; no other field changes |
| `Chat.Step` | src/chat_interface.rs:114-152 | one key press changes at most one part of the session: the mode alone, the quit flag alone (only ever to true), the offset alone (by at most one), or the input alone; a commit empties a non-empty input and appends it to the history. The per-key rules are stated by the `ChatProperties.Normal*` and `ChatProperties.Editing*` lemmas |
| `Chat.Apply` | src/chat_interface.rs:113 | a key event is one `Step` on its key code, and any other event leaves the session unchanged; `Chat.ChatInterface.DoInput` is proved equal to it |
| `Chat.Run` | src/chat_interface.rs:112-155 | the session after consecutive `do_input` calls with no `draw` between them; what key sequences can and cannot do is stated by `ChatProperties.HistoryOnlyGrows`, `QuitIsSticky`, `DownsSaturate`, `UpsSaturate` and `TypingAppends` |
| `Chat.LoopStep` | src/main.rs:12-13 | one round of the main loop: the `draw` clamp writes the offset back, then `do_input` handles the key; `ChatProperties.LoopStepEffect` states what it does |
| `Chat.Loop` | src/main.rs:11-18 | the session after the main loop has handled a key sequence, with the `draw` clamp before every `do_input`, ending after the first key that leaves a quit request (the `check_quit` break); `ChatProperties.LoopStepEffect`, `LoopOffsetBound`, `LoopWithoutDownIsRun` and `DrawBetweenKeysClamps` state what it does |
| `Chat.Tooltip` | src/chat_interface.rs:50-74 | the Normal hint and the Editing hint, each the text of its spans run together; `Chat.Render` selects it by mode (lines 168-171) |
| `Chat.Line` | src/chat_interface.rs:200-206 | the line of entry `i` is the decimal `i`, then `": "`, the message and `"\n"`; `Chat.MessageLines` and `ChatProperties.MarkerIsNotALine` state its properties |
| `Chat.Marker` | src/chat_interface.rs:217-225 | the synthetic line is `"..."`, the decimal offset, then `" messages above\n"`; `ChatProperties.MarkerIsNotALine` keeps it apart from message lines |
| `Chat.NumMessages` | src/chat_interface.rs:209-212 | the history length when it fits in a `u16`, and 0 otherwise; `Chat.Render` states the resulting clamp |
| `Chat.Render` | src/chat_interface.rs:168-231 | offset = min(old offset, N), where N is the history length if it is at most 65535 and 0 otherwise; the offset never exceeds the history length; the tooltip follows the mode; the cursor shows only in Editing; every history line `i` keeps its text and order, shifted by one at or after an inserted marker; a marker is present unless offset = 0 < N, and it sits at the offset or at the end |
| `Chat.MessageLines` | src/chat_interface.rs:196-207 | one line per history entry, and line `i` is the decimal `i`, then `": "`, the message and `"\n"` |
| `Chat.LinesFrom` | src/chat_interface.rs:196-207 | the enumerated lines are as many as the history entries |
| `Chat.LinesFromAt` | src/chat_interface.rs:199-206 | the line at position `i` carries index `first + i` and entry `i` |
| `Chat.Min` | src/chat_interface.rs:213 | the minimum is at most both arguments and equal to one of them |
| `Decimal.Show` | src/chat_interface.rs:202 | a numeral is non-empty, all digits, and has no leading zero except `"0"` itself |
| `Decimal.ValueOfShow` | src/chat_interface.rs:202 | reading a numeral back gives the number it was written from |
| `Decimal.ShowInjective` | src/chat_interface.rs:202 | distinct indices are written as distinct numerals; `ChatProperties.LineDetermines` uses it to read an index back from its line |
| `ChatProperties.NormalUp` | src/chat_interface.rs:122-126 | Up in Normal lowers the offset by exactly 1 when positive, leaves it at 0 otherwise, and changes nothing else |
| `ChatProperties.NormalDown` | src/chat_interface.rs:127-131 | Down in Normal raises the offset by exactly 1 below 65535, keeps it at 65535, and changes nothing else |
| `ChatProperties.NormalStartEditing` | src/chat_interface.rs:116-118 | `e` in Normal switches to Editing and changes nothing else |
| `ChatProperties.NormalQuit` | src/chat_interface.rs:119-121 | `q` in Normal sets the quit flag and changes nothing else |
| `ChatProperties.NormalOtherKeys` | src/chat_interface.rs:132 | every other key in Normal leaves the whole state unchanged, including printable characters, Enter, Backspace and Esc |
| `ChatProperties.EditingEnter` | src/chat_interface.rs:135-140 | Enter with an empty input changes nothing; with a non-empty input it appends exactly that input to the history and empties the input; the mode stays Editing |
| `ChatProperties.EditingChar` | src/chat_interface.rs:141-143 | any character, `q` and `e` included, is appended to the input and changes nothing else |
| `ChatProperties.EditingBackspace` | src/chat_interface.rs:144-146 | Backspace removes exactly the last character, or does nothing when the input is empty |
| `ChatProperties.EditingEsc` | src/chat_interface.rs:147-149 | Esc returns to Normal and keeps the input |
| `ChatProperties.EditingOtherKeys` | src/chat_interface.rs:150 | Up, Down and the other keys do nothing in Editing mode |
| `ChatProperties.EscThenEditKeepsInput` | src/chat_interface.rs:116-149 | Esc then `e` returns to the same state, so the input survives leaving and re-entering Editing |
| `ChatProperties.StepHistory` | src/chat_interface.rs:135-140 | a key press leaves the history alone, or appends the non-empty input as its single new entry, and only Enter in Editing does so |
| `ChatProperties.StepQuit` | src/chat_interface.rs:119-121 | only `q` in Normal sets the quit flag, and no key clears it |
| `ChatProperties.HistoryOnlyGrows` | src/chat_interface.rs:135-140 | after any key sequence the old history is a prefix of the new one, it grew by at most one entry per key, and no new entry is empty |
| `ChatProperties.QuitIsSticky` | src/chat_interface.rs:119-121 | once set, the quit flag stays set whatever keys follow |
| `ChatProperties.DownsSaturate` | src/chat_interface.rs:127-131 | n presses of Down in Normal give min(offset + n, 65535) and change nothing else |
| `ChatProperties.UpsSaturate` | src/chat_interface.rs:122-126 | n presses of Up in Normal give max(offset - n, 0) and change nothing else |
| `ChatProperties.TypingAppends` | src/chat_interface.rs:141-143 | typing any text in Editing appends it to the input and changes nothing else, so no character quits, scrolls or commits |
| `ChatProperties.WelcomeScenario` | src/main.rs:9-13 | after the welcome message, `e`, `h`, `i`, Enter, `q` give history [welcome, "hi"], input "q", mode Editing and no quit, both as consecutive key presses and through the main loop with its draws |
| `ChatProperties.StepIgnoresOffset` | src/chat_interface.rs:114-152 | a key does the same to the session whatever the offset, apart from the offset itself |
| `ChatProperties.LoopStepEffect` | src/main.rs:11-13 | one round of the main loop does what the key alone does to every field but the offset, and leaves the offset at most the clamped one plus 1, so at most the history length plus 1 |
| `ChatProperties.LoopOffsetBound` | src/main.rs:11-13 | starting within one past the history, the offset stays within one past the history through any key sequence of the main loop, and the history only grows |
| `ChatProperties.LoopEndsAtQuit` | src/main.rs:14-17 | once a round leaves a quit request, the loop handles no further key |
| `ChatProperties.LoopWithoutDownIsRun` | src/main.rs:11-13 | at offset 0, with no Down key and no quit request, the draws between keys change nothing: the main loop ends where the keys alone lead, at offset 0 |
| `ChatProperties.DrawBetweenKeysClamps` | src/main.rs:11-13 | with one message, three Downs give offset 3 with no draws between them but 2 in the main loop, because `draw` clamps the offset to 1 before each key |
| `ChatProperties.MessageLinesAppend` | src/chat_interface.rs:196-207 | appending a message adds exactly one line and renumbers none of the earlier ones |
| `ChatProperties.LineDetermines` | src/chat_interface.rs:200-206 | equal display lines have the same index and the same message, so distinct entries never share a line |
| `ChatProperties.MarkerIsNotALine` | src/chat_interface.rs:217-225 | the synthetic line never equals a message line, since it carries no index |
| `ChatProperties.RenderLayout` | src/chat_interface.rs:213-227 | if 0 < s < N the marker is inserted at index s (N + 1 lines); if s >= N it is appended; if s = 0 < N the lines are exactly the indexed ones |
| `ChatProperties.RenderIdempotent` | src/chat_interface.rs:209-213 | a second draw after a draw leaves the offset and the whole render model unchanged |
| `ChatProperties.FiveMessagesOffsetThree` | src/chat_interface.rs:214-221 | with 5 messages and offset 3, `"...3 messages above\n"` sits at index 3 between the first three and the last two lines |
| `ChatProperties.EmptyHistoryOffsetSeven` | src/chat_interface.rs:222-226 | with no messages and offset 7 the offset clamps to 0; the only line is `"...0 messages above\n"` |
| `ChatProperties.TwoMessagesOffsetFive` | src/chat_interface.rs:222-226 | with 2 messages and offset 5 the offset clamps to 2 and `"...2 messages above\n"` follows both lines |

## Left out

- Terminal lifecycle (`new`'s raw mode, alternate screen and mouse capture; `init`; `dinit`): these are foreign terminal I/O, so only the field initialisation of `new` is modelled.
- The blocking `event::read()`: the event is a parameter of `DoInput`, and a read error (which `do_input` propagates with `?`) is not modelled.
- Key modifiers (Ctrl, Alt) are not modelled: `do_input` looks only at `key.code`, so the model has only key codes.
- Widget painting, the `layout!` rectangles, borders, titles, colours and the bold spans of the tooltips: these are calls into the tui crate. Each tooltip is the plain text of its spans run together.
- Chat.Render: gives the cursor only as shown or hidden (shown exactly in Editing mode). Its column depends on `unicode_width` and the layout rectangle, which are not part of this model.
- Draw errors from `terminal.draw` are not modelled; they are terminal I/O.
- `src/main.rs`: the terminal set-up, teardown and the `?` error exits of its loop are I/O glue. The loop itself (`draw`, then `do_input`, then the quit check) is modelled as `Chat.Loop`, and its welcome message appears in `ChatProperties.WelcomeScenario`.
- `main.go` and `go_src/main.go` (UDP multicast, goroutines, stdin prompts and the tui-go screen) are networked, concurrent I/O and are not part of this model.
- Strings are sequences of characters. `input.len() > 0` in the source measures UTF-8 bytes, which is non-zero exactly when the string is non-empty, so the two agree.
