# Mesop example apps: page-state handlers in Dafny

This project models the state-changing part of three small Mesop apps. In
each app an event handler reads or updates a page-state object.

- **DuoChat** (`duochat/`) sends one prompt to several Gemini models. The
  user picks the models in a dialog that edits a staging copy of the
  selection: Confirm commits the copy and Cancel drops it. A checkbox is
  disabled when its model's API key is missing. `send_prompt` opens one
  conversation per selected model on the first send. For each conversation
  in turn it appends the question and an in-progress placeholder. It then
  streams the model's chunks into the placeholder and marks it done. The
  first exception ends the whole send.
- **Starter kit** (`main.py`): `click_send` clears the prompt box, turns the
  spinner on, appends two fixed chunks to the output and turns the spinner
  off. An empty prompt does nothing.
- **Counter** (`counter.py`): one field, incremented on every click.

Modules:

- `Wrappers` holds `Option`.
- `Text` holds `+=`-accumulation of chunks (`Concat`) and ASCII `lower` and `startswith`.
- `DataModel` holds the records of `duochat/data_model.py` with their defaults. `ChatMessage` and `Conversation` are datatypes whose constructor parameters carry the dataclass defaults. `State` and `ModelDialogState` are classes.
- `DuoChat` holds the handlers of `duochat/main.py`.
- `StarterKit` models `main.py`.
- `Counter` models `counter.py`.

Each handler is a method that takes the state objects that `me.state(...)`
returns. It `modifies` only the fields it writes. The handlers that only
write a field or two (the dialog's open, close and confirm, the key and
prompt setters, and the example box) state those writes directly. The
handlers that do more are proved against a specification function:
`Dispatched`/`Turn` for `send_prompt`, `Toggled` for the checkbox handler,
`SendTrace` for `click_send` and `Clicked` for the counter. The lemmas state
the promised properties about those functions.

The model vendor is the parameter `vendor: Vendor`. It is a function from
(model name, prompt, history) to a `Reply`: the chunks in order, and whether
the stream then finishes (false means the iterator raised after those
chunks). Each `yield` of `send_prompt` is counted. Each `yield` of
`click_send` is recorded as a `Page` snapshot.

Any exception ends the whole send. The conversation being served keeps its
placeholder in progress, holding the chunks that arrived before the
exception, and the later conversations are not touched
(`UnknownModelStopsTheSend`, `PlaceholderStaysInProgress`,
`TwoModelsSecondRaises`).

## Model

| member | source | states |
|---|---|---|
| `DataModel.RoleOf` | duochat/data_model.py:8 | a role string is valid exactly when it is "user" or "model", and the role's value gives the string back |
| `DataModel.Defaults` | duochat/data_model.py:10-27 | `ChatMessage()` is role user, content "" and not in progress; `Conversation()` has model "" and no messages |
| `DataModel.Models.Value` | duochat/data_model.py:17-21 | every model id starts with "gemini" |
| `DataModel.ModelsOf` | duochat/data_model.py:17-21 | looking a model up by value finds a member with that value, or none when no member has it |
| `DataModel.ModelsValuesDistinct` | duochat/data_model.py:17-21 | the enumeration has three members; distinct members have distinct values, and lookup by value inverts `Value` |
| `DataModel.State.constructor` | duochat/data_model.py:29-37 | dialog closed, empty input, no conversations, no models, empty API keys |
| `DataModel.ModelDialogState.constructor` | duochat/data_model.py:39-42 | the staging list starts empty |
| `DuoChat.MembersAreGemini` | duochat/main.py:66-67 | every member's lower-cased name starts with "gemini" |
| `DuoChat.Disabled` | duochat/main.py:67-72 | a checkbox is disabled only when an API key is missing |
| `DuoChat.PickerOptions` | duochat/main.py:66-77 | one checkbox per member in declaration order; it is checked iff the member's value is in the committed selection, and disabled iff the Gemini key is empty, whatever the Claude key |
| `DuoChat.FirstIndex` | duochat/main.py:23 | the index found holds the key, and no earlier position does |
| `DuoChat.RemoveFirst` | duochat/main.py:23 | `list.remove` fails exactly when the key is absent; otherwise it drops exactly the first occurrence |
| `DuoChat.UncheckRemovesOne` | duochat/main.py:22-23 | unchecking a staged key removes exactly one copy of it |
| `DuoChat.CheckThenUncheck` | duochat/main.py:20-23 | checking then unchecking restores the staged multiset, and the exact list when the key was not staged before |
| `DuoChat.Toggled` | duochat/main.py:20-23 | a change fails exactly when it unchecks a key that is not staged; otherwise checking makes the staging list one longer and unchecking one shorter |
| `DuoChat.ChangeModelOption` | duochat/main.py:17-24 | checked appends the key at the end; unchecked removes its first occurrence, and fails leaving the list unchanged when the key is absent |
| `DuoChat.SwitchModel` | duochat/main.py:196-203 | opens the dialog and stages a copy of the selection; nothing else changes |
| `DuoChat.CloseModelPickerDialog` | duochat/main.py:91-96 | closes the dialog; the selection is unchanged and the staging list is ignored |
| `DuoChat.ConfirmModelPickerDialog` | duochat/main.py:99-107 | closes the dialog and makes the staging list the selection |
| `DuoChat.SetGeminiApiKey` | duochat/main.py:27-31 | sets the Gemini key to the blurred value and nothing else |
| `DuoChat.SetClaudeApiKey` | duochat/main.py:34-38 | sets the Claude key to the blurred value and nothing else |
| `DuoChat.OnBlur` | duochat/main.py:252-256 | sets the prompt to the blurred value and nothing else |
| `DuoChat.GeminiModelFor` | duochat/main.py:278-299 | a conversation's model id selects a Gemini call exactly when it is an enumeration value, and the name passed is that same id |
| `DuoChat.OpenConversations` | duochat/main.py:263-265 | a send has conversations to work on exactly when some are open or some model is selected; each is an open one or a fresh empty one |
| `DuoChat.Turn` | duochat/main.py:271-305 | a turn keeps the conversation's model and adds exactly two messages; it yields at least once, and at least twice when it finishes |
| `DuoChat.Dispatched` | duochat/main.py:270-305 | a send over at least one conversation yields at least once; a send in which no turn raises yields at least twice per conversation |
| `DuoChat.Join` | duochat/main.py:270-305 | the conversations already served come first, followed by the rest of the send, whose exception is the send's |
| `DuoChat.TurnAppendsTwoMessages` | duochat/main.py:270-305 | a turn keeps the earlier messages and appends two: the user's prompt, then a model message. That message holds the concatenated chunks and is done after a finished stream, and is still in progress when the turn raises. The vendor gets the pre-turn history. A finished turn yields once per chunk plus twice |
| `DuoChat.TurnFailures` | duochat/main.py:278-301 | an id outside the enumeration raises, whatever the key; a Gemini id with an empty key raises before any chunk. Either way the placeholder stays empty and in progress, after the one yield that follows it |
| `DuoChat.StreamedTurn` | duochat/main.py:278-305 | for a Gemini id with a key set, the model message holds the chunks the stream delivered for the pre-turn history, and stays in progress exactly when the stream raises after them. The turn yields once per chunk plus once, and once more when the stream finishes. A raising stream ends the turn with that model's error |
| `DuoChat.PartialAnswerIsPrefix` | duochat/main.py:301-303 | after any number of streamed chunks, the placeholder's text is a prefix of the text the model message ends with |
| `DuoChat.FirstFailure` | duochat/main.py:270-305 | the turns before the index found all finish, and the turn at it raises |
| `DuoChat.DispatchStep` | duochat/main.py:270-305 | a finished turn advances the loop without changing the send's outcome |
| `DuoChat.DispatchStop` | duochat/main.py:270-305 | a raising turn ends the send with the later conversations as they were |
| `DuoChat.ServeNext` | duochat/main.py:270-305 | one loop iteration either ends the send as `Dispatched` says, with the later conversations as they were, or serves the next conversation and leaves the rest of the send to the remaining iterations |
| `DuoChat.TakeTurn` | duochat/main.py:271-305 | one loop iteration changes only the current conversation, and leaves it as `Turn` says |
| `DuoChat.StartConversations` | duochat/main.py:263-265 | the first send's loop appends one empty conversation per selected model |
| `DuoChat.SendPrompt` | duochat/main.py:259-305 | the conversations, the exception and the yield count are those of the specification `Dispatched`, and the input box is emptied |
| `DuoChat.FirstSendOpensOnePerModel` | duochat/main.py:263-265 | with no conversations, the send opens exactly one empty conversation per selected model, in selection order |
| `DuoChat.LaterSendsIgnoreSelection` | duochat/main.py:263 | once conversations exist they are reused and the current selection is ignored |
| `DuoChat.DispatchInOrder` | duochat/main.py:270-305 | conversations are served in list order: all up to the first raising turn hold their turn, later ones are untouched, and the send reports that turn's exception or none |
| `DuoChat.DispatchKeepsLength` | duochat/main.py:270 | a send never adds or drops a conversation |
| `DuoChat.DispatchServesPrefix` | duochat/main.py:270-305 | every conversation up to and including the first raising one holds its turn |
| `DuoChat.DispatchLeavesRest` | duochat/main.py:270-305 | every conversation after the first raising one is left as it was |
| `DuoChat.DispatchReportsFailure` | duochat/main.py:270-305 | the send reports the exception of the first raising turn, or none when no turn raises |
| `DuoChat.EveryConversationAnswered` | duochat/main.py:270-304 | when nothing raises, every conversation gains exactly the prompt and a finished model message holding its concatenated chunks |
| `DuoChat.UnknownModelStopsTheSend` | duochat/main.py:278-299 | a model id outside the enumeration ends the send with an error; no later conversation is touched |
| `DuoChat.TurnKeepsAlternation` | duochat/main.py:273-275 | a turn, finished or not, keeps the user/model alternation of the messages |
| `DuoChat.SendKeepsAlternation` | duochat/main.py:270-275 | a send keeps every conversation alternating |
| `DuoChat.TurnSettles` | duochat/main.py:275-304 | from a conversation with nothing in progress, a turn leaves nothing in progress iff it does not raise; only its own last message can stay in progress |
| `DuoChat.PlaceholderStaysInProgress` | duochat/main.py:275-304 | a placeholder left by a raising turn is still in progress after the next turn, so two messages are in progress if that turn raises too |
| `DuoChat.HelloExample` | duochat/main.py:259-305 | one Gemini model answering "Hi" with "Hel", "lo" gives [user "Hi", model "Hello" done] after four yields |
| `DuoChat.TwoModelsSecondRaises` | duochat/main.py:259-305 | with two selected models, the first answering "a1" and the second raising after "b1": both conversations hold the question and the streamed text, the first done and the second still in progress, and the send reports the second model's error after five yields |
| `Text.Concat` | duochat/main.py:301-302 | the accumulated text is at least as long as the chunk appended last |
| `Text.ConcatAppend` | duochat/main.py:301-302 | appending chunks with `+=` over two runs gives the two texts one after the other |
| `Text.ConcatPrefix` | duochat/main.py:301-302 | the text streamed so far is a prefix of the final text |
| `StarterKit.ExamplesAreSendable` | main.py:5-9 | there are three example prompts, each non-empty, so sending one yields four snapshots |
| `StarterKit.CallApi` | main.py:164-171 | the stand-in model call yields two chunks, the second ending with the prompt |
| `StarterKit.Streaming` | main.py:158-160 | one snapshot per chunk, each with the prompt box cleared, the spinner on, and an output that extends the output the click found |
| `StarterKit.SendTrace` | main.py:147-162 | no snapshot for an empty prompt, four otherwise |
| `StarterKit.State.constructor` | main.py:12-18 | empty input, empty output, spinner off |
| `StarterKit.SendTraceShape` | main.py:147-171 | an empty prompt yields nothing and changes nothing. Otherwise there are four snapshots: spinner on and prompt cleared before the first chunk, spinner on until the last, and final output = old output + "Example of streaming an output" + "\n\nOutput: " + prompt with the spinner off |
| `StarterKit.OutputsOfSend` | main.py:153-171 | the outputs of the four snapshots: unchanged, plus the first chunk, plus both chunks, plus both with the spinner off |
| `StarterKit.OutputOnlyGrows` | main.py:158-159 | the output is never reset: each snapshot's output extends the previous one, starting from the output the click found |
| `StarterKit.StreamingStep` | main.py:158-160 | appending one more chunk adds exactly one snapshot |
| `StarterKit.ClickSend` | main.py:147-162 | the yielded snapshots are `SendTrace` of the state found, and the state ends as the last snapshot, or unchanged when nothing is yielded |
| `StarterKit.ClickExampleBox` | main.py:98-101 | the prompt becomes the clicked example, one of the three `EXAMPLES`, and nothing else changes |
| `StarterKit.TextareaOnBlur` | main.py:142-145 | the prompt becomes the blurred value and nothing else changes |
| `Counter.CounterState.constructor` | counter.py:4-7 | `clicks` starts at 0 |
| `Counter.Clicked` | counter.py:13 | a click strictly increases the count |
| `Counter.ClicksAfter` | counter.py:7-13 | a fresh counter clicked n times shows at least n (exactly n by `ClicksAfterCounts`) |
| `Counter.OnButtonClick` | counter.py:9-13 | one click adds exactly 1 to `clicks` |
| `Counter.ClicksAfterCounts` | counter.py:7-13 | a fresh counter clicked n times shows n |
| `Counter.ClicksNeverDecrease` | counter.py:7-13 | the count is never negative, never decreases, and every click increases it |

## Left out

- Rendering and layout are left out: `page`, `header`, `header_text`, `display_conversations`, `display_message`, `chat_input`, `output`, `footer`, `example_row`, `example_box`, `model_picker_dialog`'s widgets, styles and stylesheets. They call the UI framework and hold no state logic. Only the checked/disabled rule of the picker is modelled (`PickerOptions`).
- The Gemini client (`duochat/gemini.py`) is the opaque `vendor` parameter, apart from one case: it raises when the Gemini key is empty, and it does so when the stream is first read (`MissingGeminiKey`). The generation settings and the history translation are left out.
- The `claude` module and the `dialog` module are not part of this model. The Claude branch (duochat/main.py:296-297) can never run, because `Models` has no `CLAUDE_3_5_SONNET` member. Any id other than the three Gemini values raises there, with an AttributeError, before the DuoChatError of line 299. Both exceptions are modelled as the one failure `UnknownModel`.
- Exceptions are returned as values (`ok == false`, `failure`), not propagated. How the framework reports an exception to the user is left out.
- The framework's re-render at each `yield` is modelled only as a count (DuoChat) or a list of page snapshots (starter kit). Other events that could run while a handler's generator is suspended are not modelled.
- `time.sleep` in `call_api`, the `print` logging and `me.viewport_size` (which picks the mobile or desktop layout) are left out. `hello_world.py` renders static text and is left out.
- After Confirm, `state.models` and the staging list are the same Python list. This sharing is not modelled: the model copies the value. The sharing cannot be observed, because the dialog is closed then, so the checkbox handler cannot run until `switch_model` stages a fresh copy.
- Starter-kit state fields declared without defaults start as "", "" and false (the framework's defaults for `str` and `bool`). The model assumes these values.
- `Text.Lower`: models `str.lower` on ASCII letters only; the enumeration names it is applied to are ASCII.
