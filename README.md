# Telegram feedback session — a Dafny model

This project models the Telegram side of the desktop application's remote
feedback step, as implemented in `src/rust/telegram/commands.rs`:

- the **feedback-session engine** of `start_telegram_listener`. It holds four
  pieces of state: the update `offset`, the set of selected options, the id of
  the message that owns the inline keyboard, and the user's last free text. It
  also has the fixed `has_options` flag. It handles each batch of updates in
  arrival order, routes callback queries (toggle, Enhance, Continue, Send) and
  plain messages (keyboard ownership, Send/Continue commands, text), and backs
  off after a failed poll;
- the **chat-id detection loop** spawned by `auto_get_chat_id`;
- the **start-up checks** of `start_telegram_sync` and the rule that picks the
  API endpoint from the configured base URL.

Layout:

| file | module | contents |
|---|---|---|
| `wrappers.dfy` | `Wrappers` | `Option`, `Result` |
| `keyboard.dfy` | `Keyboard` | buttons and keyboards, the `toggle:` marker scan |
| `updates.dfy` | `Updates` | incoming updates, front-end events, the outbound `Action` trace, the Enhance prompt |
| `listener.dfy` | `Listener` | the session as a pure state machine: `Step`, `Run`, `Poll`, `Listen` |
| `listener_properties.dfy` | `ListenerProperties` | what the state machine guarantees |
| `session.dfy` | `ListenerSession` | class `Session`: the listener's in-place updates, each method proved equal to the pure machine |
| `chat_id.dfy` | `ChatIdDetection` | the detection loop and its specification |
| `startup.dfy` | `SyncStartup` | enable and blank checks, API-URL selection, `str::trim` |

Some helpers are called but their code is not part of this model:
`handle_callback_query`, `handle_text_message`, `build_feedback_message`,
`update_inline_keyboard`, `send_message` and the rest of `TelegramCore`. What
the two classifiers return is carried inside each `Update`. The effects of the
other helpers are recorded, in order, as a trace of `Action`s:
- `Emit(event)`: an event sent to the front end;
- `SendFeedback(selected, input, isContinue)`: the arguments given to `build_feedback_message`, then sent;
- `SendText`: any other message sent to the chat;
- `EditKeyboard`: an inline-keyboard edit;
- `GetUpdates(offset, timeout)`: a long poll;
- `Pause(ms)`: a sleep.

Four behaviours of the code are worth knowing before reading the contracts:

- Only the callback path is first-write-wins for the keyboard owner
  (commands.rs:316). The plain-message path overwrites an owner that is
  already known (commands.rs:433-435). `MessageOverwritesOwner` shows this.
- A toggled option is never checked against the predefined options
  (commands.rs:330-338), so an option that was never offered is added to the
  selection. `UnknownOptionAccepted` shows this. The invariant proved about
  the session is `Listener.Consistent`.
- The offset is set to `id + 1` for each update in turn (commands.rs:310), so
  after a batch it is the last update's id + 1, not the largest id + 1. The
  two agree when ids ascend (`RunOffset`, `OffsetNeverDecreases`,
  `ListenOffsetNeverDecreases`).
- The bootstrap fetch asks for at most ten updates (commands.rs:299). With
  more than ten pending, the ones past the tenth lie at or past the bootstrap
  offset, so the first poll of the loop returns them and they are handled
  (`BootstrapReplaysBeyondLimit`).

## Model

| member | source | states |
|---|---|---|
| Keyboard.ScanKeyboard | src/rust/telegram/commands.rs:416-431 | the nested scan with early exits returns true exactly when some button in some row has callback data starting with `toggle:` |
| Keyboard.ToggleDataRecognised | src/rust/telegram/commands.rs:421-424 | a button carrying `toggle:<option>` makes the keyboard count as ours, whatever the option |
| Updates.EnhancePromptRoundTrip | src/rust/telegram/commands.rs:364-377 | the Enhance prompt is the fixed instruction followed by the input between 《 and 》, and the input can be read back from it unchanged |
| Updates.EnhancePromptInjective | src/rust/telegram/commands.rs:364-377 | two inputs give the same Enhance prompt only if they are equal |
| Listener.BootstrapOffset | src/rust/telegram/commands.rs:298-303 | the bootstrap offset is 0 exactly when the fetch failed or returned no update, and is always within `i32` range |
| Listener.BootstrapFetch | src/rust/telegram/commands.rs:299 | the bootstrap fetch returns the oldest pending updates, at most ten of them |
| Listener.Initial | src/rust/telegram/commands.rs:289-303 | a fresh session (offset from the bootstrap fetch, nothing selected, no owner, empty input) satisfies the session invariant |
| Listener.Toggle | src/rust/telegram/commands.rs:332-338 | toggling flips the membership of that one option and leaves every other option as it was |
| Listener.OnCallback | src/rust/telegram/commands.rs:327-409 | handling a classified callback never changes the offset, the owner or the input, and only appends to the trace |
| Listener.OnTextEvent | src/rust/telegram/commands.rs:447-482 | handling a message event never changes the offset, the owner or the selection; the input changes only on TextUpdated, to its text; it always ends by emitting that event, and for TextUpdated that emit is the only action |
| Listener.Step | src/rust/telegram/commands.rs:309-488 | one update sets the offset to its id + 1; the input changes only on TextUpdated, to its text; the selection changes only on a toggle with options, by that toggle; the trace only grows; the session invariant is kept |
| Listener.Run | src/rust/telegram/commands.rs:309-489 | a batch, handled in arrival order, only appends to the trace and keeps the session invariant (offset within `i32` range, an owner only with options, nothing selected without options) |
| Listener.Poll | src/rust/telegram/commands.rs:307-497 | every round first polls from the current offset with a 10 s timeout and ends with the 1 s pause; it only appends to the trace and keeps the session invariant |
| Listener.Listen | src/rust/telegram/commands.rs:306-498 | any finite stretch of the polling loop keeps the session invariant and appends at least a poll and a pause per round |
| ListenerProperties.BootstrapSkipsBacklog | src/rust/telegram/commands.rs:298-303 | with ids in delivery order, the bootstrap offset lies past every update the bootstrap fetch returned, so none of those is handled |
| ListenerProperties.BootstrapReplaysBeyondLimit | src/rust/telegram/commands.rs:298-303 | with more than ten updates pending, every one past the tenth has an id at or past the bootstrap offset, so the loop's first poll returns it |
| ListenerProperties.RunOffset | src/rust/telegram/commands.rs:309-310 | after a batch the offset is the last update's id + 1; an empty batch leaves it unchanged |
| ListenerProperties.OffsetNeverDecreases | src/rust/telegram/commands.rs:309-310 | for ids in delivery order, at or past the polled offset, the offset never moves back while a batch is handled |
| ListenerProperties.PollOffset | src/rust/telegram/commands.rs:307-310 | a successful round ends at the batch's last id + 1, or at the old offset for an empty batch |
| ListenerProperties.FailedPollKeepsSession | src/rust/telegram/commands.rs:491-497 | a failed poll changes no session variable; it only traces the poll, the 5 s back-off and the 1 s pause |
| ListenerProperties.RepeatedFailures | src/rust/telegram/commands.rs:306-498 | n failed polls in a row leave the session unchanged and trace n back-off rounds, all polling from the same offset |
| ListenerProperties.RetryReusesOffset | src/rust/telegram/commands.rs:307 | the poll after any run of failures asks for the offset held before them |
| ListenerProperties.ListenOffsetNeverDecreases | src/rust/telegram/commands.rs:306-310 | when every successful batch has ids in delivery order at or past the offset it was polled with, the offset never moves back from one round to a later one, failed rounds included |
| ListenerProperties.NoOptionsNoKeyboard | src/rust/telegram/commands.rs:296 | a session started without options never records a keyboard owner and never selects anything |
| ListenerProperties.ToggleStep | src/rust/telegram/commands.rs:328-358 | with options, a toggle flips that option, emits OptionToggled with the membership after the flip, and edits the keyboard (with all options and the new selection) only when the owner is known |
| ListenerProperties.ToggleWithoutOptionsInert | src/rust/telegram/commands.rs:329-330 | without options a toggle callback changes nothing but the offset and emits nothing |
| ListenerProperties.ToggleTwiceRestores | src/rust/telegram/commands.rs:332-338 | toggling the same option twice restores the selection |
| ListenerProperties.UnknownOptionAccepted | src/rust/telegram/commands.rs:330-338 | an option that was never offered is added by a toggle and reported as selected |
| ListenerProperties.CallbackOwnerFirstWriteWins | src/rust/telegram/commands.rs:315-318 | on the callback path an owner, once known, is never replaced |
| ListenerProperties.CallbackOwnerRecorded | src/rust/telegram/commands.rs:315-318 | with no owner yet, a callback records its message as owner if there are options, and records nothing otherwise |
| ListenerProperties.MessageClaimsOwnership | src/rust/telegram/commands.rs:414-436 | a plain message becomes the owner exactly when there are options and its keyboard holds a `toggle:` button; otherwise the owner is untouched |
| ListenerProperties.MessageOverwritesOwner | src/rust/telegram/commands.rs:433-435 | the message path replaces an owner that is already known |
| ListenerProperties.OwnerStableWithoutClaims | src/rust/telegram/commands.rs:315-318 | once known, the owner survives any batch that contains no claiming message |
| ListenerProperties.EditsTargetOwner | src/rust/telegram/commands.rs:348-358 | every keyboard edit targets the current owner, with all predefined options and the selection after the toggle |
| ListenerProperties.RunUserInput | src/rust/telegram/commands.rs:473-476 | after a batch, the input is the text of its last TextUpdated message |
| ListenerProperties.RunUserInputUntouched | src/rust/telegram/commands.rs:473-476 | a batch without TextUpdated messages leaves the input unchanged |
| ListenerProperties.IgnoredUpdateOnlyAdvances | src/rust/telegram/commands.rs:309-486 | an update of another kind, a callback the classifier returns nothing for, or a message with no event only advances the offset (and may record the keyboard owner); nothing is sent, emitted or changed otherwise; another kind does not even touch the owner |
| ListenerProperties.TextUpdateOnlyRecords | src/rust/telegram/commands.rs:473-481 | a TextUpdated message stores its text and emits it, and sends nothing to the chat |
| ListenerProperties.SendUsesCurrentState | src/rust/telegram/commands.rs:396-408 | Send (button or command) builds feedback from the current selection and input with `false`, emits SendPressed, and changes neither |
| ListenerProperties.ContinueIgnoresState | src/rust/telegram/commands.rs:385-395 | Continue (button or command) always passes an empty list, `""` and `true`, whatever the session holds, and changes neither the selection nor the input |
| ListenerProperties.EnhanceEmbedsInput | src/rust/telegram/commands.rs:361-384 | Enhance posts the acknowledgement with the current input, then emits EnhancePressed with the prompt built from that input; selection and input are unchanged |
| ListenerProperties.YesConfirmedScenario | src/rust/telegram/commands.rs:306-498 | options Yes/No: toggling Yes, typing "confirmed" and pressing Send emits OptionToggled(Yes, true), edits the keyboard, emits TextUpdated and sends feedback with {Yes} and "confirmed" |
| ListenerSession.Session.constructor | src/rust/telegram/commands.rs:289-303 | the session variables start empty, the offset comes from the bootstrap fetch, and the invariant holds |
| ListenerSession.Session.HandleCallbackResult | src/rust/telegram/commands.rs:327-409 | the in-place set insert/remove and trace appends equal the pure `OnCallback` |
| ListenerSession.Session.HandleTextEvent | src/rust/telegram/commands.rs:447-482 | the in-place handling of a message event equals the pure `OnTextEvent` |
| ListenerSession.Session.ProcessUpdate | src/rust/telegram/commands.rs:310-488 | handling one update in place equals `Step` and keeps the invariant |
| ListenerSession.Session.ProcessBatch | src/rust/telegram/commands.rs:309-489 | the `for update in updates` loop equals `Run` over the batch, in order |
| ListenerSession.Session.PollOnce | src/rust/telegram/commands.rs:307-497 | one round of the loop equals `Poll` |
| ListenerSession.Session.Listen | src/rust/telegram/commands.rs:306-498 | any number of rounds of the endless loop equals `Listen` |
| ChatIdDetection.InfoOf | src/rust/telegram/commands.rs:107-120 | an absent title, username or text is reported as "私聊", "未知用户" or ""; present values and the chat id pass through |
| ChatIdDetection.FirstMessage | src/rust/telegram/commands.rs:105-106 | finds a message-kind update exactly when the batch has one, ignoring other kinds |
| ChatIdDetection.FirstMessageAt | src/rust/telegram/commands.rs:105-127 | the message reported is the first message-kind update of the batch |
| ChatIdDetection.ScanForMessage | src/rust/telegram/commands.rs:105-128 | the scan over a batch returns the first message-kind update |
| ChatIdDetection.DetectFrom | src/rust/telegram/commands.rs:99-145 | the loop from a given iteration makes at least one and at most 30 polls in all and emits exactly one event |
| ChatIdDetection.DetectFromOutcome | src/rust/telegram/commands.rs:102-142 | the loop stops at the first poll that returned a message and reports that message's chat; it emits the timeout only after poll 30, when no poll returned a message |
| ChatIdDetection.TimeoutIffNoMessage | src/rust/telegram/commands.rs:135-142 | the timeout event is emitted exactly when none of the 30 polls returned a message |
| ChatIdDetection.AutoGetChatId | src/rust/telegram/commands.rs:91-145 | the loop, counting failed polls as iterations, emits the start event and then exactly what `DetectFrom` says, after between 1 and 30 polls |
| SyncStartup.ApiUrlOption | src/rust/telegram/commands.rs:216-220 | the custom URL option is None exactly when the configured URL equals the default base URL, and is the configured URL otherwise (same rule at :60-64 and :277-281) |
| SyncStartup.ApiUrlOptionKeepsEndpoint | src/rust/telegram/commands.rs:60-64 | whatever the configured URL, the bot ends up talking to that URL |
| SyncStartup.ListenerApiUrl | src/rust/telegram/commands.rs:270-284 | the listener talks to the configured URL, or to the default when the application state is unavailable |
| SyncStartup.DetectionApiUrl | src/rust/telegram/commands.rs:80-89 | the detection bot uses the configured URL when it parses, and the default otherwise |
| SyncStartup.TrimStart | src/rust/telegram/commands.rs:202 | removing leading whitespace drops only whitespace and leaves a suffix of the string; the suffix is empty exactly when the string is all whitespace, and otherwise starts with a non-whitespace character |
| SyncStartup.TrimEnd | src/rust/telegram/commands.rs:202 | removing trailing whitespace drops only whitespace and leaves a prefix of the string; the prefix is empty exactly when the string is all whitespace, and otherwise ends with a non-whitespace character |
| SyncStartup.Trim | src/rust/telegram/commands.rs:202 | `str::trim` splits the string into whitespace, the result, and whitespace, and the result neither starts nor ends with whitespace |
| SyncStartup.TrimEmptyIffAllWhitespace | src/rust/telegram/commands.rs:202 | `trim().is_empty()` holds exactly for strings made only of Unicode whitespace |
| SyncStartup.StartTelegramSync | src/rust/telegram/commands.rs:198-259 | start-up performs a prefix of: create the core with the selected API URL, send the options message, pause, send the operation message, spawn the listener. Disabled: Ok with no action. Blank token or chat id: the incomplete-config error with no action. The listener is spawned, and Ok returned, exactly when core creation and both sends succeed |
| SyncStartup.BlankConfigRejected | src/rust/telegram/commands.rs:202-204 | start-up fails before doing anything exactly when it is enabled and the token or the chat id is all whitespace |

## Left out

- The Bot API calls (`get_updates`, `send_message`, `update_inline_keyboard`, `set_api_url`), `tokio::spawn` and the sleeps: network I/O and scheduling. Polls are inputs. The listener's sends, edits and sleeps are entries of its `Action` trace.
- The detection loop's one-second sleep between polls (commands.rs:144): `Detection` records only the emitted events and the number of polls, not the timing.
- `handle_callback_query`, `handle_text_message`, `build_feedback_message`, `TelegramCore` (keyboard rendering, message text formats): not part of this model. Their results are fields of `Update`, and their arguments are kept in the trace.
- The order of the selected-options list: `selected_options.iter()` yields HashSet order, so the trace carries the set.
- The bootstrap `get_updates` call (commands.rs:299) is not in the trace: `Initial` starts with an empty trace and takes the call's result as the `fetched` parameter.
- `Listener.Initial` and `Session.constructor`: accept a fetched batch of any length. The Bot API returns at most ten for `.limit(10)`; `BootstrapFetch` models that bound for the backlog properties.
- The endless `loop` of the listener: `Listen` covers any finite number of rounds, not the infinite run.
- Update ids of 2^31 − 1 and above: `update.id.0 as i32 + 1` would wrap. Ids are assumed below that bound (type `UpdateId`).
- `ChatIdDetection.AutoGetChatId`: requires at least 30 poll outcomes, one per possible iteration. The model has no other way for the environment to answer every poll.
- The chat id's decimal rendering (`to_string`) in the detected-chat payload: the model keeps the integer.
- Failures of `app_handle.emit` and the `log_important!` diagnostics: the code ignores them, so they do not change behaviour.
- `get_telegram_config`, `set_telegram_config`, `save_config` and the mutex around the configuration: configuration access and persistence. The lock-failure errors are left out with them.
- `send_telegram_message` and `send_telegram_message_with_markdown`: thin wrappers around `TelegramCore`.
- The listener's own `TelegramCore` creation failure (commands.rs:286-287): it ends the spawned task before any session state exists.
- `reqwest::Url::parse`: reduced to a boolean in `DetectionApiUrl`.
- `telegram_constants::API_BASE_URL` is defined outside this model. It is taken to be the Bot API's standard base URL. No proved property depends on its value.
- `src/rust/ui/window.rs`: window plumbing over floating-point sizes.
