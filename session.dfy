/**
 * The listener as the Rust code runs it: one owner of mutable session
 * variables, updated in place update by update. Every method is tied to the
 * pure state machine of module `Listener`, whose properties are proved in
 * module `ListenerProperties`.
 */
module ListenerSession {
  import opened Wrappers
  import opened Keyboard
  import opened Updates
  import opened Listener

  class Session {
    const predefinedOptions: seq<string>
    const hasOptions: bool
    var offset: int
    var selectedOptions: set<string>
    var optionsMessageId: Option<MessageId>
    var userInput: string
    /** Everything sent, emitted, polled or slept so far, in order. */
    var trace: seq<Action>

    /** The session as a value of the pure model. */
    function View(): State
      reads this
    {
      State(offset, selectedOptions, optionsMessageId, userInput, trace)
    }

    ghost predicate Valid()
      reads this
    {
      hasOptions == HasOptions(predefinedOptions) && Consistent(predefinedOptions, View())
    }

    /**
     * Sets up the session variables and runs the bootstrap fetch, whose
     * outcome (`None` when it failed) is `fetched`.
     */
    constructor (options: seq<string>, fetched: Option<seq<Update>>)
      ensures Valid() && predefinedOptions == options
      ensures View() == Initial(options, fetched)
    {
      predefinedOptions := options;
      hasOptions := |options| > 0;
      offset := 0;
      selectedOptions := {};
      optionsMessageId := None;
      userInput := "";
      trace := [];
      new;
      if fetched.Some? && |fetched.value| > 0 {
        offset := fetched.value[|fetched.value| - 1].id + 1;
      }
    }

    /** The arms of `match result` for a classified callback query. */
    method HandleCallbackResult(result: CallbackQueryResult)
      requires Valid()
      modifies this
      ensures View() == OnCallback(predefinedOptions, old(View()), result)
    {
      match result {
        case OptionToggledResult(option) =>
          if hasOptions {
            var selected: bool;
            if option in selectedOptions {
              selectedOptions := selectedOptions - {option};
              selected := false;
            } else {
              selectedOptions := selectedOptions + {option};
              selected := true;
            }
            trace := trace + [Emit(OptionToggled(option, selected))];
            if optionsMessageId.Some? {
              trace := trace + [EditKeyboard(optionsMessageId.value, predefinedOptions, selectedOptions)];
            }
          }
        case EnhancePressedResult =>
          var enhancePrompt := EnhancePrompt(userInput);
          trace := trace + [SendText(EnhanceAck(userInput))];
          trace := trace + [Emit(EnhancePressed(enhancePrompt))];
        case ContinuePressedResult =>
          trace := trace + [ContinueFeedback];
          trace := trace + [Emit(ContinuePressed)];
        case SendPressedResult =>
          trace := trace + [SendFeedback(selectedOptions, userInput, false)];
          trace := trace + [Emit(SendPressed)];
      }
    }

    /** The arms of `match &event` for what `handle_text_message` returned. */
    method HandleTextEvent(event: TelegramEvent)
      modifies this
      ensures View() == OnTextEvent(old(View()), event)
    {
      match event {
        case SendPressed =>
          trace := trace + [SendFeedback(selectedOptions, userInput, false)];
        case ContinuePressed =>
          trace := trace + [ContinueFeedback];
        case TextUpdated(text) =>
          userInput := text;
        case _ =>
      }
      trace := trace + [Emit(event)];
    }

    /** The body of `for update in updates`. */
    method ProcessUpdate(u: Update)
      requires Valid()
      modifies this
      ensures Valid()
      ensures View() == Step(predefinedOptions, old(View()), u)
    {
      offset := u.id + 1;
      match u.kind {
        case CallbackQuery(message, result) =>
          if message.Some? && optionsMessageId.None? && hasOptions {
            optionsMessageId := message;
          }
          if result.Some? {
            HandleCallbackResult(result.value);
          }
        case Message(id, replyMarkup, event) =>
          if hasOptions && replyMarkup.Some? {
            var containsOurOptions := ScanKeyboard(replyMarkup.value);
            if containsOurOptions {
              optionsMessageId := Some(id);
            }
          }
          if event.Some? {
            HandleTextEvent(event.value);
          }
        case OtherUpdate =>
      }
    }

    /** One successful batch, strictly in the order it arrived. */
    method ProcessBatch(updates: seq<Update>)
      requires Valid()
      modifies this
      ensures Valid()
      ensures View() == Run(predefinedOptions, old(View()), updates)
    {
      var i := 0;
      while i < |updates|
        invariant 0 <= i <= |updates|
        invariant Valid()
        invariant View() == Run(predefinedOptions, old(View()), updates[..i])
      {
        assert updates[..i + 1][..i] == updates[..i];
        ProcessUpdate(updates[i]);
        i := i + 1;
      }
      assert updates[..i] == updates;
    }

    /** One round of the polling loop. */
    method PollOnce(p: PollResult)
      requires Valid()
      modifies this
      ensures Valid()
      ensures View() == Poll(predefinedOptions, old(View()), p)
    {
      trace := trace + [GetUpdates(offset, PollTimeoutSecs)];
      match p {
        case PollOk(updates) =>
          ProcessBatch(updates);
        case PollFailed =>
          trace := trace + [Pause(BackoffMillis)];
      }
      trace := trace + [Pause(PollDelayMillis)];
    }

    /** The first `|polls|` rounds of the endless polling loop. */
    method Listen(polls: seq<PollResult>)
      requires Valid()
      modifies this
      ensures Valid()
      ensures View() == Listener.Listen(predefinedOptions, old(View()), polls)
    {
      var i := 0;
      while i < |polls|
        invariant 0 <= i <= |polls|
        invariant Valid()
        invariant View() == Listener.Listen(predefinedOptions, old(View()), polls[..i])
      {
        assert polls[..i + 1][..i] == polls[..i];
        PollOnce(polls[i]);
        i := i + 1;
      }
      assert polls[..i] == polls;
    }
  }
}
