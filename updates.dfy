/**
 * What the listener receives from the Bot API and what it does in return.
 * The helpers that classify an update (`handle_callback_query`,
 * `handle_text_message`) are not part of this model: their results are
 * carried inside the update. The outbound side effects (events to the front
 * end, messages, keyboard edits, sleeps, polls) are recorded as `Action`s.
 */
module Updates {
  import opened Wrappers
  import opened Keyboard

  /** `update.id.0 as i32 + 1` must stay within `i32`; ids are assumed below 2^31 - 1. */
  const MaxI32: int := 0x7fff_ffff

  type UpdateId = x: int | 0 <= x < MaxI32

  /** A Telegram message id (`i32`). */
  type MessageId = int

  /** The `CallbackQueryResult` that `handle_callback_query` returns on success. */
  datatype CallbackQueryResult =
    | OptionToggledResult(option: string)
    | EnhancePressedResult
    | ContinuePressedResult
    | SendPressedResult

  /** `TelegramEvent`, emitted to the front end as "telegram-event". */
  datatype TelegramEvent =
    | OptionToggled(option: string, selected: bool)
    | EnhancePressed(text: string)
    | ContinuePressed
    | SendPressed
    | TextUpdated(text: string)

  /**
   * The kind of one update. For a callback query: the id of the message its
   * button sits on (if any) and what `handle_callback_query` made of it
   * (`None` for both `Ok(None)` and `Err`). For a message: its id, its
   * inline keyboard (if any) and what `handle_text_message` made of it.
   */
  datatype UpdateKind =
    | CallbackQuery(message: Option<MessageId>, result: Option<CallbackQueryResult>)
    | Message(id: MessageId, replyMarkup: Option<Keyboard>, event: Option<TelegramEvent>)
    | OtherUpdate

  datatype Update = Update(id: UpdateId, kind: UpdateKind)

  /** The outbound effects of the listener, in the order it performs them. */
  datatype Action =
    | GetUpdates(offset: int, timeoutSecs: nat)
      /** `send_message(build_feedback_message(selected, input, isContinue))`; the list
          handed over is the selected set in hash order, so only its elements are kept. */
    | SendFeedback(selected: set<string>, input: string, isContinue: bool)
    | SendText(text: string)
    | EditKeyboard(messageId: MessageId, options: seq<string>, selected: set<string>)
    | Emit(event: TelegramEvent)
    | Pause(millis: nat)

  /** The instruction text that precedes the user's input in the enhance prompt. */
  const EnhancePreamble: string :=
    "Use the following prompt "
    + "to optimize and enhance "
    + "the context of the content "
    + "in 《》, and return the enhanced "
    + "result by calling the tool "
    + "'寸止' after completion.Here "
    + "is an instruction that I'd "
    + "like to give you, but it "
    + "needs to be improved. Rewrite "
    + "and enhance this instruction "
    + "to make it clearer, more "
    + "specific, less ambiguous, "
    + "and correct any mistakes. "
    + "Reply immediately with your "
    + "answer, even if you're not "
    + "sure. Consider the context "
    + "of our conversation history "
    + "when enhancing the prompt. "
    + "Reply with the following "
    + "format:\n"
    + "\n"
    + "### BEGIN RESPONSE ###\n"
    + "Here is an enhanced version "
    + "of the original instruction "
    + "that is more specific and "
    + "clear:\n"
    + "<augment-enhanced-prompt>enhanced "
    + "prompt goes here</augment-enhanced"
    + "-prompt>\n"
    + "\n"
    + "### END RESPONSE ###\n"
    + "\n"
    + "Here is my original instruction:\n"
    + "\n"

  /** `pre` followed by `input` between 《 and 》. */
  function Framed(pre: string, input: string): string {
    pre + "《" + input + "》"
  }

  /** The text between 《 and 》 after `pre`, if `p` has that shape. */
  function Unframed(pre: string, p: string): (r: Option<string>)
    ensures r.Some? ==> |r.value| + |pre| + 2 == |p|
  {
    var n := |pre| + 1;
    if |p| >= n + 1 && p[..n] == pre + "《" && p[|p| - 1] == '》'
    then Some(p[n..|p| - 1])
    else None
  }

  lemma UnframedFramed(pre: string, input: string)
    ensures Unframed(pre, Framed(pre, input)) == Some(input)
  {
    var p := Framed(pre, input);
    var n := |pre| + 1;
    assert p == (pre + "《") + (input + "》");
    assert p[..n] == pre + "《";
    assert p[n..|p| - 1] == input;
  }

  /** The prompt sent to the front end when Enhance is pressed: the input framed by 《 and 》. */
  function EnhancePrompt(input: string): string {
    Framed(EnhancePreamble, input)
  }

  /** The acknowledgement posted to the chat when Enhance is pressed. */
  function EnhanceAck(input: string): string {
    "✨ 增强请求已发送\n\n📝 原文：" + input
  }

  /** Recovers the framed input from an enhance prompt, if `p` is one. */
  function OriginalOf(p: string): Option<string> {
    Unframed(EnhancePreamble, p)
  }

  /** The enhance prompt embeds the current input verbatim: it can be read back. */
  lemma EnhancePromptRoundTrip(input: string)
    ensures OriginalOf(EnhancePrompt(input)) == Some(input)
  {
    UnframedFramed(EnhancePreamble, input);
  }

  /** Different inputs framed after the same text give different results. */
  lemma FramedInjective(pre: string, a: string, b: string)
    ensures Framed(pre, a) == Framed(pre, b) <==> a == b
  {
    if Framed(pre, a) == Framed(pre, b) {
      UnframedFramed(pre, a);
      UnframedFramed(pre, b);
    }
  }

  /** Different inputs give different prompts. */
  lemma EnhancePromptInjective(a: string, b: string)
    requires EnhancePrompt(a) == EnhancePrompt(b)
    ensures a == b
  {
    FramedInjective(EnhancePreamble, a, b);
  }
}
