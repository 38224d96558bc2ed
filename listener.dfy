/**
 * The feedback-session engine of `start_telegram_listener` as a pure state
 * machine: `Step` handles one update, `Run` one batch, `Poll` one round of
 * the polling loop and `Listen` any finite prefix of that endless loop.
 */
module Listener {
  import opened Wrappers
  import opened Keyboard
  import opened Updates

  /** Long-poll timeout passed to `get_updates` in the loop. */
  const PollTimeoutSecs: nat := 10
  /** Sleep after a failed poll. */
  const BackoffMillis: nat := 5000
  /** Sleep at the end of every round. */
  const PollDelayMillis: nat := 1000

  /** The listener's local variables, plus the trace of what it has done. */
  datatype State = State(
    offset: int,
    selected: set<string>,
    optionsMessageId: Option<MessageId>,
    userInput: string,
    trace: seq<Action>)

  /** Outcome of one `get_updates` call; transport errors all look alike. */
  datatype PollResult = PollFailed | PollOk(updates: seq<Update>)

  /** `has_options`: the session was started with predefined options. */
  predicate HasOptions(options: seq<string>) {
    |options| > 0
  }

  /** What every reachable state satisfies. */
  predicate Consistent(options: seq<string>, s: State) {
    && 0 <= s.offset <= MaxI32
    && (s.optionsMessageId.Some? ==> HasOptions(options))
    && (!HasOptions(options) ==> s.selected == {})
  }

  /** Update ids in the order the Bot API delivers them. */
  predicate Ascending(us: seq<Update>) {
    forall i, j :: 0 <= i < j < |us| ==> us[i].id <= us[j].id
  }

  /** Pending updates as the Bot API keeps them: each id issued once, in increasing order. */
  predicate StrictlyAscending(us: seq<Update>) {
    forall i, j :: 0 <= i < j < |us| ==> us[i].id < us[j].id
  }

  /** The `limit` of the bootstrap `get_updates` call. */
  const BootstrapLimit: nat := 10

  /** What `get_updates().limit(10)` without an offset returns: the oldest pending updates, at most ten. */
  function BootstrapFetch(pending: seq<Update>): (r: seq<Update>)
    ensures r <= pending
    ensures |r| == if |pending| < BootstrapLimit then |pending| else BootstrapLimit
  {
    if |pending| < BootstrapLimit then pending else pending[..BootstrapLimit]
  }

  /**
   * The offset found by the bootstrap fetch (`None`: it failed): 0 exactly
   * when nothing was fetched, and always within `i32` range.
   */
  function BootstrapOffset(fetched: Option<seq<Update>>): (r: int)
    ensures 0 <= r <= MaxI32
    ensures r == 0 <==> fetched.None? || fetched.value == []
  {
    if fetched.Some? && |fetched.value| > 0
    then fetched.value[|fetched.value| - 1].id + 1
    else 0
  }

  /** The session right after the bootstrap fetch. */
  function Initial(options: seq<string>, fetched: Option<seq<Update>>): (s: State)
    ensures Consistent(options, s)
  {
    State(BootstrapOffset(fetched), {}, None, "", [])
  }

  /** Flips the membership of `option`. */
  function Toggle(selected: set<string>, option: string): (r: set<string>)
    ensures option in r <==> option !in selected
    ensures forall o :: o != option ==> (o in r <==> o in selected)
  {
    if option in selected then selected - {option} else selected + {option}
  }

  /** The toggled option of a callback update, if that is what it is. */
  function ToggleOf(u: Update): Option<string> {
    match u.kind
    case CallbackQuery(_, Some(OptionToggledResult(o))) => Some(o)
    case _ => None
  }

  /** The text of a TextUpdated message, if that is what it is. */
  function TextOf(u: Update): Option<string> {
    match u.kind
    case Message(_, _, Some(TextUpdated(t))) => Some(t)
    case _ => None
  }

  /** Send pressed, by button or by typed command. */
  predicate IsSend(u: Update) {
    (u.kind.CallbackQuery? && u.kind.result == Some(SendPressedResult))
    || (u.kind.Message? && u.kind.event == Some(SendPressed))
  }

  /** Continue pressed, by button or by typed command. */
  predicate IsContinue(u: Update) {
    (u.kind.CallbackQuery? && u.kind.result == Some(ContinuePressedResult))
    || (u.kind.Message? && u.kind.event == Some(ContinuePressed))
  }

  /** Enhance pressed on the keyboard. */
  predicate IsEnhance(u: Update) {
    u.kind.CallbackQuery? && u.kind.result == Some(EnhancePressedResult)
  }

  /** The feedback for Send: built from the current selection and input. */
  function SendFeedbackOf(s: State): Action {
    SendFeedback(s.selected, s.userInput, false)
  }

  /** The feedback for Continue: always empty and flagged as continue. */
  const ContinueFeedback: Action := SendFeedback({}, "", true)

  /** Reaction to a classified callback query. */
  function OnCallback(options: seq<string>, s: State, result: CallbackQueryResult): (r: State)
    ensures r.offset == s.offset && r.optionsMessageId == s.optionsMessageId && r.userInput == s.userInput
    ensures s.trace <= r.trace
  {
    match result
    case OptionToggledResult(o) =>
      if !HasOptions(options) then s
      else
        var selected := Toggle(s.selected, o);
        var edit := if s.optionsMessageId.Some?
                    then [EditKeyboard(s.optionsMessageId.value, options, selected)]
                    else [];
        s.(selected := selected, trace := s.trace + [Emit(OptionToggled(o, o in selected))] + edit)
    case EnhancePressedResult =>
      s.(trace := s.trace + [SendText(EnhanceAck(s.userInput)), Emit(EnhancePressed(EnhancePrompt(s.userInput)))])
    case ContinuePressedResult =>
      s.(trace := s.trace + [ContinueFeedback, Emit(ContinuePressed)])
    case SendPressedResult =>
      s.(trace := s.trace + [SendFeedbackOf(s), Emit(SendPressed)])
  }

  /** Reaction to the event `handle_text_message` made of a message. */
  function OnTextEvent(s: State, e: TelegramEvent): (r: State)
    ensures r.offset == s.offset && r.optionsMessageId == s.optionsMessageId && r.selected == s.selected
    ensures r.userInput == if e.TextUpdated? then e.text else s.userInput
    ensures s.trace < r.trace && r.trace[|r.trace| - 1] == Emit(e)
    ensures e.TextUpdated? ==> r.trace == s.trace + [Emit(e)]
  {
    match e
    case SendPressed => s.(trace := s.trace + [SendFeedbackOf(s), Emit(e)])
    case ContinuePressed => s.(trace := s.trace + [ContinueFeedback, Emit(e)])
    case TextUpdated(t) => s.(userInput := t, trace := s.trace + [Emit(e)])
    case _ => s.(trace := s.trace + [Emit(e)])
  }

  /** One update of a batch. */
  function Step(options: seq<string>, s: State, u: Update): (r: State)
    ensures r.offset == u.id + 1
    ensures r.userInput == (if TextOf(u).Some? then TextOf(u).value else s.userInput)
    ensures r.selected == (if HasOptions(options) && ToggleOf(u).Some? then Toggle(s.selected, ToggleOf(u).value) else s.selected)
    ensures s.trace <= r.trace
    ensures Consistent(options, s) ==> Consistent(options, r)
  {
    var s1 := s.(offset := u.id + 1);
    match u.kind
    case CallbackQuery(message, result) =>
      var s2 := if message.Some? && s1.optionsMessageId.None? && HasOptions(options)
                then s1.(optionsMessageId := message)
                else s1;
      if result.Some? then OnCallback(options, s2, result.value) else s2
    case Message(id, markup, event) =>
      var s2 := if HasOptions(options) && markup.Some? && HasToggleButton(markup.value)
                then s1.(optionsMessageId := Some(id))
                else s1;
      if event.Some? then OnTextEvent(s2, event.value) else s2
    case OtherUpdate => s1
  }

  /** A batch, in the order the updates arrive: it only appends to the trace and keeps the invariant. */
  function Run(options: seq<string>, s: State, us: seq<Update>): (r: State)
    ensures s.trace <= r.trace
    ensures Consistent(options, s) ==> Consistent(options, r)
    decreases |us|
  {
    if us == [] then s else Step(options, Run(options, s, us[..|us| - 1]), us[|us| - 1])
  }

  /**
   * One round of the polling loop: poll from the current offset, handle the
   * batch or back off, then pause.
   */
  function Poll(options: seq<string>, s: State, p: PollResult): (r: State)
    ensures s.trace + [GetUpdates(s.offset, PollTimeoutSecs)] <= r.trace
    ensures |r.trace| >= |s.trace| + 2 && r.trace[|r.trace| - 1] == Pause(PollDelayMillis)
    ensures Consistent(options, s) ==> Consistent(options, r)
  {
    var s1 := s.(trace := s.trace + [GetUpdates(s.offset, PollTimeoutSecs)]);
    match p
    case PollFailed => s1.(trace := s1.trace + [Pause(BackoffMillis), Pause(PollDelayMillis)])
    case PollOk(us) =>
      var s2 := Run(options, s1, us);
      s2.(trace := s2.trace + [Pause(PollDelayMillis)])
  }

  /** The first `|ps|` rounds of the endless polling loop; each adds at least a poll and a pause. */
  function Listen(options: seq<string>, s: State, ps: seq<PollResult>): (r: State)
    ensures s.trace <= r.trace && |r.trace| >= |s.trace| + 2 * |ps|
    ensures Consistent(options, s) ==> Consistent(options, r)
    decreases |ps|
  {
    if ps == [] then s else Poll(options, Listen(options, s, ps[..|ps| - 1]), ps[|ps| - 1])
  }
}
