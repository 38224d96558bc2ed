/** What the listener's state machine guarantees, stated over `Step`, `Run`, `Poll` and `Listen`. */
module ListenerProperties {
  import opened Wrappers
  import opened Keyboard
  import opened Updates
  import opened Listener

  // ---------------------------------------------------------------- offset

  /** The bootstrap offset lies past every update the bootstrap fetch returned, so none of those is handled. */
  lemma BootstrapSkipsBacklog(fetched: seq<Update>)
    requires Ascending(fetched)
    ensures forall i :: 0 <= i < |fetched| ==> fetched[i].id < BootstrapOffset(Some(fetched))
  {
  }

  /**
   * With more than ten updates pending, the bootstrap offset lies at or before
   * every update past the tenth: the first poll of the loop returns those.
   */
  lemma BootstrapReplaysBeyondLimit(pending: seq<Update>, k: nat)
    requires StrictlyAscending(pending)
    requires BootstrapLimit <= k < |pending|
    ensures BootstrapOffset(Some(BootstrapFetch(pending))) <= pending[k].id
  {
    var fetched := BootstrapFetch(pending);
    assert fetched[|fetched| - 1] == pending[BootstrapLimit - 1];
  }

  /** After a batch the offset is the last update's id + 1; an empty batch keeps it. */
  lemma RunOffset(options: seq<string>, s: State, us: seq<Update>)
    ensures Run(options, s, us).offset == if us == [] then s.offset else us[|us| - 1].id + 1
  {
  }

  /** Every update the API hands back for `getUpdates(offset)` has an id at or past `offset`. */
  predicate PendingFrom(offset: int, us: seq<Update>) {
    forall k :: 0 <= k < |us| ==> offset <= us[k].id
  }

  /** With ids in delivery order, the offset never moves back while a batch is handled. */
  lemma OffsetNeverDecreases(options: seq<string>, s: State, us: seq<Update>, i: nat, j: nat)
    requires Ascending(us) && PendingFrom(s.offset, us)
    requires i <= j <= |us|
    ensures Run(options, s, us[..i]).offset <= Run(options, s, us[..j]).offset
  {
    RunOffset(options, s, us[..i]);
    RunOffset(options, s, us[..j]);
    if i > 0 {
      assert us[..i][i - 1] == us[i - 1];
      assert us[..j][j - 1] == us[j - 1];
    } else if j > 0 {
      assert us[..j][j - 1] == us[j - 1];
    }
  }

  /** A round that polls successfully ends at the batch's last id + 1. */
  lemma PollOffset(options: seq<string>, s: State, us: seq<Update>)
    ensures Poll(options, s, PollOk(us)).offset == if us == [] then s.offset else us[|us| - 1].id + 1
  {
    RunOffset(options, s.(trace := s.trace + [GetUpdates(s.offset, PollTimeoutSecs)]), us);
  }

  /** A failed poll changes nothing but the trace: a poll, the back-off and the pause. */
  lemma FailedPollKeepsSession(options: seq<string>, s: State)
    ensures Poll(options, s, PollFailed)
         == s.(trace := s.trace + [GetUpdates(s.offset, PollTimeoutSecs), Pause(BackoffMillis), Pause(PollDelayMillis)])
  {
  }

  function Failures(n: nat): seq<PollResult> {
    seq(n, _ => PollFailed)
  }

  /** `n` back-off rounds, each polling from the same offset. */
  function Backoffs(n: nat, offset: int): (r: seq<Action>)
    ensures |r| == 3 * n
  {
    if n == 0 then []
    else Backoffs(n - 1, offset) + [GetUpdates(offset, PollTimeoutSecs), Pause(BackoffMillis), Pause(PollDelayMillis)]
  }

  /** `n` failed polls in a row leave the session as it was, with `n` back-offs traced. */
  lemma {:induction false} RepeatedFailures(options: seq<string>, s: State, n: nat)
    ensures Listen(options, s, Failures(n)) == s.(trace := s.trace + Backoffs(n, s.offset))
  {
    if n > 0 {
      assert Failures(n)[..n - 1] == Failures(n - 1);
      RepeatedFailures(options, s, n - 1);
    } else {
      assert s.trace + [] == s.trace;
    }
  }

  /** The poll after any run of failures asks for the offset held before them. */
  lemma RetryReusesOffset(options: seq<string>, s: State, n: nat, p: PollResult)
    ensures var t := Listen(options, s, Failures(n) + [p]).trace;
            |t| > |s.trace| + 3 * n && t[|s.trace| + 3 * n] == GetUpdates(s.offset, PollTimeoutSecs)
  {
    var ps := Failures(n) + [p];
    assert ps[..|ps| - 1] == Failures(n);
    RepeatedFailures(options, s, n);
    var mid := Listen(options, s, Failures(n));
    var t := Listen(options, s, ps).trace;
    assert Listen(options, s, ps) == Poll(options, mid, p);
  }

  /** Each successful round got a batch in delivery order, pending from the offset it polled. */
  predicate WellFormedRounds(options: seq<string>, s: State, ps: seq<PollResult>) {
    forall k :: 0 <= k < |ps| && ps[k].PollOk? ==>
      Ascending(ps[k].updates) && PendingFrom(Listen(options, s, ps[..k]).offset, ps[k].updates)
  }

  /** Across rounds of the polling loop the offset never moves back. */
  lemma {:induction false} ListenOffsetNeverDecreases(options: seq<string>, s: State, ps: seq<PollResult>, i: nat, j: nat)
    requires WellFormedRounds(options, s, ps)
    requires i <= j <= |ps|
    ensures Listen(options, s, ps[..i]).offset <= Listen(options, s, ps[..j]).offset
    decreases j
  {
    if i < j {
      ListenOffsetNeverDecreases(options, s, ps, i, j - 1);
      var prev := Listen(options, s, ps[..j - 1]);
      assert ps[..j][..j - 1] == ps[..j - 1];
      assert Listen(options, s, ps[..j]) == Poll(options, prev, ps[j - 1]);
      match ps[j - 1]
      case PollFailed => FailedPollKeepsSession(options, prev);
      case PollOk(us) =>
        PollOffset(options, prev, us);
        if us != [] {
          assert prev.offset <= us[|us| - 1].id;
        }
    }
  }

  // ------------------------------------------------------ session invariant

  /** Without predefined options nothing ever claims the keyboard and nothing is selected. */
  lemma NoOptionsNoKeyboard(options: seq<string>, fetched: Option<seq<Update>>, ps: seq<PollResult>)
    requires !HasOptions(options)
    ensures Listen(options, Initial(options, fetched), ps).optionsMessageId == None
    ensures Listen(options, Initial(options, fetched), ps).selected == {}
  {
  }

  // ------------------------------------------------------ ignored updates

  /** Updates the router has nothing to do for: no callback result, no message event, or another kind. */
  predicate Ignored(u: Update) {
    || u.kind.OtherUpdate?
    || (u.kind.CallbackQuery? && u.kind.result.None?)
    || (u.kind.Message? && u.kind.event.None?)
  }

  /**
   * An ignored update advances the offset and may record the keyboard owner;
   * nothing else changes and nothing is sent or emitted.
   */
  lemma IgnoredUpdateOnlyAdvances(options: seq<string>, s: State, u: Update)
    requires Ignored(u)
    ensures var r := Step(options, s, u);
            r == s.(offset := u.id + 1, optionsMessageId := r.optionsMessageId)
    ensures u.kind.OtherUpdate? ==> Step(options, s, u) == s.(offset := u.id + 1)
  {
  }

  /** A TextUpdated message stores its text and only emits it: nothing is sent to the chat. */
  lemma TextUpdateOnlyRecords(options: seq<string>, s: State, u: Update, t: string)
    requires TextOf(u) == Some(t)
    ensures var r := Step(options, s, u);
            r == s.(offset := u.id + 1, optionsMessageId := r.optionsMessageId,
                    userInput := t, trace := s.trace + [Emit(TextUpdated(t))])
  {
  }

  // -------------------------------------------------------------- toggling

  /**
   * With options, a toggle flips that one option, reports the membership
   * after the flip, and re-edits the keyboard only when its owner is known.
   */
  lemma ToggleStep(options: seq<string>, s: State, u: Update, o: string)
    requires HasOptions(options) && ToggleOf(u) == Some(o)
    ensures var r := Step(options, s, u);
            && r.selected == Toggle(s.selected, o)
            && r.userInput == s.userInput
            && r.trace == s.trace + [Emit(OptionToggled(o, o in r.selected))]
                          + (if r.optionsMessageId.Some?
                             then [EditKeyboard(r.optionsMessageId.value, options, r.selected)]
                             else [])
  {
  }

  /** Without options a toggle only advances the offset. */
  lemma ToggleWithoutOptionsInert(options: seq<string>, s: State, u: Update)
    requires !HasOptions(options) && ToggleOf(u).Some?
    ensures Step(options, s, u) == s.(offset := u.id + 1)
  {
  }

  /** Toggling an option twice restores the selection. */
  lemma ToggleTwiceRestores(options: seq<string>, s: State, u1: Update, u2: Update)
    requires ToggleOf(u1).Some? && ToggleOf(u2) == ToggleOf(u1)
    ensures Run(options, s, [u1, u2]).selected == s.selected
  {
    assert [u1, u2][..1] == [u1];
    assert [u1][..0] == [];
    var r1 := Step(options, s, u1);
    assert Run(options, s, [u1]) == r1;
    var r2 := Step(options, r1, u2);
    assert Run(options, s, [u1, u2]) == r2;
    var o := ToggleOf(u1).value;
    if HasOptions(options) {
      assert r2.selected == Toggle(Toggle(s.selected, o), o);
      assert forall x :: x in r2.selected <==> x in s.selected;
    }
  }

  /** An option that was never offered is still accepted by a toggle. */
  lemma UnknownOptionAccepted(options: seq<string>, s: State, u: Update, o: string)
    requires HasOptions(options) && ToggleOf(u) == Some(o)
    requires o !in options && o !in s.selected
    ensures o in Step(options, s, u).selected
    ensures Step(options, s, u).trace[|s.trace|] == Emit(OptionToggled(o, true))
  {
    ToggleStep(options, s, u, o);
  }

  // ------------------------------------------------------- keyboard owner

  /** On the callback path the first recorded owner wins. */
  lemma CallbackOwnerFirstWriteWins(options: seq<string>, s: State, u: Update)
    requires u.kind.CallbackQuery? && s.optionsMessageId.Some?
    ensures Step(options, s, u).optionsMessageId == s.optionsMessageId
  {
  }

  /** A callback records its message as owner only when none is known and there are options. */
  lemma CallbackOwnerRecorded(options: seq<string>, s: State, u: Update)
    requires u.kind.CallbackQuery? && s.optionsMessageId.None?
    ensures Step(options, s, u).optionsMessageId == if HasOptions(options) then u.kind.message else None
  {
  }

  /**
   * A plain message becomes the owner exactly when there are options and
   * its keyboard holds a toggle button; otherwise the owner is untouched.
   */
  lemma MessageClaimsOwnership(options: seq<string>, s: State, u: Update)
    requires u.kind.Message?
    ensures var claims := HasOptions(options) && u.kind.replyMarkup.Some? && HasToggleButton(u.kind.replyMarkup.value);
            Step(options, s, u).optionsMessageId == if claims then Some(u.kind.id) else s.optionsMessageId
  {
  }

  /** The message path overwrites an owner that is already known. */
  lemma MessageOverwritesOwner(options: seq<string>, s: State, u: Update, kb: Keyboard)
    requires HasOptions(options) && HasToggleButton(kb)
    requires u.kind.Message? && u.kind.replyMarkup == Some(kb)
    requires s.optionsMessageId.Some? && s.optionsMessageId.value != u.kind.id
    ensures Step(options, s, u).optionsMessageId != s.optionsMessageId
  {
    MessageClaimsOwnership(options, s, u);
  }

  /** Whether an update is a message whose keyboard would claim ownership. */
  predicate ClaimsKeyboard(options: seq<string>, u: Update) {
    HasOptions(options) && u.kind.Message? && u.kind.replyMarkup.Some? && HasToggleButton(u.kind.replyMarkup.value)
  }

  /** Once known, the owner survives any batch with no claiming message. */
  lemma {:induction false} OwnerStableWithoutClaims(options: seq<string>, s: State, us: seq<Update>)
    requires s.optionsMessageId.Some?
    requires forall k :: 0 <= k < |us| ==> !ClaimsKeyboard(options, us[k])
    ensures Run(options, s, us).optionsMessageId == s.optionsMessageId
    decreases |us|
  {
    if us != [] {
      OwnerStableWithoutClaims(options, s, us[..|us| - 1]);
      var last := us[|us| - 1];
      var prev := Run(options, s, us[..|us| - 1]);
      assert !ClaimsKeyboard(options, last);
      match last.kind
      case CallbackQuery(_, _) => CallbackOwnerFirstWriteWins(options, prev, last);
      case Message(_, _, _) => MessageClaimsOwnership(options, prev, last);
      case OtherUpdate =>
    }
  }

  /** Every keyboard edit of a step targets the owner and shows the selection after the step. */
  lemma EditsTargetOwner(options: seq<string>, s: State, u: Update)
    ensures var r := Step(options, s, u);
            forall k :: |s.trace| <= k < |r.trace| && r.trace[k].EditKeyboard? ==>
              r.optionsMessageId == Some(r.trace[k].messageId)
              && r.trace[k].options == options && r.trace[k].selected == r.selected
  {
    var r := Step(options, s, u);
    match u.kind
    case CallbackQuery(_, result) =>
      if result.Some? && result.value.OptionToggledResult? && HasOptions(options) {
        ToggleStep(options, s, u, result.value.option);
      } else {
        assert |r.trace| == |s.trace| || |r.trace| == |s.trace| + 2;
        assert forall k :: |s.trace| <= k < |r.trace| ==> !r.trace[k].EditKeyboard?;
      }
    case Message(_, _, _) =>
      assert forall k :: |s.trace| <= k < |r.trace| ==> !r.trace[k].EditKeyboard?;
    case OtherUpdate =>
  }

  // ------------------------------------------------- user input, feedback

  /** After a batch the input is the text of its last TextUpdated message. */
  lemma {:induction false} RunUserInput(options: seq<string>, s: State, us: seq<Update>, k: nat)
    requires k < |us| && TextOf(us[k]).Some?
    requires forall m :: k < m < |us| ==> TextOf(us[m]).None?
    ensures Run(options, s, us).userInput == TextOf(us[k]).value
    decreases |us|
  {
    if k < |us| - 1 {
      RunUserInput(options, s, us[..|us| - 1], k);
    }
  }

  /** A batch without TextUpdated messages leaves the input alone. */
  lemma {:induction false} RunUserInputUntouched(options: seq<string>, s: State, us: seq<Update>)
    requires forall m :: 0 <= m < |us| ==> TextOf(us[m]).None?
    ensures Run(options, s, us).userInput == s.userInput
    decreases |us|
  {
    if us != [] {
      RunUserInputUntouched(options, s, us[..|us| - 1]);
    }
  }

  /** Send builds the feedback from the current selection and input and changes neither. */
  lemma SendUsesCurrentState(options: seq<string>, s: State, u: Update)
    requires IsSend(u)
    ensures var r := Step(options, s, u);
            && r.selected == s.selected && r.userInput == s.userInput
            && r.trace == s.trace + [SendFeedback(s.selected, s.userInput, false), Emit(SendPressed)]
  {
  }

  /** Continue sends the same empty continue feedback whatever the session holds. */
  lemma ContinueIgnoresState(options: seq<string>, s: State, t: State, u: Update)
    requires IsContinue(u)
    ensures var r := Step(options, s, u);
            && r.selected == s.selected && r.userInput == s.userInput
            && r.trace[|s.trace|..] == [SendFeedback({}, "", true), Emit(ContinuePressed)]
            && Step(options, t, u).trace[|t.trace|..] == r.trace[|s.trace|..]
  {
  }

  /** Enhance acknowledges in the chat and hands over a prompt that embeds the current input. */
  lemma EnhanceEmbedsInput(options: seq<string>, s: State, u: Update)
    requires IsEnhance(u)
    ensures var r := Step(options, s, u);
            && r.selected == s.selected && r.userInput == s.userInput
            && r.trace == s.trace + [SendText(EnhanceAck(s.userInput)), Emit(EnhancePressed(EnhancePrompt(s.userInput)))]
  {
  }

  // ------------------------------------------------------------- scenario

  /**
   * Options ["Yes", "No"]: the remote user toggles "Yes" on the options
   * message, types "confirmed", and presses Send.
   */
  lemma YesConfirmedScenario(s: State, u1: Update, u2: Update, u3: Update)
    requires s == Initial(["Yes", "No"], None)
    requires u1.kind == CallbackQuery(Some(7), Some(OptionToggledResult("Yes")))
    requires u2.kind == Message(8, None, Some(TextUpdated("confirmed")))
    requires u3.kind == CallbackQuery(Some(7), Some(SendPressedResult))
    ensures Run(["Yes", "No"], s, [u1, u2, u3]).trace == [
              Emit(OptionToggled("Yes", true)),
              EditKeyboard(7, ["Yes", "No"], {"Yes"}),
              Emit(TextUpdated("confirmed")),
              SendFeedback({"Yes"}, "confirmed", false),
              Emit(SendPressed)]
  {
    var options := ["Yes", "No"];
    var us := [u1, u2, u3];
    assert us[..2] == [u1, u2];
    assert us[..2][..1] == [u1];
    assert us[..2][..1][..0] == [];
    var r1 := Step(options, s, u1);
    assert Run(options, s, [u1]) == r1;
    assert r1.optionsMessageId == Some(7);
    assert r1.selected == {"Yes"};
    assert r1.trace == [Emit(OptionToggled("Yes", true)), EditKeyboard(7, options, {"Yes"})];
    var r2 := Step(options, r1, u2);
    assert Run(options, s, [u1, u2]) == r2;
    assert r2.userInput == "confirmed" && r2.selected == {"Yes"};
    assert r2.trace == r1.trace + [Emit(TextUpdated("confirmed"))];
    var r3 := Step(options, r2, u3);
    assert Run(options, s, us) == r3;
    assert r3.trace == r2.trace + [SendFeedback({"Yes"}, "confirmed", false), Emit(SendPressed)];
  }
}
