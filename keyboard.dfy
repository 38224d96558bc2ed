/**
 * The inline keyboard attached to an incoming message, and the scan the
 * listener runs over it to decide whether the message is the one carrying
 * this session's option buttons (commands.rs, lines 416-435).
 */
module Keyboard {

  /** Callback data of every option button starts with this marker. */
  const TogglePrefix: string := "toggle:"

  /** What pressing a button does; only callback data matters to the scan. */
  datatype ButtonKind = CallbackData(data: string) | OtherKind

  datatype Button = Button(text: string, kind: ButtonKind)

  /** Rows of buttons, as `InlineKeyboardMarkup::inline_keyboard`. */
  type Keyboard = seq<seq<Button>>

  /** A button whose callback data starts with `toggle:`. */
  predicate IsToggleButton(b: Button) {
    b.kind.CallbackData? && TogglePrefix <= b.kind.data
  }

  /** Some button in some row is a toggle button. */
  predicate HasToggleButton(rows: Keyboard) {
    exists r, c :: 0 <= r < |rows| && 0 <= c < |rows[r]| && IsToggleButton(rows[r][c])
  }

  /**
   * The nested scan with early exits that sets `contains_our_options`:
   * it stops at the first toggle button, row by row, left to right.
   */
  method ScanKeyboard(rows: Keyboard) returns (containsOurOptions: bool)
    ensures containsOurOptions <==> HasToggleButton(rows)
  {
    containsOurOptions := false;
    var i := 0;
    while i < |rows|
      invariant 0 <= i <= |rows|
      invariant !containsOurOptions
      invariant forall r, c :: 0 <= r < i && 0 <= c < |rows[r]| ==> !IsToggleButton(rows[r][c])
    {
      var j := 0;
      while j < |rows[i]|
        invariant 0 <= j <= |rows[i]|
        invariant !containsOurOptions
        invariant forall c :: 0 <= c < j ==> !IsToggleButton(rows[i][c])
      {
        if IsToggleButton(rows[i][j]) {
          containsOurOptions := true;
          break;
        }
        j := j + 1;
      }
      if containsOurOptions {
        break;
      }
      i := i + 1;
    }
  }

  /** A button carrying `toggle:<label>` is recognised whatever the option. */
  lemma ToggleDataRecognised(rows: Keyboard, r: nat, c: nat, option: string)
    requires r < |rows| && c < |rows[r]|
    requires rows[r][c].kind == CallbackData(TogglePrefix + option)
    ensures HasToggleButton(rows)
  {
    assert TogglePrefix <= TogglePrefix + option;
    assert IsToggleButton(rows[r][c]);
  }
}
