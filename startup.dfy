/**
 * The pure decisions around starting a session: the enable and
 * completeness checks of `start_telegram_sync`, and the rule that turns the
 * configured API base URL into the optional custom endpoint handed to the
 * bot (the same rule in `test_telegram_connection_cmd`,
 * `start_telegram_sync`, `start_telegram_listener` and `auto_get_chat_id`).
 */
module SyncStartup {
  import opened Wrappers

  /** The Bot API's standard base URL (the default of the configuration). */
  const ApiBaseUrl: string := "https://api.telegram.org"

  /** `None` selects the default endpoint, `Some(url)` a custom one. */
  function ApiUrlOption(apiUrl: string): (r: Option<string>)
    ensures r.None? <==> apiUrl == ApiBaseUrl
    ensures r.Some? ==> r.value == apiUrl
  {
    if apiUrl == ApiBaseUrl then None else Some(apiUrl)
  }

  /** The endpoint a bot built with `apiUrl` talks to. */
  function Endpoint(apiUrl: Option<string>): string {
    apiUrl.GetOr(ApiBaseUrl)
  }

  /** Selecting the option loses nothing: the bot talks to the configured URL. */
  lemma ApiUrlOptionKeepsEndpoint(apiUrl: string)
    ensures Endpoint(ApiUrlOption(apiUrl)) == apiUrl
  {
  }

  /**
   * The listener's choice: the configured URL through the same rule, or the
   * default when the application state is unavailable (`configured == None`).
   */
  function ListenerApiUrl(configured: Option<string>): (r: Option<string>)
    ensures Endpoint(r) == configured.GetOr(ApiBaseUrl)
    ensures r.Some? ==> configured.Some? && r.value != ApiBaseUrl
  {
    match configured
    case Some(apiUrl) => ApiUrlOption(apiUrl)
    case None => None
  }

  /**
   * The detection bot's choice: a non-default configured URL is used only if
   * it parses (`parses`); otherwise the bot stays on the default endpoint.
   */
  function DetectionApiUrl(configured: Option<string>, parses: bool): (r: Option<string>)
    ensures configured.Some? && parses ==> Endpoint(r) == configured.value
    ensures !parses || configured.None? ==> Endpoint(r) == ApiBaseUrl
  {
    if configured.Some? && configured.value != ApiBaseUrl && parses then Some(configured.value) else None
  }

  // -------------------------------------------------------------- blank check

  /** Rust's `char::is_whitespace`: the Unicode White_Space property. */
  predicate IsWhitespace(c: char) {
    || ('\t' <= c <= '\r') || c == ' ' || c == '\U{0085}' || c == '\U{00A0}' || c == '\U{1680}'
    || ('\U{2000}' <= c <= '\U{200A}') || c == '\U{2028}' || c == '\U{2029}' || c == '\U{202F}'
    || c == '\U{205F}' || c == '\U{3000}'
  }

  predicate AllWhitespace(s: string) {
    forall i :: 0 <= i < |s| ==> IsWhitespace(s[i])
  }

  /** Whitespace put in front of whitespace. */
  lemma WhitespaceCons(c: char, w: string)
    requires IsWhitespace(c) && AllWhitespace(w)
    ensures AllWhitespace([c] + w)
  {
  }

  /** Whitespace put after whitespace. */
  lemma WhitespaceSnoc(w: string, c: char)
    requires AllWhitespace(w) && IsWhitespace(c)
    ensures AllWhitespace(w + [c])
  {
  }

  /** Leading whitespace removed: only whitespace goes, and what stays starts with something else. */
  function TrimStart(s: string): (r: string)
    ensures r == [] <==> AllWhitespace(s)
    ensures r != [] ==> !IsWhitespace(r[0])
    ensures |r| <= |s| && r == s[|s| - |r|..]
    ensures AllWhitespace(s[..|s| - |r|])
    decreases |s|
  {
    if s != [] && IsWhitespace(s[0]) then
      var r := TrimStart(s[1..]);
      WhitespaceCons(s[0], s[1..][..|s[1..]| - |r|]);
      assert s[..|s| - |r|] == [s[0]] + s[1..][..|s[1..]| - |r|];
      r
    else s
  }

  /** Trailing whitespace removed: only whitespace goes, and what stays ends with something else. */
  function TrimEnd(s: string): (r: string)
    ensures r <= s
    ensures r == [] <==> AllWhitespace(s)
    ensures r != [] ==> !IsWhitespace(r[|r| - 1])
    ensures AllWhitespace(s[|r|..])
    decreases |s|
  {
    if s != [] && IsWhitespace(s[|s| - 1]) then
      var p := s[..|s| - 1];
      var r := TrimEnd(p);
      WhitespaceSnoc(p[|r|..], s[|s| - 1]);
      assert s[|r|..] == p[|r|..] + [s[|s| - 1]];
      r
    else s
  }

  /**
   * `str::trim`: only leading and trailing whitespace is removed, and the
   * result neither starts nor ends with whitespace.
   */
  function Trim(s: string): (r: string)
    ensures r != [] ==> !IsWhitespace(r[0]) && !IsWhitespace(r[|r| - 1])
    ensures exists i :: SurroundedByWhitespace(s, r, i)
  {
    var t := TrimStart(s);
    var r := TrimEnd(t);
    SurroundedSlice(s, t, r);
    r
  }

  /** `s` is whitespace, then `r` from index `i`, then whitespace. */
  predicate SurroundedByWhitespace(s: string, r: string, i: int) {
    0 <= i <= |s| - |r| && AllWhitespace(s[..i]) && r == s[i..i + |r|] && AllWhitespace(s[i + |r|..])
  }

  /** Whitespace, then `t` with trailing whitespace cut down to `r`: `r` sits between whitespace. */
  lemma SurroundedSlice(s: string, t: string, r: string)
    requires |t| <= |s| && t == s[|s| - |t|..] && AllWhitespace(s[..|s| - |t|])
    requires r <= t && AllWhitespace(t[|r|..])
    requires t != [] ==> !IsWhitespace(t[0])
    requires r != [] ==> !IsWhitespace(r[|r| - 1])
    ensures SurroundedByWhitespace(s, r, |s| - |t|)
    ensures r != [] ==> !IsWhitespace(r[0]) && !IsWhitespace(r[|r| - 1])
  {
    assert s[|s| - |t| + |r|..] == t[|r|..];
  }

  /** `s.trim().is_empty()` holds exactly for strings made only of whitespace. */
  lemma TrimEmptyIffAllWhitespace(s: string)
    ensures Trim(s) == [] <==> AllWhitespace(s)
  {
    var t := TrimStart(s);
    if t != [] {
      assert !IsWhitespace(t[0]);
      assert !AllWhitespace(t);
    }
  }

  // ---------------------------------------------------------------- start-up

  /** The configuration fields `start_telegram_sync` reads. */
  datatype TelegramConfig = TelegramConfig(enabled: bool, botToken: string, chatId: string, apiBaseUrl: string)

  /** What start-up does, in order. */
  datatype StartupAction =
    | CreateCore(botToken: string, chatId: string, apiUrl: Option<string>)
    | SendOptionsMessage(message: string, options: seq<string>, isMarkdown: bool)
    | Sleep(millis: nat)
    | SendOperationMessage(continueReplyEnabled: bool)
    | SpawnListener(botToken: string, chatId: string, options: seq<string>)

  datatype Startup = Startup(result: Result<()>, actions: seq<StartupAction>)

  const IncompleteConfig: string := "Telegram配置不完整"

  /** A token or chat id that is empty once trimmed. */
  predicate Incomplete(config: TelegramConfig) {
    Trim(config.botToken) == [] || Trim(config.chatId) == []
  }

  /** Everything a successful start-up does, in order. */
  function LaunchSteps(
    config: TelegramConfig, continueReplyEnabled: bool,
    message: string, options: seq<string>, isMarkdown: bool): seq<StartupAction>
  {
    [ CreateCore(config.botToken, config.chatId, ApiUrlOption(config.apiBaseUrl)),
      SendOptionsMessage(message, options, isMarkdown),
      Sleep(500),
      SendOperationMessage(continueReplyEnabled),
      SpawnListener(config.botToken, config.chatId, options) ]
  }

  /**
   * `start_telegram_sync` after the configuration was read. The outcomes of
   * creating the core and of the two sends are inputs (`None`: success,
   * `Some(e)`: the error's text). Start-up performs a prefix of
   * `LaunchSteps` and stops at the first failure.
   */
  function StartTelegramSync(
    config: TelegramConfig, continueReplyEnabled: bool,
    message: string, options: seq<string>, isMarkdown: bool,
    coreError: Option<string>, optionsError: Option<string>, operationError: Option<string>): (r: Startup)
    ensures r.actions <= LaunchSteps(config, continueReplyEnabled, message, options, isMarkdown)
    ensures !config.enabled ==> r == Startup(Ok(()), [])
    ensures config.enabled && Incomplete(config) ==> r == Startup(Err(IncompleteConfig), [])
    ensures r.actions != [] <==> config.enabled && !Incomplete(config)
    ensures |r.actions| == 5
        <==> config.enabled && !Incomplete(config) && coreError.None? && optionsError.None? && operationError.None?
    ensures r.result.Ok? <==> !config.enabled || |r.actions| == 5
  {
    var steps := LaunchSteps(config, continueReplyEnabled, message, options, isMarkdown);
    if !config.enabled then Startup(Ok(()), [])
    else if Incomplete(config) then Startup(Err(IncompleteConfig), [])
    else if coreError.Some? then Startup(Err("创建Telegram核心失败: " + coreError.value), steps[..1])
    else if optionsError.Some? then Startup(Err("发送选项消息失败: " + optionsError.value), steps[..2])
    else if operationError.Some? then Startup(Err("发送操作消息失败: " + operationError.value), steps[..4])
    else Startup(Ok(()), steps)
  }

  /** Start-up stops before doing anything exactly when enabled with a blank token or chat id. */
  lemma BlankConfigRejected(
    config: TelegramConfig, continueReplyEnabled: bool,
    message: string, options: seq<string>, isMarkdown: bool,
    coreError: Option<string>, optionsError: Option<string>, operationError: Option<string>)
    ensures var r := StartTelegramSync(config, continueReplyEnabled, message, options, isMarkdown,
                                       coreError, optionsError, operationError);
            r.result.Err? && r.actions == []
            <==> config.enabled && (AllWhitespace(config.botToken) || AllWhitespace(config.chatId))
  {
    TrimEmptyIffAllWhitespace(config.botToken);
    TrimEmptyIffAllWhitespace(config.chatId);
  }
}
