/**
 * `auto_get_chat_id`: after announcing that detection started, a spawned
 * loop polls the bot for updates once per iteration, reports the chat of the
 * first message it sees, and gives up after `MaxTimeoutCount` iterations.
 */
module ChatIdDetection {
  import opened Wrappers

  /** Iterations before the loop gives up (one second apart). */
  const MaxTimeoutCount: nat := 30
  const DefaultChatTitle: string := "私聊"
  const DefaultUsername: string := "未知用户"

  datatype User = User(username: Option<string>)

  /** The parts of an incoming message the loop reads. */
  datatype IncomingMessage = IncomingMessage(chatId: int, title: Option<string>, from: Option<User>, text: Option<string>)

  datatype DetectUpdate = MessageUpdate(message: IncomingMessage) | NonMessageUpdate

  /** One `get_updates` call: `None` when it failed. */
  type PollOutcome = Option<seq<DetectUpdate>>

  /** The JSON payload of "chat-id-detected". */
  datatype ChatInfo = ChatInfo(chatId: int, chatTitle: string, username: string, messageText: string)

  /** Events sent to the front end. */
  datatype DetectionEvent = DetectionStarted | ChatIdDetected(info: ChatInfo) | DetectionTimeout

  /** What the spawned loop emitted and how many polls it made. */
  datatype Detection = Detection(events: seq<DetectionEvent>, polls: nat)

  /** The detected-chat payload: absent fields are reported with their defaults, present ones as they are. */
  function InfoOf(m: IncomingMessage): (r: ChatInfo)
    ensures r.chatTitle == if m.title.Some? then m.title.value else DefaultChatTitle
    ensures r.username == if m.from.Some? && m.from.value.username.Some? then m.from.value.username.value else DefaultUsername
    ensures r.messageText == if m.text.Some? then m.text.value else ""
    ensures r.chatId == m.chatId
  {
    var username := if m.from.Some? then m.from.value.username.GetOr(DefaultUsername) else DefaultUsername;
    ChatInfo(m.chatId, m.title.GetOr(DefaultChatTitle), username, m.text.GetOr(""))
  }

  /** The first message-kind update of a batch; other kinds are skipped. */
  function FirstMessage(us: seq<DetectUpdate>): (r: Option<IncomingMessage>)
    ensures r.None? <==> forall k :: 0 <= k < |us| ==> !us[k].MessageUpdate?
    ensures r.Some? ==> exists k :: 0 <= k < |us| && us[k] == MessageUpdate(r.value)
  {
    if us == [] then None
    else if us[0].MessageUpdate? then Some(us[0].message)
    else FirstMessage(us[1..])
  }

  /** A message preceded only by other kinds is the one reported. */
  lemma {:induction false} FirstMessageAt(us: seq<DetectUpdate>, i: nat)
    requires i < |us| && us[i].MessageUpdate?
    requires forall j :: 0 <= j < i ==> !us[j].MessageUpdate?
    ensures FirstMessage(us) == Some(us[i].message)
  {
    if i > 0 {
      FirstMessageAt(us[1..], i - 1);
    }
  }

  predicate HasMessage(p: PollOutcome) {
    p.Some? && FirstMessage(p.value).Some?
  }

  /**
   * The loop from iteration `k` on: stop at the first poll that returns a
   * message, or emit the timeout after iteration `MaxTimeoutCount`.
   */
  function DetectFrom(polls: seq<PollOutcome>, k: nat): (r: Detection)
    requires k < MaxTimeoutCount <= |polls|
    ensures k < r.polls <= MaxTimeoutCount && |r.events| == 1
    decreases MaxTimeoutCount - k
  {
    if HasMessage(polls[k]) then Detection([ChatIdDetected(InfoOf(FirstMessage(polls[k].value).value))], k + 1)
    else if k + 1 >= MaxTimeoutCount then Detection([DetectionTimeout], k + 1)
    else DetectFrom(polls, k + 1)
  }

  /**
   * The loop stops at the first poll with a message and reports that
   * message's chat; it times out only after poll 30, none having one.
   */
  lemma {:induction false} DetectFromOutcome(polls: seq<PollOutcome>, k: nat)
    requires k < MaxTimeoutCount <= |polls|
    ensures var r := DetectFrom(polls, k);
            && (forall j :: k <= j < r.polls - 1 ==> !HasMessage(polls[j]))
            && (r.events[0].DetectionTimeout? || r.events[0].ChatIdDetected?)
            && (r.events[0].DetectionTimeout? <==> !HasMessage(polls[r.polls - 1]))
            && (r.events[0].DetectionTimeout? ==> r.polls == MaxTimeoutCount)
            && (r.events[0].ChatIdDetected? ==>
                  r.events[0].info == InfoOf(FirstMessage(polls[r.polls - 1].value).value))
    decreases MaxTimeoutCount - k
  {
    if !HasMessage(polls[k]) && k + 1 < MaxTimeoutCount {
      DetectFromOutcome(polls, k + 1);
    }
  }

  /** The timeout is reported exactly when none of the 30 polls returned a message. */
  lemma TimeoutIffNoMessage(polls: seq<PollOutcome>)
    requires MaxTimeoutCount <= |polls|
    ensures DetectFrom(polls, 0).events == [DetectionTimeout]
        <==> forall j :: 0 <= j < MaxTimeoutCount ==> !HasMessage(polls[j])
  {
    DetectFromOutcome(polls, 0);
  }

  /** The `for update in updates` scan: the first message-kind update, if any. */
  method ScanForMessage(updates: seq<DetectUpdate>) returns (found: Option<IncomingMessage>)
    ensures found == FirstMessage(updates)
  {
    var i := 0;
    while i < |updates|
      invariant 0 <= i <= |updates|
      invariant forall j :: 0 <= j < i ==> !updates[j].MessageUpdate?
    {
      if updates[i].MessageUpdate? {
        FirstMessageAt(updates, i);
        return Some(updates[i].message);
      }
      i := i + 1;
    }
    return None;
  }

  /**
   * The detection loop. `polls[i]` is what the `i`-th `get_updates` call
   * returns; failed polls count as iterations too.
   */
  method AutoGetChatId(polls: seq<PollOutcome>) returns (events: seq<DetectionEvent>, pollCount: nat)
    requires MaxTimeoutCount <= |polls|
    ensures events == [DetectionStarted] + DetectFrom(polls, 0).events
    ensures pollCount == DetectFrom(polls, 0).polls
    ensures 1 <= pollCount <= MaxTimeoutCount && |events| == 2
  {
    events := [DetectionStarted];
    ghost var outcome := DetectFrom(polls, 0);
    var timeoutCount: nat := 0;
    while true
      invariant timeoutCount < MaxTimeoutCount
      invariant events == [DetectionStarted]
      invariant DetectFrom(polls, timeoutCount) == outcome
      decreases MaxTimeoutCount - timeoutCount
    {
      if polls[timeoutCount].Some? {
        var found := ScanForMessage(polls[timeoutCount].value);
        if found.Some? {
          events := events + [ChatIdDetected(InfoOf(found.value))];
          pollCount := timeoutCount + 1;
          return;
        }
      }
      timeoutCount := timeoutCount + 1;
      if timeoutCount >= MaxTimeoutCount {
        events := events + [DetectionTimeout];
        pollCount := timeoutCount;
        break;
      }
    }
  }
}
