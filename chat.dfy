/** The chat hook: the message log, the "responding" flag and the stored API
    key. The HTTP request and its JSON reply are abstracted as a fetch outcome
    carrying the parsed response body. */
module GeminiChat {
  import opened Wrappers
  import opened Storage

  /** A message of the log; `timestamp` is in milliseconds since the epoch. */
  datatype ChatMessage = ChatMessage(content: string, isUserMessage: bool, sender: string, timestamp: int)

  /** The parts of a response body the hook reads:
      `candidates[0].content.parts[0].text`. Each optional field may be absent. */
  datatype Part = Part(text: Option<string>)
  datatype Content = Content(parts: Option<seq<Part>>)
  datatype Candidate = Candidate(content: Option<Content>)
  datatype ResponseBody = ResponseBody(candidates: Option<seq<Candidate>>)

  /** What awaiting `fetch` and `response.json()` gives: a parsed body, or an
      exception (network failure, unreadable JSON). */
  datatype FetchOutcome = Responded(body: ResponseBody) | Threw

  const UserSender := "You"
  const ApiKeyStorageKey := "gemini_api_key"

  /** `text` sits at `candidates[0].content.parts[0].text`; further candidates
      and parts may follow. */
  predicate TextAtPath(body: ResponseBody, text: string) {
    var cs := body.candidates;
    cs.Some? && |cs.value| > 0 && cs.value[0].content.Some? &&
    cs.value[0].content.value.parts.Some? && |cs.value[0].content.value.parts.value| > 0 &&
    cs.value[0].content.value.parts.value[0].text == Some(text)
  }

  /** The reply text, when the path `candidates[0].content.parts[0].text` exists
      and holds a non-empty string (an empty string is falsy). */
  function ReplyText(outcome: FetchOutcome): (r: Option<string>)
    ensures r.Some? ==> r.value != "" && outcome.Responded? && TextAtPath(outcome.body, r.value)
    ensures forall text :: outcome.Responded? && TextAtPath(outcome.body, text) && text != "" ==>
      r == Some(text)
  {
    match outcome
    case Threw => None
    case Responded(body) =>
      if body.candidates.None? || body.candidates.value == [] then None
      else
        var first := body.candidates.value[0];
        if first.content.None? || first.content.value.parts.None? || first.content.value.parts.value == [] then None
        else
          var text := first.content.value.parts.value[0].text;
          if text.None? || text.value == "" then None else text
  }

  /** A body whose first candidate's first part carries a non-empty text yields
      that text, whatever candidates and parts follow. */
  lemma ReplyTextOfWellFormed(text: string, moreParts: seq<Part>, moreCandidates: seq<Candidate>)
    requires text != ""
    ensures ReplyText(Responded(ResponseBody(Some(
      [Candidate(Some(Content(Some([Part(Some(text))] + moreParts))))] + moreCandidates)))) == Some(text)
  {
  }

  /** No reply comes of an exception, an empty candidate list or an empty text. */
  lemma NoReplyText(body: ResponseBody)
    requires body.candidates.None? || body.candidates.value == [] ||
             (body.candidates.value[0].content.Some? && body.candidates.value[0].content.value.parts.Some? &&
              body.candidates.value[0].content.value.parts.value != [] &&
              body.candidates.value[0].content.value.parts.value[0].text == Some(""))
    ensures ReplyText(Responded(body)).None? && ReplyText(Threw).None?
  {
  }

  function UserMessage(text: string, at: int): ChatMessage {
    ChatMessage(text, true, UserSender, at)
  }

  function BotMessage(patientName: string, text: string, at: int): ChatMessage {
    ChatMessage(text, false, patientName, at)
  }

  /** The log after a whole `sendMessage(text)`: unchanged without a key;
      otherwise the user message, then one bot message when a reply text came. */
  function LogAfterSend(log: seq<ChatMessage>, apiKey: string, patientName: string, text: string,
                        sentAt: int, outcome: FetchOutcome, repliedAt: int): (r: seq<ChatMessage>)
    ensures apiKey == "" ==> r == log
    ensures apiKey != "" ==>
      |r| == |log| + (if ReplyText(outcome).Some? then 2 else 1) &&
      r[..|log|] == log &&
      r[|log|] == ChatMessage(text, true, UserSender, sentAt)
    ensures apiKey != "" && ReplyText(outcome).Some? ==>
      r[|log| + 1] == ChatMessage(ReplyText(outcome).value, false, patientName, repliedAt)
  {
    if apiKey == "" then log
    else
      var withUser := log + [UserMessage(text, sentAt)];
      match ReplyText(outcome)
      case Some(reply) => withUser + [BotMessage(patientName, reply, repliedAt)]
      case None => withUser
  }

  /** Every bot message directly follows a user message, carries a non-empty
      text and the patient's name. */
  predicate WellFormedLog(log: seq<ChatMessage>, patientName: string) {
    forall i :: 0 <= i < |log| && !log[i].isUserMessage ==>
      i > 0 && log[i - 1].isUserMessage && log[i].content != "" && log[i].sender == patientName
  }

  /** `sendMessage` keeps the log well formed. */
  lemma LogAfterSendWellFormed(log: seq<ChatMessage>, apiKey: string, patientName: string, text: string,
                               sentAt: int, outcome: FetchOutcome, repliedAt: int)
    requires WellFormedLog(log, patientName)
    ensures WellFormedLog(LogAfterSend(log, apiKey, patientName, text, sentAt, outcome, repliedAt), patientName)
  {
    var r := LogAfterSend(log, apiKey, patientName, text, sentAt, outcome, repliedAt);
    forall i | 0 <= i < |r| && !r[i].isUserMessage
      ensures i > 0 && r[i - 1].isUserMessage && r[i].content != "" && r[i].sender == patientName
    {
      if i < |log| {
        assert r[i] == r[..|log|][i];
        if i > 0 {
          assert r[i - 1] == r[..|log|][i - 1];
        }
      }
    }
  }

  /** The key the hook starts with: the stored one, or "" when none. */
  function StoredKey(entries: Entries): (k: string)
    ensures ApiKeyStorageKey in entries && entries[ApiKeyStorageKey].Text? ==> k == entries[ApiKeyStorageKey].text
    ensures ApiKeyStorageKey !in entries ==> k == ""
  {
    TextAt(entries, ApiKeyStorageKey).GetOr("")
  }

  class ChatSession {
    const patientName: string
    const scenarioId: string
    const store: Store
    var messages: seq<ChatMessage>
    var isResponding: bool
    var apiKey: string

    /** The hook's initial state. */
    constructor (patientName: string, scenarioId: string, store: Store)
      ensures this.patientName == patientName && this.scenarioId == scenarioId && this.store == store
      ensures messages == [] && !isResponding && apiKey == StoredKey(store.entries)
    {
      this.patientName := patientName;
      this.scenarioId := scenarioId;
      this.store := store;
      messages := [];
      isResponding := false;
      apiKey := StoredKey(store.entries);
    }

    /** `saveApiKey(key)`: stored under "gemini_api_key" and kept in state. */
    method SaveApiKey(key: string)
      modifies this, store
      ensures store.entries == old(store.entries)[ApiKeyStorageKey := Text(key)]
      ensures apiKey == key
      ensures messages == old(messages) && isResponding == old(isResponding)
    {
      store.SetItem(ApiKeyStorageKey, Text(key));
      apiKey := key;
    }

    /** The synchronous part of `sendMessage`, up to the request: without a key
        nothing happens; otherwise the user message is appended and the hook is
        marked as responding. `requested` says whether a request goes out. */
    method BeginSend(text: string, sentAt: int) returns (requested: bool)
      modifies this
      ensures requested <==> old(apiKey) != ""
      ensures apiKey == old(apiKey)
      ensures !requested ==> messages == old(messages) && isResponding == old(isResponding)
      ensures requested ==> messages == old(messages) + [UserMessage(text, sentAt)] && isResponding
    {
      if apiKey == "" {
        return false;
      }
      messages := messages + [UserMessage(text, sentAt)];
      isResponding := true;
      requested := true;
    }

    /** The part of `sendMessage` after the request settles: the reply, if any,
        is appended, and the flag is cleared in every outcome. */
    method FinishSend(outcome: FetchOutcome, repliedAt: int)
      modifies this
      ensures apiKey == old(apiKey) && !isResponding
      ensures ReplyText(outcome).Some? ==>
        messages == old(messages) + [BotMessage(patientName, ReplyText(outcome).value, repliedAt)]
      ensures ReplyText(outcome).None? ==> messages == old(messages)
    {
      var reply := ReplyText(outcome);
      if reply.Some? {
        messages := messages + [BotMessage(patientName, reply.value, repliedAt)];
      }
      isResponding := false;
    }

    /** `sendMessage(text)` run to completion. */
    method SendMessage(text: string, sentAt: int, outcome: FetchOutcome, repliedAt: int)
      modifies this
      ensures messages == LogAfterSend(old(messages), old(apiKey), patientName, text, sentAt, outcome, repliedAt)
      ensures apiKey == old(apiKey)
      ensures old(apiKey) == "" ==> isResponding == old(isResponding)
      ensures old(apiKey) != "" ==> !isResponding
    {
      var requested := BeginSend(text, sentAt);
      if requested {
        FinishSend(outcome, repliedAt);
      }
    }
  }
}
