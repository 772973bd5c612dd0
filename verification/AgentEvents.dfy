/** The agent-server's event log as the relay reads it, and what of it is delivered. */
module AgentEvents {
  import opened Identities

  datatype Source = FromUser | FromAgent

  datatype Role = UserRole | AssistantRole | OtherRole

  datatype Tool = SendMessage | CurrentThreadMessage | Finish | OtherTool

  /** `text` is the message text a message event carries, or the one a tool call or result names. */
  datatype Event =
    | MessageEvent(id: EventId, source: Source, role: Role, toolCalls: bool, text: string)
    | ActionEvent(id: EventId, tool: Tool, words: Option<string>)
    | ObservationEvent(id: EventId, tool: Tool, action: EventId, words: Option<string>, isError: bool)
    | PauseEvent(id: EventId)
    | ConversationErrorEvent(id: EventId, notice: string)
    | OtherEvent(id: EventId)

  /** White space and line terminators as the language's trim has them. */
  predicate IsSpace(c: char) {
    || '\t' <= c <= '\r'
    || c in {' ', '\U{A0}', '\U{1680}', '\U{2028}', '\U{2029}', '\U{202F}', '\U{205F}', '\U{3000}', '\U{FEFF}'}
    || '\U{2000}' <= c <= '\U{200A}'
  }

  function TrimLeft(s: string): string {
    if s != [] && IsSpace(s[0]) then TrimLeft(s[1..]) else s
  }

  function TrimRight(s: string): string {
    if s != [] && IsSpace(s[|s| - 1]) then TrimRight(s[..|s| - 1]) else s
  }

  function Trim(s: string): string {
    TrimRight(TrimLeft(s))
  }

  /** sendMessageExtractor: an explicit outbound action. */
  function SendText(e: Event): Option<string> {
    if e.ActionEvent? && (e.tool == SendMessage || e.tool == CurrentThreadMessage) then e.words else None
  }

  /** terminalResponseExtractor: a nonblank finish, or assistant text that drives no tool. */
  function TerminalText(e: Event): Option<string> {
    match e
    case ObservationEvent(_, tool, _, words, _) =>
      if tool == Finish && words.Some? && Trim(words.value) != "" then words else None
    case MessageEvent(_, _, role, toolCalls, text) =>
      if role == AssistantRole && !toolCalls && Trim(text) != "" then Some(Trim(text)) else None
    case _ => None
  }

  function ErrorText(e: Event): Option<string> {
    if e.ConversationErrorEvent? then Some(e.notice) else None
  }

  /** bridgeResponseExtractor. */
  function Deliverable(e: Event): Option<string> {
    if SendText(e).Some? then SendText(e)
    else if TerminalText(e).Some? then TerminalText(e)
    else ErrorText(e)
  }

  /** Where the backward echo scan gives up: a user message or an earlier terminal reply. */
  predicate TurnBoundary(e: Event) {
    (e.MessageEvent? && e.source == FromUser) || TerminalText(e).Some?
  }

  predicate UniqueIds(log: seq<Event>) {
    forall p, q :: 0 <= p < q < |log| ==> log[p].id != log[q].id
  }

  predicate InLog(log: seq<Event>, id: EventId) {
    exists p :: 0 <= p < |log| && log[p].id == id
  }

  /** Wherever both events occur, a comes first. */
  predicate Precedes(log: seq<Event>, a: EventId, b: EventId) {
    forall p, q :: 0 <= p < |log| && 0 <= q < |log| && log[p].id == a && log[q].id == b ==> p < q
  }

  lemma AppendUniqueIds(log: seq<Event>, e: Event)
    requires UniqueIds(log) && !InLog(log, e.id)
    ensures UniqueIds(log + [e])
  {
  }

  lemma InLogGrows(log: seq<Event>, e: Event, id: EventId)
    ensures InLog(log + [e], id) == (InLog(log, id) || e.id == id)
  {
    assert (log + [e])[|log|] == e;
    if InLog(log, id) {
      var p :| 0 <= p < |log| && log[p].id == id;
      assert (log + [e])[p] == log[p];
    }
  }
}
