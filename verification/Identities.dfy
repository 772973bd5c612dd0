/**
 Identities shared by every part of the model.

 The program derives its identities by concatenating strings and hashing them (RFC 4122, section
 4.3). The model keeps what that is for: each identity is an injective function of the parts it is
 built from, so it is a datatype constructor over those parts.
 */
module Identities {

  datatype Option<+T> = None | Some(value: T)

  /** Milliseconds. */
  type Time = int

  /** A conversation is derived from a chat, or from one occurrence of an isolated scheduled task. */
  datatype ConversationId = ChatConversation(n: nat) | RunConversation(run: RunId)

  datatype TaskId = TaskId(creator: ConversationId, command: nat)

  datatype RunId = RunId(task: TaskId, at: Time)

  datatype LaneKey = Chat(n: nat) | RunLane(owner: LaneKey, run: RunId)

  /** The stable source message id handed to the relay at ingress. */
  datatype SourceId =
    | External(n: nat)
    | Scheduled(run: RunId)
    | SlackBatch(task: TaskId, items: set<nat>)

  datatype EventId =
    | Inbound(platform: nat, source: SourceId)
    | Agent(n: nat)
    | CommandReceipt(command: SourceKey)

  datatype SourceKey =
    | MessageKey(platform: nat, account: nat, source: SourceId)
    | EventKey(event: EventId, lane: LaneKey)
    | ReceiptKey(work: nat)
}
