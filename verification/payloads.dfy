/**
  The shapes of the data that cross the relay's boundary: the `ChatMessage`
  and `Conversation` payloads, the inbound events a socket may send and the
  outbound events the relay emits.
 */
module Payloads {

  /** A socket's id (`socket.id`). */
  type ConnId = string

  /** A conversation id, which is also the name of its channel. */
  type ChannelId = string

  datatype Option<T> = None | Some(value: T)

  datatype Role = User | Assistant

  datatype ChatMessage = ChatMessage(
    id: string,
    content: string,
    role: Role,
    conversationId: ChannelId,
    timestamp: string)

  datatype Conversation = Conversation(
    id: ChannelId,
    title: string,
    userId: Option<string>,
    createdAt: string)

  /**
    One clock reading: `now` stands for `Date.now()` and `iso` for
    `new Date().toISOString()`. They are separate parameters because the
    source reads the clock twice and nothing ties the two readings together.
   */
  datatype Clock = Clock(now: nat, iso: string)

  /** The events a connected socket may send. */
  datatype InEvent =
    | JoinConversation(conversationId: ChannelId)
    | LeaveConversation(conversationId: ChannelId)
    | SendMessage(message: string, conversationId: ChannelId, userId: Option<string>)
    | Typing(conversationId: ChannelId, isTyping: bool)
    | CreateConversation(title: string, userId: Option<string>)
    | DeleteConversation(conversationId: ChannelId)
    | Disconnect

  /** The events the relay emits. */
  datatype OutEvent =
    | Connected(message: string, socketId: ConnId, timestamp: string)
    | Message(chat: ChatMessage)
    | UserTyping(userId: ConnId, isTyping: bool, conversationId: ChannelId)
    | ConversationCreated(conversation: Conversation)
    | ConversationDeleted(conversationId: ChannelId)

  /** One emission: an event and the set of sockets it reaches. */
  datatype Delivery = Delivery(recipients: set<ConnId>, event: OutEvent)

  const WelcomeText := "Connected to chat server"
  const EchoPrefix := "Echo: "
}
