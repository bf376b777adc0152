/**
  End-to-end traces of the relay for two sockets, each stated for every pair
  of distinct socket ids and every clock.
 */
module Scenarios {
  import opened Payloads
  import opened Membership
  import opened Relay

  /** A and B connected, nothing joined. */
  function TwoConnected(a: ConnId, b: ConnId, clock: Clock): (s: State)
    ensures s.conns == {a, b} && s.channels == map[] && s.pending == []
  {
    Connect(Connect(Init(), a, clock).next, b, clock).next
  }

  /**
    A and B both join "conv1" and A says "hi": both get the user message, and
    when the timer fires both get the assistant's echo on the same channel.
   */
  lemma SharedChannelBothReceive(a: ConnId, b: ConnId, clock: Clock, later: Clock)
    requires a != b
    ensures
      var s0 := TwoConnected(a, b, clock);
      var s1 := Step(Step(s0, a, JoinConversation("conv1"), clock).next, b, JoinConversation("conv1"), clock).next;
      var sent := Step(s1, a, SendMessage("hi", "conv1", None), clock);
      var fired := FireReply(sent.next, later);
      && |sent.outbox| == 1 && sent.outbox[0].recipients == {a, b}
      && sent.outbox[0].event.chat.content == "hi" && sent.outbox[0].event.chat.role == User
      && |fired.outbox| == 1 && fired.outbox[0].recipients == {a, b}
      && fired.outbox[0].event.chat.role == Assistant
      && fired.outbox[0].event.chat.conversationId == "conv1"
  {
  }

  /** Only A joins "conv1"; A's message on it does not reach B. */
  lemma NonMemberReceivesNothing(a: ConnId, b: ConnId, clock: Clock)
    requires a != b
    ensures
      var s1 := Step(TwoConnected(a, b, clock), a, JoinConversation("conv1"), clock).next;
      var sent := Step(s1, a, SendMessage("hello", "conv1", None), clock);
      |sent.outbox| == 1 && b !in sent.outbox[0].recipients && sent.outbox[0].recipients == {a}
  {
  }

  /** With no joins at all, a created conversation still reaches both sockets. */
  lemma CreateReachesEveryone(a: ConnId, b: ConnId, clock: Clock)
    requires a != b
    ensures
      var created := Step(TwoConnected(a, b, clock), b, CreateConversation("X", None), clock);
      && |created.outbox| == 1 && created.outbox[0].recipients == {a, b}
      && created.outbox[0].event.ConversationCreated?
      && created.outbox[0].event.conversation.title == "X"
  {
  }

  /** A joins "conv1" and disconnects: the channel has no members and no entry. */
  lemma DisconnectRemovesChannel(a: ConnId, b: ConnId, clock: Clock)
    requires a != b
    ensures
      var s1 := Step(TwoConnected(a, b, clock), a, JoinConversation("conv1"), clock).next;
      var s2 := Step(s1, a, Disconnect, clock).next;
      && Members(s2.channels, "conv1") == {} && "conv1" !in s2.channels
      && s2.conns == {b}
  {
  }
}
