/**
  The connection handler of `setupSocket` as a pure state machine. A state
  holds the live sockets, the membership table and the auto-replies whose
  one-second timers have not fired yet. Each inbound event is a function
  from a state to the next state plus an outbox of deliveries.
 */
module Relay {
  import opened Payloads
  import opened Membership
  import Decimal

  /** A scheduled `setTimeout` callback: it keeps only the channel and the text. */
  datatype PendingReply = PendingReply(conversationId: ChannelId, message: string)

  datatype State = State(conns: set<ConnId>, channels: Table, pending: seq<PendingReply>)

  datatype Transition = Transition(next: State, outbox: seq<Delivery>)

  ghost predicate Valid(s: State) {
    NoEmptyChannels(s.channels) && MembersLive(s.channels, s.conns)
  }

  function Init(): (s: State)
    ensures Valid(s) && s.conns == {} && s.channels == map[]
  {
    State({}, map[], [])
  }

  /** A new socket: it is registered and is sent the welcome event, and nobody else is. */
  function Connect(s: State, x: ConnId, clock: Clock): (r: Transition)
    ensures r.next.conns == s.conns + {x}
    ensures r.next.channels == s.channels && r.next.pending == s.pending
    ensures r.outbox == [Delivery({x}, Connected(WelcomeText, x, clock.iso))]
    ensures Valid(s) ==> Valid(r.next)
  {
    Transition(s.(conns := s.conns + {x}), [Delivery({x}, Connected(WelcomeText, x, clock.iso))])
  }

  function OnJoin(s: State, x: ConnId, c: ChannelId): (r: Transition)
    requires x in s.conns
    ensures Members(r.next.channels, c) == Members(s.channels, c) + {x}
    ensures forall d :: d != c ==> Members(r.next.channels, d) == Members(s.channels, d)
    ensures r.next.conns == s.conns && r.next.pending == s.pending
    ensures r.outbox == []
    ensures Valid(s) ==> Valid(r.next)
  {
    Transition(s.(channels := Join(s.channels, c, x)), [])
  }

  function OnLeave(s: State, x: ConnId, c: ChannelId): (r: Transition)
    requires x in s.conns
    ensures Members(r.next.channels, c) == Members(s.channels, c) - {x}
    ensures forall d :: d != c ==> Members(r.next.channels, d) == Members(s.channels, d)
    ensures c in r.next.channels <==> Members(s.channels, c) - {x} != {}
    ensures r.next.conns == s.conns && r.next.pending == s.pending
    ensures r.outbox == []
    ensures Valid(s) ==> Valid(r.next)
  {
    Transition(s.(channels := Leave(s.channels, c, x)), [])
  }

  /**
    `send-message`: one user message to the channel's members as they are
    now (the sender gets it only if it is a member), and one auto-reply
    scheduled. Membership does not change.
   */
  function OnSendMessage(s: State, x: ConnId, message: string, c: ChannelId, clock: Clock): (r: Transition)
    requires x in s.conns
    ensures |r.outbox| == 1
    ensures r.outbox[0].recipients == Members(s.channels, c)
    ensures x in r.outbox[0].recipients <==> x in Members(s.channels, c)
    ensures r.outbox[0].event.Message?
    ensures var m := r.outbox[0].event.chat;
      && m.role == User && m.content == message && m.conversationId == c
      && m.id == Decimal.FromNat(clock.now) && m.timestamp == clock.iso
    ensures r.next.conns == s.conns && r.next.channels == s.channels
    ensures r.next.pending == s.pending + [PendingReply(c, message)]
    ensures Valid(s) ==> Valid(r.next)
  {
    var userMessage := ChatMessage(Decimal.FromNat(clock.now), message, User, c, clock.iso);
    Transition(s.(pending := s.pending + [PendingReply(c, message)]),
               [Delivery(Members(s.channels, c), Message(userMessage))])
  }

  /** `typing`: relayed to the channel's other members, never back to the sender. */
  function OnTyping(s: State, x: ConnId, c: ChannelId, isTyping: bool): (r: Transition)
    requires x in s.conns
    ensures |r.outbox| == 1
    ensures x !in r.outbox[0].recipients
    ensures forall y :: y in r.outbox[0].recipients <==> y in Members(s.channels, c) && y != x
    ensures r.outbox[0].event == UserTyping(x, isTyping, c)
    ensures r.next == s
  {
    Transition(s, [Delivery(Members(s.channels, c) - {x}, UserTyping(x, isTyping, c))])
  }

  /**
    `create-conversation`: the new conversation, named after the clock, goes
    to every live socket whatever it has joined; then the creator joins it.
    If that id already names a channel, the creator is added to its members.
   */
  function OnCreate(s: State, x: ConnId, title: string, userId: Option<string>, clock: Clock): (r: Transition)
    requires x in s.conns
    ensures var id := Decimal.FromNat(clock.now);
      && r.outbox == [Delivery(s.conns, ConversationCreated(Conversation(id, title, userId, clock.iso)))]
      && Members(r.next.channels, id) == Members(s.channels, id) + {x}
      && (id !in s.channels ==> Members(r.next.channels, id) == {x})
      && (forall d :: d != id ==> Members(r.next.channels, d) == Members(s.channels, d))
    ensures r.next.conns == s.conns && r.next.pending == s.pending
    ensures Valid(s) ==> Valid(r.next)
  {
    var conversation := Conversation(Decimal.FromNat(clock.now), title, userId, clock.iso);
    Transition(s.(channels := Join(s.channels, conversation.id, x)),
               [Delivery(s.conns, ConversationCreated(conversation))])
  }

  /** `delete-conversation`: the channel is gone and every live socket is told. */
  function OnDelete(s: State, c: ChannelId): (r: Transition)
    ensures c !in r.next.channels
    ensures forall d :: d != c ==> Members(r.next.channels, d) == Members(s.channels, d)
    ensures r.outbox == [Delivery(s.conns, ConversationDeleted(c))]
    ensures r.next.conns == s.conns && r.next.pending == s.pending
    ensures Valid(s) ==> Valid(r.next)
  {
    Transition(s.(channels := Drop(s.channels, c)), [Delivery(s.conns, ConversationDeleted(c))])
  }

  /**
    `disconnect`: the socket leaves every channel, channels left empty are
    removed, nobody is notified, and scheduled replies stay scheduled.
   */
  function OnDisconnect(s: State, x: ConnId): (r: Transition)
    ensures r.next.conns == s.conns - {x}
    ensures forall d :: Members(r.next.channels, d) == Members(s.channels, d) - {x}
    ensures forall d :: d in r.next.channels <==> Members(s.channels, d) - {x} != {}
    ensures r.outbox == [] && r.next.pending == s.pending
    ensures Valid(s) ==> Valid(r.next)
  {
    Transition(State(s.conns - {x}, DropConn(s.channels, x), s.pending), [])
  }

  /** Dispatches one inbound event from a live socket to its handler. */
  function Step(s: State, x: ConnId, ev: InEvent, clock: Clock): (r: Transition)
    requires x in s.conns
    ensures Valid(s) ==> Valid(r.next)
    ensures !ev.Disconnect? ==> r.next.conns == s.conns
    ensures !ev.SendMessage? ==> r.next.pending == s.pending
    ensures ev.SendMessage? || ev.Typing? ==> r.next.channels == s.channels
  {
    match ev
    case JoinConversation(c) => OnJoin(s, x, c)
    case LeaveConversation(c) => OnLeave(s, x, c)
    case SendMessage(message, c, _) => OnSendMessage(s, x, message, c, clock)
    case Typing(c, isTyping) => OnTyping(s, x, c, isTyping)
    case CreateConversation(title, userId) => OnCreate(s, x, title, userId, clock)
    case DeleteConversation(c) => OnDelete(s, c)
    case Disconnect => OnDisconnect(s, x)
  }

  /** The reply text the one-second timer sends. */
  function EchoOf(message: string): (e: string)
    ensures |e| == |EchoPrefix| + |message|
    ensures e[..|EchoPrefix|] == EchoPrefix && e[|EchoPrefix|..] == message
  {
    EchoPrefix + message
  }

  /**
    The oldest pending timer fires (all share the same delay, so they fire in
    the order they were set). The reply goes to whoever is in the channel at
    this moment; a channel that has gone away means nobody. Its id comes from
    the clock read now, plus one.
   */
  function FireReply(s: State, clock: Clock): (r: Transition)
    requires |s.pending| > 0
    ensures |r.outbox| == 1
    ensures r.outbox[0].recipients == Members(s.channels, s.pending[0].conversationId)
    ensures s.pending[0].conversationId !in s.channels ==> r.outbox[0].recipients == {}
    ensures r.outbox[0].event.Message?
    ensures var m := r.outbox[0].event.chat;
      && m.role == Assistant && m.content == EchoOf(s.pending[0].message)
      && m.conversationId == s.pending[0].conversationId
      && m.id == Decimal.FromNat(clock.now + 1) && m.timestamp == clock.iso
    ensures r.next.conns == s.conns && r.next.channels == s.channels
    ensures r.next.pending == s.pending[1..]
    ensures Valid(s) ==> Valid(r.next)
  {
    var p := s.pending[0];
    var aiMessage := ChatMessage(Decimal.FromNat(clock.now + 1), EchoOf(p.message), Assistant, p.conversationId, clock.iso);
    Transition(s.(pending := s.pending[1..]), [Delivery(Members(s.channels, p.conversationId), Message(aiMessage))])
  }

  /** The auto-reply timer's delay in milliseconds. */
  const ReplyDelay: nat := 1000

  /**
    A user message and its auto-reply, whenever that reply fires: `u` is any
    later state in which this message's reply is the oldest one pending. The
    two carry different ids whenever the clock has not gone backwards between
    send and fire. The reply's id is the user message's id plus one exactly
    when both readings are equal; once the timer's full delay has passed,
    the reply's id is more than the delay past the user message's id.
   */
  lemma ReplyIdFollowsUserId(s: State, x: ConnId, message: string, c: ChannelId, sent: Clock,
                             u: State, fired: Clock)
    requires x in s.conns
    requires |u.pending| > 0 && u.pending[0] == OnSendMessage(s, x, message, c, sent).next.pending[|s.pending|]
    requires sent.now <= fired.now
    ensures var t := OnSendMessage(s, x, message, c, sent);
      var f := FireReply(u, fired);
      && f.outbox[0].event.chat.id != t.outbox[0].event.chat.id
      && f.outbox[0].event.chat.conversationId == t.outbox[0].event.chat.conversationId
      && (sent.now == fired.now <==>
            Decimal.ToNat(f.outbox[0].event.chat.id) == Decimal.ToNat(t.outbox[0].event.chat.id) + 1)
      && (fired.now >= sent.now + ReplyDelay ==>
            Decimal.ToNat(f.outbox[0].event.chat.id) > Decimal.ToNat(t.outbox[0].event.chat.id) + ReplyDelay)
  {
    Decimal.Injective(fired.now + 1, sent.now);
    Decimal.RoundTrip(sent.now);
    Decimal.RoundTrip(fired.now + 1);
  }

  /** Everything that can happen to the relay, one thing at a time. */
  datatype Input =
    | Open(conn: ConnId, clock: Clock)
    | Receive(conn: ConnId, event: InEvent, clock: Clock)
    | Timer(clock: Clock)

  /**
    Runs a trace of inputs. `None` marks a trace the runtime cannot produce:
    an event from a socket that is not connected, or a timer with nothing
    scheduled.
   */
  function Run(s: State, trace: seq<Input>): Option<State>
    decreases |trace|
  {
    if |trace| == 0 then Some(s)
    else
      match trace[0]
      case Open(x, clock) => Run(Connect(s, x, clock).next, trace[1..])
      case Receive(x, ev, clock) =>
        if x in s.conns then Run(Step(s, x, ev, clock).next, trace[1..]) else None
      case Timer(clock) =>
        if |s.pending| > 0 then Run(FireReply(s, clock).next, trace[1..]) else None
  }

  /** Every state reachable from a valid state keeps the table's invariants. */
  lemma {:induction false} RunPreservesValid(s: State, trace: seq<Input>)
    requires Valid(s)
    ensures Run(s, trace).Some? ==> Valid(Run(s, trace).value)
    decreases |trace|
  {
    if |trace| > 0 {
      match trace[0]
      case Open(x, clock) => RunPreservesValid(Connect(s, x, clock).next, trace[1..]);
      case Receive(x, ev, clock) =>
        if x in s.conns {
          RunPreservesValid(Step(s, x, ev, clock).next, trace[1..]);
        }
      case Timer(clock) =>
        if |s.pending| > 0 {
          RunPreservesValid(FireReply(s, clock).next, trace[1..]);
        }
    }
  }

  /** Starting from no connections, no channel is ever empty and every member is live. */
  lemma ReachableIsValid(trace: seq<Input>)
    ensures Run(Init(), trace).Some? ==> Valid(Run(Init(), trace).value)
  {
    RunPreservesValid(Init(), trace);
  }
}
