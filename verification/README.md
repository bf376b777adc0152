# Chat relay and canned-reply route, modelled in Dafny

This project models two pieces of a Next.js chat application.

**The real-time conversation relay** (`setupSocket` in `src/lib/socket.ts`).
Connected sockets join named conversation channels. They send chat messages
and typing signals through those channels. Every connected socket is told when
a conversation is created or deleted. The relay's only state is an in-memory
map from conversation id to the set of socket ids in it. Socket.io's rooms
change together with that map on join, leave, create, delete and disconnect,
so the model keeps one membership relation and fan-out reads it.

The model is a pure state machine (`relay.dfy`):

- `State` holds the live sockets, the membership `Table` and the list of
  auto-replies whose one-second timers have not yet fired.
- `Step(state, socket, event, clock)` dispatches one inbound event to its
  handler (`OnJoin`, `OnLeave`, `OnSendMessage`, `OnTyping`, `OnCreate`,
  `OnDelete`, `OnDisconnect`). It returns the next state and an outbox.
- The outbox is a sequence of `Delivery(recipients, event)` values.
- `Connect` registers a socket and sends it the welcome event.
- `FireReply` runs the oldest pending timer. It sends `"Echo: " + message` to
  whoever is in the channel at that moment.

Each delivery's recipient set shows the source's scope:

- room members (`io.to`): `Members(channels, c)`;
- room members minus the sender (`socket.to`): `Members(channels, c) - {x}`;
- every connection (`io.emit`): `conns`;
- the sender only (`socket.emit`): `{x}`.

The membership table's operations and invariants are in `membership.dfy`. The
payload shapes are in `payloads.dfy`. The decimal rendering of
`Date.now()`, which names new messages and conversations, is in `decimal.dfy`.
`scenarios.dfy` proves the outcome of four two-socket scenarios for every pair
of distinct socket ids and every clock.

**The canned-reply route** (`src/app/api/chat/route.ts`). `generateAIResponse`
tests keyword rules in a fixed order on the lower-cased message, and the first
match wins. `POST` rejects a falsy `message` with a 400. Otherwise it returns
the reply and echoes `conversationId`. `chat_route.dfy` models both. It also
states the rules a second way, as an ordered table with a "first rule whose
keyword occurs" predicate written in terms of substring occurrences, and proves
that the two agree. `text.dfy` holds ASCII lower-casing and `includes`.

Behaviour of the code that the model keeps:

- The assistant reply's id is `(Date.now() + 1).toString()`, read inside the
  timer callback, so it comes from the clock at firing time and not from the
  user message's id. It would be the user id plus one only if both clock
  readings were equal. That cannot happen, because the callback runs 1000 ms
  after the send, unless the wall clock steps back between the send and the
  timer firing. Once that delay has passed, the reply's id is more than
  1000 past the user id (`Relay.ReplyIdFollowsUserId`).
- A "new" conversation's id is the clock reading. If that string already names
  a channel, the creator is added to the existing members. The creator is the
  only member only when the id was not already a channel (`Relay.OnCreate`).
- `send-message` reaches the members of the channel. The sender receives its
  own message only if it is a member.
- `delete-conversation` broadcasts even when the channel did not exist.
- The identity phrase `'what should I call you'` contains an upper-case `I`.
  It is compared against the lower-cased message, so it can never match
  (`ChatRoute.CallYouPhraseNeverMatches`).
- Any message containing `hi` (as in "this", "which" or "nothing") is answered
  by the identity or the greeting reply. It never gets the weather, time or
  help reply.

## Model

| member | source | states |
|---|---|---|
| Decimal.FromNat | src/lib/socket.ts:61 | `Date.now().toString()` is a non-empty digit string with no leading zero |
| Decimal.RoundTrip | src/lib/socket.ts:61 | reading the rendered id back as a number gives the clock reading it came from |
| Decimal.Injective | src/lib/socket.ts:101 | two ids made from the clock are equal exactly when the clock readings are equal |
| Membership.Join | src/lib/socket.ts:28-33 | joining adds the socket to the channel and creates the entry if absent; other channels are unchanged; no empty entry appears |
| Membership.Leave | src/lib/socket.ts:40-45 | leaving removes the socket; the entry stays exactly when members remain; an absent channel leaves the table as it was; other channels are unchanged |
| Membership.Drop | src/lib/socket.ts:121-122 | deleting removes the channel entry whoever is in it, and nothing else |
| Membership.DropConn | src/lib/socket.ts:133-138 | disconnect removes the socket from every set and keeps an entry exactly when members remain |
| Membership.JoinIdempotent | src/lib/socket.ts:30-33 | joining twice gives the same table as joining once |
| Membership.LeaveNonMember | src/lib/socket.ts:41-45 | leaving a channel one is not in, or one that does not exist, changes nothing |
| Membership.LeaveUndoesJoin | src/lib/socket.ts:28-45 | a leave right after a join by a non-member restores the table |
| Membership.DropConnKeepsOthers | src/lib/socket.ts:133-138 | a disconnect leaves every other socket's channel set unchanged |
| Membership.DropConnLeavesNothing | src/lib/socket.ts:133-138 | after a disconnect the socket is in no channel |
| Membership.ApplyTracksNet | src/lib/socket.ts:27-48 | after any sequence of joins and leaves by one socket, its channel set is the net joined-minus-left set, and other sockets' sets are unchanged |
| Relay.Init | src/lib/socket.ts:20 | the relay starts with no sockets and an empty table, which satisfies the invariants |
| Relay.Connect | src/lib/socket.ts:149-153 | a new socket is registered and only it receives the welcome event carrying its id |
| Relay.OnJoin | src/lib/socket.ts:27-36 | join adds the sender to the channel, emits nothing and keeps the invariants |
| Relay.OnLeave | src/lib/socket.ts:39-48 | leave removes the sender, drops the entry exactly when it empties, emits nothing and keeps the invariants |
| Relay.OnSendMessage | src/lib/socket.ts:51-68 | one user message with the given text, channel and clock id goes to exactly the channel's members; one reply is scheduled; membership is unchanged |
| Relay.OnTyping | src/lib/socket.ts:90-96 | the typing signal `{sender, isTyping, channel}` reaches every other member and never the sender; state is unchanged |
| Relay.OnCreate | src/lib/socket.ts:99-116 | the new conversation goes to every live socket; afterwards the creator is in its channel, and is alone there when the id was new |
| Relay.OnDelete | src/lib/socket.ts:119-126 | the channel entry is gone, other channels are unchanged, and its id goes to every live socket |
| Relay.OnDisconnect | src/lib/socket.ts:129-138 | the socket leaves every channel, emptied channels disappear, nobody is notified and pending replies stay |
| Relay.Step | src/lib/socket.ts:23-146 | every inbound event from a live socket keeps the invariants; only disconnect changes the socket set and only send-message schedules a reply |
| Relay.FireReply | src/lib/socket.ts:71-81 | the oldest timer sends an assistant message `"Echo: " + text` on the same channel to its members at firing time, nobody if the channel is gone, with id from the firing clock plus one |
| Relay.EchoOf | src/lib/socket.ts:74 | the reply text is `"Echo: "` followed by the user's text unchanged |
| Relay.ReplyIdFollowsUserId | src/lib/socket.ts:61-81 | whenever a message's reply fires, whatever else was pending, its id differs from the user message's id if the clock has not gone back; it is one more exactly when both readings are equal, and more than the 1000 ms delay past it once the timer's delay has elapsed |
| Relay.RunPreservesValid | src/lib/socket.ts:18-155 | along any trace of connects, events and timer firings, no channel entry is ever empty and every member is a live socket |
| Relay.ReachableIsValid | src/lib/socket.ts:18-155 | every state reachable from the start satisfies the invariants |
| Scenarios.SharedChannelBothReceive | src/lib/socket.ts:60-81 | A and B in `conv1`: A's "hi" reaches both as a user message, and the assistant echo later reaches both on `conv1` |
| Scenarios.NonMemberReceivesNothing | src/lib/socket.ts:68 | a socket that did not join a channel receives nothing sent on it |
| Scenarios.CreateReachesEveryone | src/lib/socket.ts:108 | with no joins at all, a created conversation titled "X" reaches both sockets |
| Scenarios.DisconnectRemovesChannel | src/lib/socket.ts:133-138 | a channel whose only member disconnects has no members and no entry |
| Text.Lower | src/app/api/chat/route.ts:29 | lower-casing keeps the length, maps each character on its own, and leaves no upper-case ASCII letter |
| Text.LowerIdempotent | src/app/api/chat/route.ts:21 | lower-casing twice equals lower-casing once |
| Text.Contains | src/app/api/chat/route.ts:31 | `includes`, tried offset by offset; its meaning is stated by `Text.ContainsIffOccurs` |
| Text.ContainsIffOccurs | src/app/api/chat/route.ts:31 | `includes` holds exactly when the keyword occurs at some offset |
| Text.ContainsAny | src/app/api/chat/route.ts:20-22 | `some(q => includes(q))` holds exactly when one of the phrases is contained |
| Text.UpperNeverInLower | src/app/api/chat/route.ts:20-22 | a phrase with an upper-case letter is never contained in lower-cased text |
| ChatRoute.ClassifyLowered | src/app/api/chat/route.ts:20-50 | the chain of keyword tests on the lower-cased message, in source order; specified by `ChatRoute.ClassifyIsFirstMatch` |
| ChatRoute.Classify | src/app/api/chat/route.ts:29 | the chain applied to `message.toLowerCase()`; specified by `ChatRoute.ClassifyIsFirstMatch` and `ChatRoute.ClassifyIgnoresCase` |
| ChatRoute.ReplyFor | src/app/api/chat/route.ts:25-52 | every reply is non-empty; the default reply is fixed text around the message verbatim |
| ChatRoute.GenerateAIResponse | src/app/api/chat/route.ts:9-53 | the function is total and never returns an empty string; the default reply embeds the original, not lower-cased, message |
| ChatRoute.ClassifyIsFirstMatch | src/app/api/chat/route.ts:20-52 | the chosen rule is exactly the first rule, in source order, whose keyword occurs in the lower-cased message; the default is chosen exactly when none occurs |
| ChatRoute.CaseInsensitive | src/app/api/chat/route.ts:20-29 | two messages with the same lower-cased form get the same rule, and the same reply unless it is the default |
| ChatRoute.ClassifyIgnoresCase | src/app/api/chat/route.ts:29 | lower-casing a message first does not change the rule that answers it |
| ChatRoute.CallYouPhraseNeverMatches | src/app/api/chat/route.ts:15-22 | `'what should I call you'` is never contained in a lower-cased message |
| ChatRoute.IdentityIgnoresCallYouPhrase | src/app/api/chat/route.ts:11-22 | the identity check gives the same answer with that phrase removed from the list |
| ChatRoute.HiShadowsLaterRules | src/app/api/chat/route.ts:31-49 | a message containing `hi` gets the identity or the greeting reply, never the weather, time or help reply |
| ChatRoute.ThisWeatherIsGreeted | src/app/api/chat/route.ts:31-41 | "this weather" is classified as a greeting |
| ChatRoute.Truthy | src/app/api/chat/route.ts:59 | `!message` holds exactly for the five falsy JSON values: missing, `null`, `false`, `0` and `""` |
| ChatRoute.Post | src/app/api/chat/route.ts:55-85 | a falsy message gives 400 `Message is required`; a non-empty string gives the reply and the echoed `conversationId`; an unreadable body or a non-string message gives 500 |

## Left out

- `console.log` and `console.error` calls: logging only.
- Inbound payloads are typed, in every handler. A `null` or malformed payload would throw when its fields are read: in `send-message` (src/lib/socket.ts:57), `typing` (src/lib/socket.ts:91) and `create-conversation` (src/lib/socket.ts:102). So the `try`/`catch` in `send-message` (src/lib/socket.ts:83-86) and its `error` emit are not modelled. A Dafny `string` is a sequence of Unicode scalar values, while a JavaScript string is a sequence of UTF-16 code units. That makes no difference for the ASCII keywords.
- `userSockets` (src/lib/socket.ts:21, 141-145): nothing ever adds to it, so it is always empty.
- Socket.io's private room per socket: `io.to(c)` with `c` equal to some socket's id would also reach that socket. The model's one membership relation does not include these rooms.
- Timer timing: `setTimeout`'s delay is not modelled. Timers fire one at a time, oldest first, at any point between other events, and none is ever cancelled.
- Clock readings: `Date.now()` and `new Date().toISOString()` are parameters. The ISO timestamp's format is not modelled.
- Decimal.FromNat: `Clock.now` is unbounded. JavaScript prints numbers from 1e21 up in exponent form and is exact only up to 2^53, so the model matches `toString()` for real clock readings only. Those stay below 8.64e15.
- Relay.Connect: does not require the new socket id to be fresh. Socket.io guarantees that and nothing in the handler depends on it.
- Transport, room internals and the server bootstrap (src/pages/api/socketio.ts), the client wrapper (src/hooks/use-socket.ts), the UI and the database routes: outside the relay and the chat route.
- Text.Lower: lower-cases ASCII letters only. JavaScript's `toLowerCase` also maps other Unicode letters, and some of them change length.
- ChatRoute.Post: the 500 response's `details` text (the caught error's message) is not modelled. JSON numbers are integers here, so fractional numbers are left out. Their truthiness is the same as any non-zero number's.
