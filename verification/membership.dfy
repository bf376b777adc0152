/**
  The channel membership table: conversation id -> set of socket ids
  (`activeConversations`). Socket.io's rooms change together with it on
  every join, leave, create, delete and disconnect, so this one table also
  stands for the rooms that fan-out reads.
 */
module Membership {
  import opened Payloads

  type Table = map<ChannelId, set<ConnId>>

  /** The members of a channel; an absent channel has none. */
  function Members(t: Table, c: ChannelId): set<ConnId> {
    if c in t then t[c] else {}
  }

  /** The channels a connection currently belongs to. */
  function ChannelsOf(t: Table, x: ConnId): set<ChannelId> {
    set c | c in t && x in t[c]
  }

  /** The table never keeps an entry whose member set is empty. */
  ghost predicate NoEmptyChannels(t: Table) {
    forall c :: c in t ==> t[c] != {}
  }

  /** Every member of every channel is a live connection. */
  ghost predicate MembersLive(t: Table, conns: set<ConnId>) {
    forall c :: c in t ==> t[c] <= conns
  }

  /** `join-conversation`: add the socket, creating the entry if absent. */
  function Join(t: Table, c: ChannelId, x: ConnId): (r: Table)
    ensures Members(r, c) == Members(t, c) + {x}
    ensures forall d :: d != c ==> Members(r, d) == Members(t, d)
    ensures r.Keys == t.Keys + {c}
    ensures NoEmptyChannels(t) ==> NoEmptyChannels(r)
  {
    t[c := Members(t, c) + {x}]
  }

  /**
    `leave-conversation`: remove the socket; an entry left empty is deleted.
    A channel that does not exist is left alone.
   */
  function Leave(t: Table, c: ChannelId, x: ConnId): (r: Table)
    ensures Members(r, c) == Members(t, c) - {x}
    ensures forall d :: d != c ==> Members(r, d) == Members(t, d)
    ensures c in r <==> Members(t, c) - {x} != {}
    ensures c !in t ==> r == t
    ensures r.Keys <= t.Keys
    ensures NoEmptyChannels(t) ==> NoEmptyChannels(r)
  {
    if c in t then
      var rest := t[c] - {x};
      if rest == {} then t - {c} else t[c := rest]
    else
      t
  }

  /** `delete-conversation`: the entry goes, whoever is in it. */
  function Drop(t: Table, c: ChannelId): (r: Table)
    ensures c !in r && Members(r, c) == {}
    ensures forall d :: d != c ==> Members(r, d) == Members(t, d)
    ensures r.Keys == t.Keys - {c}
    ensures NoEmptyChannels(t) ==> NoEmptyChannels(r)
  {
    t - {c}
  }

  /**
    `disconnect`: remove the socket from every set and delete every entry
    whose set is then empty.
   */
  function DropConn(t: Table, x: ConnId): (r: Table)
    ensures forall d :: Members(r, d) == Members(t, d) - {x}
    ensures forall d :: d in r <==> d in t && t[d] - {x} != {}
    ensures NoEmptyChannels(r)
  {
    map d | d in t && t[d] - {x} != {} :: t[d] - {x}
  }

  /** Joining twice has no effect beyond joining once. */
  lemma JoinIdempotent(t: Table, c: ChannelId, x: ConnId)
    ensures Join(Join(t, c, x), c, x) == Join(t, c, x)
  {
  }

  /** Leaving a channel one does not belong to changes nothing. */
  lemma LeaveNonMember(t: Table, c: ChannelId, x: ConnId)
    requires NoEmptyChannels(t)
    requires x !in Members(t, c)
    ensures Leave(t, c, x) == t
  {
    if c in t {
      assert t[c] - {x} == t[c];
    }
  }

  /** Leave undoes a join by a connection that was not already a member. */
  lemma LeaveUndoesJoin(t: Table, c: ChannelId, x: ConnId)
    requires NoEmptyChannels(t)
    requires x !in Members(t, c)
    ensures Leave(Join(t, c, x), c, x) == t
  {
    var r := Leave(Join(t, c, x), c, x);
    assert r.Keys == t.Keys;
    forall d | d in t
      ensures r[d] == t[d]
    {
      assert Members(r, d) == Members(t, d);
    }
  }

  /** A disconnect leaves the channel sets of every other connection as they were. */
  lemma DropConnKeepsOthers(t: Table, x: ConnId, y: ConnId)
    requires y != x
    ensures ChannelsOf(DropConn(t, x), y) == ChannelsOf(t, y)
  {
    var r := DropConn(t, x);
    forall c | c in ChannelsOf(t, y)
      ensures c in ChannelsOf(r, y)
    {
      assert y in Members(r, c);
    }
  }

  /** After a disconnect the connection belongs to no channel. */
  lemma DropConnLeavesNothing(t: Table, x: ConnId)
    ensures ChannelsOf(DropConn(t, x), x) == {}
  {
  }

  /** A join or a leave by one connection, as recorded in a trace. */
  datatype MembershipOp = JoinOp(channel: ChannelId) | LeaveOp(channel: ChannelId)

  /** Applies one connection's joins and leaves in order. */
  function Apply(t: Table, x: ConnId, ops: seq<MembershipOp>): Table
    decreases |ops|
  {
    if |ops| == 0 then t
    else
      var t' := match ops[0]
        case JoinOp(c) => Join(t, c, x)
        case LeaveOp(c) => Leave(t, c, x);
      Apply(t', x, ops[1..])
  }

  /** The channel set expected from the same ops: joined minus left, in order. */
  function Net(cs: set<ChannelId>, ops: seq<MembershipOp>): set<ChannelId>
    decreases |ops|
  {
    if |ops| == 0 then cs
    else
      var cs' := match ops[0]
        case JoinOp(c) => cs + {c}
        case LeaveOp(c) => cs - {c};
      Net(cs', ops[1..])
  }

  lemma JoinChannels(t: Table, c: ChannelId, x: ConnId, y: ConnId)
    ensures ChannelsOf(Join(t, c, x), y) == if y == x then ChannelsOf(t, y) + {c} else ChannelsOf(t, y)
  {
    var r := Join(t, c, x);
    forall d | d in ChannelsOf(r, y)
      ensures d in ChannelsOf(t, y) || (y == x && d == c)
    {
      assert y in Members(r, d);
    }
  }

  lemma LeaveChannels(t: Table, c: ChannelId, x: ConnId, y: ConnId)
    ensures ChannelsOf(Leave(t, c, x), y) == if y == x then ChannelsOf(t, y) - {c} else ChannelsOf(t, y)
  {
    var r := Leave(t, c, x);
    forall d | d in ChannelsOf(t, y) && (y != x || d != c)
      ensures d in ChannelsOf(r, y)
    {
      assert y in Members(r, d);
    }
  }

  /**
    For any sequence of joins and leaves by one connection, its channel set
    is exactly the net joined-minus-left set, and every other connection's
    channel set is unchanged.
   */
  lemma {:induction false} ApplyTracksNet(t: Table, x: ConnId, ops: seq<MembershipOp>, y: ConnId)
    ensures ChannelsOf(Apply(t, x, ops), x) == Net(ChannelsOf(t, x), ops)
    ensures y != x ==> ChannelsOf(Apply(t, x, ops), y) == ChannelsOf(t, y)
    decreases |ops|
  {
    if |ops| > 0 {
      match ops[0]
      case JoinOp(c) =>
        JoinChannels(t, c, x, x);
        JoinChannels(t, c, x, y);
        ApplyTracksNet(Join(t, c, x), x, ops[1..], y);
      case LeaveOp(c) =>
        LeaveChannels(t, c, x, x);
        LeaveChannels(t, c, x, y);
        ApplyTracksNet(Leave(t, c, x), x, ops[1..], y);
    }
  }
}
