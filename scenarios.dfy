/**
 * Sequences of commands from several users, checked against the handlers'
 * contracts alone.
 */
module Scenarios {
  import opened Wrappers
  import opened Envelope
  import opened Gochat

  /**
   * Two users connecting to the same channel id end up in one channel
   * instance, registered once, holding both of them.
   */
  method ConnectTwiceSameChannel(u1: User, u2: User, m1: Message, m2: Message)
    requires u1 != u2 && u1.server == u2.server
    requires m1.user.Some? && m1.channel.Some? && m2.user.Some? && m2.channel.Some?
    requires m1.channel.value.id == m2.channel.value.id
    modifies u1, u2, u1.server, u1.ExistingChannel(m1)
    ensures u1.channel != null && u2.channel == u1.channel
    ensures u1.server.channels == old(u1.server.channels)[m1.channel.value.id := u1.channel]
    ensures m1.channel.value.id !in old(u1.server.channels) ==> fresh(u1.channel)
    ensures m2.user.value.id in u1.channel.users && u1.channel.users[m2.user.value.id] == u2
    ensures m1.user.value.id != m2.user.value.id ==>
      m1.user.value.id in u1.channel.users && u1.channel.users[m1.user.value.id] == u1
  {
    u1.HandleUserConnect(m1);
    u2.HandleUserConnect(m2);
  }

  /**
   * The last member leaving a group removes it from the channel, so joining
   * that group id again creates a fresh group holding only the joiner.
   */
  method LeaveLastThenRejoin(u: User, leave: Message, join: Message)
    requires u.channel != null && leave.group.Some? && join.group == leave.group
    requires leave.group.value.id in u.channel.groups
    requires u.channel.groups[leave.group.value.id].id == leave.group.value.id
    requires u.channel.groups[leave.group.value.id].users == map[u.id := u]
    modifies u, u.channel, u.NamedGroup(leave)
    ensures u.channel == old(u.channel) && leave.group.value.id in u.channel.groups
    ensures fresh(u.channel.groups[leave.group.value.id])
    ensures u.channel.groups[leave.group.value.id].users == map[u.id := u]
  {
    u.HandleGroupLeave(leave);
    u.HandleGroupJoin(join);
  }

  /**
   * A user that disconnects is removed from its channel but not from its
   * groups, so a later group send still appends a copy to its closed queue
   * and acknowledges the sender.
   */
  method GroupSendAfterDisconnect(x: User, y: User, m: Message, gid: string)
    requires x != y && x.id != y.id && !x.closed
    requires x.channel != null && y.channel == x.channel
    requires m.command == MessageSend && m.message.Some? && m.target.Some?
    requires m.target.value.kind == ToGroup && m.target.value.group.Some? && m.target.value.group.value.id == gid
    requires gid in x.channel.groups && x.channel.groups[gid].users == map[x.id := x, y.id := y]
    modifies x, x.channel, y
    ensures x.closed
    ensures |x.send| == |old(x.send)| + 1 && x.send[..|old(x.send)|] == old(x.send)
    ensures |y.send| == |old(y.send)| + 1 && y.send[|y.send| - 1].response == Some(Response(true, Success))
  {
    ghost var members := x.channel.groups[gid].users;
    x.HandleUserDisconnect();
    y.Dispatch(m);
    assert members[x.id] == x;
    OneCopyPerMember(members, x, y.id);
  }

  /**
   * A user that has moved to another channel is still in the user map of the
   * channel it left. Once it disconnects, a direct send from that earlier
   * channel still appends to its closed queue and acknowledges the sender.
   */
  method DirectSendAfterMoveAndDisconnect(u: User, v: User, m: Message, tid: string)
    requires u != v && !u.closed && v.channel != null && u.channel != v.channel
    requires tid in v.channel.users && v.channel.users[tid] == u
    requires m.command == MessageSend && m.message.Some? && m.target.Some?
    requires m.target.value.kind == Direct && m.target.value.user.Some? && m.target.value.user.value.id == tid
    modifies u, u.channel, v
    ensures u.closed && u.send == old(u.send) + [m]
    ensures |v.send| == |old(v.send)| + 1 && v.send[|v.send| - 1].response == Some(Response(true, Success))
  {
    u.HandleUserDisconnect();
    v.Dispatch(m);
  }
}
