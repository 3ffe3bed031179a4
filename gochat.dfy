/**
 * The router of gochat as a sequential state machine. Every goroutine and
 * channel hand-off of gochat becomes a synchronous update of the state
 * its receiver owns: a send on a channel's or group's register/unregister
 * mailbox is an immediate insert or delete keyed by the entity's ID, and a
 * send on a user's outbound queue appends the envelope to that user's
 * `send` sequence.
 */
module Gochat {
  import opened Wrappers
  import opened Envelope
  import Registry
  import opened Outbound

  // Activity types a user emits on its activity stream.
  const TypeUserActivityChannelConnect := "user-channel-connect"
  const TypeUserActivityGroupJoin := "user-group-join"
  const TypeUserActivityGroupLeave := "user-group-leave"
  const TypeUserActivityMessageSend := "user-message-send"
  const TypeUserActivityDisconnect := "user-disconnect"

  /** One event of a user's activity stream. */
  datatype Activity = Activity(kind: string, message: Option<Message>)

  /** The activity the read pump emits before handling `m`; none for an unknown command. */
  function ActivityOf(m: Message): (r: seq<Activity>)
    ensures m.command.Unknown? <==> r == []
    ensures r != [] ==> r == [Activity(r[0].kind, Some(m))]
    ensures m.command == UserConnect ==> r == [Activity(TypeUserActivityChannelConnect, Some(m))]
    ensures m.command == MessageSend ==> r == [Activity(TypeUserActivityMessageSend, Some(m))]
    ensures m.command == GroupJoin ==> r == [Activity(TypeUserActivityGroupJoin, Some(m))]
    ensures m.command == GroupLeave ==> r == [Activity(TypeUserActivityGroupLeave, Some(m))]
  {
    match m.command
    case UserConnect => [Activity(TypeUserActivityChannelConnect, Some(m))]
    case MessageSend => [Activity(TypeUserActivityMessageSend, Some(m))]
    case GroupJoin => [Activity(TypeUserActivityGroupJoin, Some(m))]
    case GroupLeave => [Activity(TypeUserActivityGroupLeave, Some(m))]
    case Unknown(_) => []
  }

  /** `n` copies of `x`. */
  function Repeat<T>(x: T, n: nat): (r: seq<T>)
    ensures |r| == n
  {
    if n == 0 then [] else Repeat(x, n - 1) + [x]
  }

  // ---------------------------------------------------------------- server

  /** What arrives on the server's two mailboxes. */
  datatype ServerEvent = RegisterChannel(channel: Channel) | UnregisterChannel(channel: Channel)

  /** A server event as a registry event: both are keyed by the channel's ID. */
  function AsRegistryEvent(e: ServerEvent): Registry.Event<Channel>
  {
    match e
    case RegisterChannel(c) => Registry.Register(c.id, c)
    case UnregisterChannel(c) => Registry.Unregister(c.id)
  }

  function AsRegistryEvents(es: seq<ServerEvent>): (r: seq<Registry.Event<Channel>>)
    ensures |r| == |es|
    ensures forall i :: 0 <= i < |es| ==> r[i] == AsRegistryEvent(es[i])
  {
    if es == [] then [] else AsRegistryEvents(es[..|es| - 1]) + [AsRegistryEvent(es[|es| - 1])]
  }

  /** Every channel is stored under its own ID. */
  ghost predicate KeyedById(channels: map<string, Channel>)
  {
    forall k :: k in channels ==> channels[k].id == k
  }

  /** The server's event loop keeps every channel stored under its own ID. */
  lemma {:induction false} ReplayKeepsKeyed(m: map<string, Channel>, es: seq<ServerEvent>)
    requires KeyedById(m)
    ensures KeyedById(Registry.Replay(m, AsRegistryEvents(es)))
  {
    if es != [] {
      var init := es[..|es| - 1];
      ReplayKeepsKeyed(m, init);
      var evs := AsRegistryEvents(es);
      assert evs[..|evs| - 1] == AsRegistryEvents(init);
    }
  }

  /** The global registry of channels. */
  class Server {
    var channels: map<string, Channel>

    constructor ()
      ensures channels == map[]
    {
      channels := map[];
    }

    /** The channel registered under `id`, or null. */
    function FindChannelByID(id: string): (c: Channel?)
      reads this
      ensures c != null <==> id in channels
      ensures c != null ==> c == channels[id]
      ensures Registry.Find(channels, id) == if c == null then None else Some(c)
    {
      if id in channels then channels[id] else null
    }

    method HandleRegisterChannel(c: Channel)
      modifies this
      ensures channels == Registry.Insert(old(channels), c.id, c)
      ensures KeyedById(old(channels)) ==> KeyedById(channels)
    {
      if c.id !in channels {
        channels := channels[c.id := c];
      }
    }

    method HandleUnregisterChannel(c: Channel)
      modifies this
      ensures channels == Registry.Delete(old(channels), c.id)
    {
      channels := channels - {c.id};
    }

    /** The server loop, handling the events in the order they arrive. */
    method Run(events: seq<ServerEvent>)
      modifies this
      ensures channels == Registry.Replay(old(channels), AsRegistryEvents(events))
    {
      for i := 0 to |events|
        invariant channels == Registry.Replay(old(channels), AsRegistryEvents(events[..i]))
      {
        var evs := AsRegistryEvents(events[..i + 1]);
        assert evs[..i] == AsRegistryEvents(events[..i]);
        match events[i]
        case RegisterChannel(c) => HandleRegisterChannel(c);
        case UnregisterChannel(c) => HandleUnregisterChannel(c);
      }
      assert events[..|events|] == events;
    }
  }

  // ---------------------------------------------------------------- channel and group

  /** A channel: its users and groups, each keyed by ID. */
  class Channel {
    const id: string
    const name: string
    const info: map<string, string>
    var users: map<string, User>
    var groups: map<string, Group>

    constructor (id: string, name: string, info: map<string, string>)
      ensures this.id == id && this.name == name && this.info == info
      ensures users == map[] && groups == map[]
    {
      this.id, this.name, this.info := id, name, info;
      users, groups := map[], map[];
    }

    function FindUserByID(uid: string): (u: User?)
      reads this
      ensures u != null <==> uid in users
      ensures u != null ==> u == users[uid]
    {
      if uid in users then users[uid] else null
    }

    function FindGroupByID(gid: string): (g: Group?)
      reads this
      ensures g != null <==> gid in groups
      ensures g != null ==> g == groups[gid]
    {
      if gid in groups then groups[gid] else null
    }

    method RegisterUser(u: User)
      modifies this`users
      ensures users == old(users)[u.id := u]
    {
      users := users[u.id := u];
    }

    method UnregisterUser(u: User)
      modifies this`users
      ensures users == old(users) - {u.id}
    {
      users := users - {u.id};
    }

    method RegisterGroup(g: Group)
      modifies this`groups
      ensures groups == old(groups)[g.id := g]
    {
      groups := groups[g.id := g];
    }

    method UnregisterGroup(g: Group)
      modifies this`groups
      ensures groups == old(groups) - {g.id}
    {
      groups := groups - {g.id};
    }
  }

  /** A group inside a channel: its members keyed by ID. */
  class Group {
    const id: string
    const name: string
    const info: map<string, string>
    var users: map<string, User>

    constructor (id: string, name: string, info: map<string, string>)
      ensures this.id == id && this.name == name && this.info == info
      ensures users == map[]
    {
      this.id, this.name, this.info := id, name, info;
      users := map[];
    }

    function Identity(): Profile
    {
      Profile(id, name, info)
    }

    method RegisterUser(u: User)
      modifies this
      ensures users == old(users)[u.id := u]
    {
      users := users[u.id := u];
    }

    method UnregisterUser(u: User)
      modifies this
      ensures users == old(users) - {u.id}
    {
      users := users - {u.id};
    }
  }

  // ---------------------------------------------------------------- broadcast counting

  /** 1 when key `k` maps `u` in `users`, else 0. */
  function Hit(users: map<string, User>, k: string, u: User): nat
  {
    if k in users && users[k] == u then 1 else 0
  }

  /** How many of the keys in `keys` map `u` in `users`, counted one key at a time. */
  ghost function Hits(users: map<string, User>, keys: set<string>, u: User): nat
    decreases keys
  {
    if keys == {} then 0
    else
      var k :| k in keys;
      Hits(users, keys - {k}, u) + Hit(users, k, u)
  }

  /** How many copies a group broadcast from `sender` puts on `u`'s queue. */
  ghost function Copies(users: map<string, User>, u: User, sender: string): nat
    reads u
  {
    if u.id == sender then 0 else Hits(users, users.Keys, u)
  }

  /** The count does not depend on the order the keys are visited in. */
  lemma {:induction false} HitsRemove(users: map<string, User>, keys: set<string>, x: string, u: User)
    requires x in keys
    ensures Hits(users, keys, u) == Hits(users, keys - {x}, u) + Hit(users, x, u)
    decreases keys
  {
    var y :| y in keys && Hits(users, keys, u) == Hits(users, keys - {y}, u) + Hit(users, y, u);
    if y != x {
      HitsRemove(users, keys - {y}, x, u);
      HitsRemove(users, keys - {x}, y, u);
      assert keys - {y} - {x} == keys - {x} - {y};
    }
  }

  /** Appending one more copy to a queue that holds `n` copies after `a` gives `n + 1`. */
  lemma AppendOne<T>(a: seq<T>, b: seq<T>, c: seq<T>, x: T, n: nat, more: bool)
    requires b == a + Repeat(x, n)
    requires c == b + (if more then [x] else [])
    ensures c == a + Repeat(x, if more then n + 1 else n)
  {
    if more {
      assert Repeat(x, n + 1) == Repeat(x, n) + [x];
    }
  }

  /** Visiting one more key adds one exactly when that key maps `u`. */
  lemma HitsStep(users: map<string, User>, done: set<string>, k: string, u: User)
    requires k !in done
    ensures Hits(users, done + {k}, u) == Hits(users, done, u) + Hit(users, k, u)
  {
    HitsRemove(users, done + {k}, k, u);
    assert done + {k} - {k} == done;
  }

  /** When every entry is stored under its own ID, only the key `u.id` can map `u`. */
  lemma {:induction false} HitsKeyed(users: map<string, User>, keys: set<string>, u: User)
    requires forall k :: k in users ==> users[k].id == k
    ensures Hits(users, keys, u) == if u.id in keys then Hit(users, u.id, u) else 0
    decreases keys
  {
    if keys != {} {
      var x :| x in keys;
      HitsRemove(users, keys, x, u);
      HitsKeyed(users, keys - {x}, u);
    }
  }

  /**
   * When every member is stored under its own ID, a broadcast puts exactly
   * one copy on each member whose ID differs from the sender's.
   */
  lemma OneCopyPerMember(users: map<string, User>, u: User, sender: string)
    requires forall k :: k in users ==> users[k].id == k
    requires u in users.Values && u.id != sender
    ensures Copies(users, u, sender) == 1
  {
    HitsKeyed(users, users.Keys, u);
  }

  // ---------------------------------------------------------------- user

  /** A connected client: identity, joined channel and groups, outbound queue. */
  class User {
    var id: string
    var name: string
    var info: map<string, string>
    const server: Server
    var channel: Channel?
    var groups: map<string, Group>
    var send: seq<Message>
    var closed: bool
    var activity: seq<Activity>

    /** A user as accepted from a connection, before any connect command. */
    constructor (server: Server)
      ensures this.server == server
      ensures id == "" && name == "" && info == map[]
      ensures channel == null && groups == map[]
      ensures send == [] && !closed && activity == []
    {
      this.server := server;
      id, name, info := "", "", map[];
      channel := null;
      groups := map[];
      send, closed, activity := [], false, [];
    }

    function Identity(): Profile
      reads this
    {
      Profile(id, name, info)
    }

    // ---- frames

    /** The channel a valid connect resolves to, when it is already registered. */
    ghost function ExistingChannel(m: Message): set<object>
      reads server
    {
      if m.user.Some? && m.channel.Some? && m.channel.value.id in server.channels
      then {server.channels[m.channel.value.id]} else {}
    }

    /** The group a join or leave names, when the current channel has it. */
    ghost function NamedGroup(m: Message): set<object>
      reads this`channel, channel
    {
      if channel != null && m.group.Some? && m.group.value.id in channel.groups
      then {channel.groups[m.group.value.id]} else {}
    }

    /** The other queues a send command may append to. */
    ghost function Recipients(m: Message): set<User>
      reads this`channel, channel, if channel != null then channel.groups.Values else {}
    {
      if channel == null || m.message.None? || m.target.None? then {}
      else
        var t := m.target.value;
        match t.kind
        case Direct =>
          if t.user.Some? && t.user.value.id in channel.users
          then {channel.users[t.user.value.id]} else {}
        case ToGroup =>
          if t.group.Some? && t.group.value.id in channel.groups
          then channel.groups[t.group.value.id].users.Values else {}
        case OtherTarget(_) => {}
    }

    /** The objects other than queues that handling `m` may change. */
    ghost function Objects(m: Message): set<object>
      reads this`channel, server, channel
    {
      match m.command
      case UserConnect => {server} + ExistingChannel(m)
      case GroupJoin => (if channel != null then {channel} else {}) + NamedGroup(m)
      case GroupLeave => (if channel != null then {channel} else {}) + NamedGroup(m)
      case _ => {}
    }

    // ---- effects of each handler, relating the state before and after

    /** The user's identity, channel, groups and queue state are as before. */
    twostate predicate Stable()
      reads this
    {
      Identity() == old(Identity()) && channel == old(channel) && groups == old(groups) && closed == old(closed)
    }

    twostate predicate ConnectEffect(m: Message)
      reads *
    {
      && groups == old(groups) && closed == old(closed)
      && if m.user.Some? && m.channel.Some? then
           var p, cp := m.user.value, m.channel.value;
           && Identity() == p
           && channel != null
           && (if cp.id in old(server.channels) then
                 && channel == old(server.channels[cp.id])
                 && server.channels == old(server.channels)
                 && channel.users == old(server.channels[cp.id].users)[p.id := this]
                 && channel.groups == old(server.channels[cp.id].groups)
               else
                 && fresh(channel)
                 && channel.id == cp.id && channel.name == cp.name && channel.info == cp.info
                 && channel.users == map[p.id := this] && channel.groups == map[]
                 && server.channels == old(server.channels)[cp.id := channel])
           && send == old(send) + [ConnectAccepted(m)]
         else
           && Identity() == old(Identity()) && channel == old(channel)
           && server.channels == old(server.channels)
           && send == old(send) + [Respond(m, false, InvalidPayload)]
    }

    twostate predicate JoinEffect(m: Message)
      reads *
    {
      && Identity() == old(Identity()) && channel == old(channel) && closed == old(closed)
      && channel != null
      && if m.group.None? then
           && groups == old(groups) && send == old(send)
           && channel.users == old(channel.users) && channel.groups == old(channel.groups)
         else
           var gp := m.group.value;
           && gp.id in channel.groups
           && var g := channel.groups[gp.id];
           && (if gp.id in old(channel.groups) then
                 && g == old(channel.groups[gp.id])
                 && g.users == old(g.users)[id := this]
               else
                 && fresh(g)
                 && g.Identity() == gp
                 && g.users == map[id := this])
           && channel.groups == old(channel.groups)[g.id := g]
           && channel.users == old(channel.users)
           && groups == old(groups)[g.id := g]
           && send == old(send) + [Respond(m.(user := Some(Identity()),
                                              message := Some(MessageInfo(TypeMessageText, GroupJoinNotice))),
                                           true, Success)]
    }

    twostate predicate LeaveEffect(m: Message)
      reads *
    {
      && Identity() == old(Identity()) && channel == old(channel) && closed == old(closed)
      && channel != null && channel.users == old(channel.users)
      && if m.group.None? then
           && groups == old(groups) && channel.groups == old(channel.groups)
           && send == old(send) + [Respond(m, false, InvalidPayload)]
         else if m.group.value.id !in old(channel.groups) then
           && groups == old(groups) && channel.groups == old(channel.groups)
           && send == old(send)
         else
           var g := old(channel.groups[m.group.value.id]);
           && g.users == old(g.users) - {id}
           && channel.groups == (if g.users == map[] then old(channel.groups) - {g.id} else old(channel.groups))
           // The entry removed from the user's own groups is keyed by the user's ID,
           // not the group's: the entry for the group left behind stays.
           && groups == old(groups) - {id}
           && send == old(send) + [Respond(m.(user := Some(Identity()), group := Some(g.Identity())), true, Success)]
    }

    twostate predicate DirectSendEffect(m: Message)
      requires m.target.Some?
      reads *
    {
      var t := m.target.value;
      && channel == old(channel) && channel != null
      && channel.users == old(channel.users)
      && if t.user.None? then send == old(send)
         else if t.user.value.id !in old(channel.users) then
           send == old(send) + [Respond(m.(user := Some(Identity())), false, UserTargetNotConnected)]
         else
           var u := old(channel.users[t.user.value.id]);
           var ack := Respond(m.(user := Some(Identity()), target := Some(t.(user := Some(u.Identity())))),
                              true, Success);
           if u == this then send == old(send) + [m, ack]
           else u.send == old(u.send) + [m] && send == old(send) + [ack]
    }

    twostate predicate GroupSendEffect(m: Message)
      requires m.target.Some?
      reads *
    {
      var t := m.target.value;
      && channel == old(channel) && channel != null
      && channel.groups == old(channel.groups)
      && if t.group.None? || t.group.value.id !in old(channel.groups) then send == old(send)
         else
           var g := old(channel.groups[t.group.value.id]);
           var members := old(g.users);
           var fwd := m.(user := Some(Identity()), target := Some(t.(group := Some(g.Identity()))));
           && g.users == members
           && (forall j :: j in members && members[j] != this ==>
                 members[j].send == old(members[j].send) + Repeat(fwd, Copies(members, members[j], id)))
           && send == old(send) + [Respond(fwd, true, Success)]
    }

    twostate predicate SendEffect(m: Message)
      reads *
    {
      if m.message.None? || m.target.None? then send == old(send) + [Respond(m, false, InvalidPayload)]
      else match m.target.value.kind
        case Direct => DirectSendEffect(m)
        case ToGroup => GroupSendEffect(m)
        case OtherTarget(_) => send == old(send)
    }

    // ---- handlers

    method HandleUserConnect(m: Message)
      modifies this, server, ExistingChannel(m)
      ensures ConnectEffect(m)
      ensures activity == old(activity)
      ensures KeyedById(old(server.channels)) ==> KeyedById(server.channels)
      ensures KeyedById(old(server.channels)) && m.user.Some? && m.channel.Some? ==> channel.id == m.channel.value.id
    {
      if m.user.Some? && m.channel.Some? {
        var p, cp := m.user.value, m.channel.value;
        id, name, info := p.id, p.name, p.info;
        var c := server.FindChannelByID(cp.id);
        if c == null {
          c := new Channel(cp.id, cp.name, cp.info);
          server.HandleRegisterChannel(c);
        }
        channel := c;
        c.RegisterUser(this);
        send := send + [ConnectAccepted(m)];
      } else {
        send := send + [Respond(m, false, InvalidPayload)];
      }
    }

    method HandleUserDisconnect()
      requires !closed
      modifies this, channel
      ensures activity == old(activity) + [Activity(TypeUserActivityDisconnect, None)]
      ensures Identity() == old(Identity()) && channel == old(channel) && groups == old(groups)
      ensures send == old(send) && closed
      ensures channel != null ==> channel.users == old(channel.users) - {id} && channel.groups == old(channel.groups)
    {
      activity := activity + [Activity(TypeUserActivityDisconnect, None)];
      if channel != null {
        channel.UnregisterUser(this);
      }
      closed := true;
    }

    method HandleGroupJoin(m: Message)
      requires channel != null
      modifies this, channel, NamedGroup(m)
      ensures JoinEffect(m)
      ensures activity == old(activity)
    {
      if m.group.Some? {
        var gp := m.group.value;
        var g := channel.FindGroupByID(gp.id);
        if g == null {
          g := new Group(gp.id, gp.name, gp.info);
        }
        channel.RegisterGroup(g);
        g.RegisterUser(this);
        groups := groups[g.id := g];
        var reply := m.(user := Some(Identity()), message := Some(MessageInfo(TypeMessageText, GroupJoinNotice)));
        send := send + [Respond(reply, true, Success)];
      }
    }

    method HandleGroupLeave(m: Message)
      requires channel != null
      modifies this, channel, NamedGroup(m)
      ensures LeaveEffect(m)
      ensures activity == old(activity)
      // The defect of keying the removal by the user's ID: the left group's own entry survives.
      ensures m.group.Some? && m.group.value.id in old(channel.groups) ==>
        var g := old(channel.groups[m.group.value.id]);
        g.id != id && g.id in old(groups) ==> g.id in groups && groups[g.id] == old(groups[g.id])
    {
      if m.group.Some? {
        var g := channel.FindGroupByID(m.group.value.id);
        if g != null {
          groups := groups - {id};
          g.UnregisterUser(this);
          if g.users == map[] {
            channel.UnregisterGroup(g);
          }
          send := send + [Respond(m.(user := Some(Identity()), group := Some(g.Identity())), true, Success)];
        }
      } else {
        send := send + [Respond(m, false, InvalidPayload)];
      }
    }

    method HandleSendMessage(m: Message)
      requires channel != null
      modifies this`send, Recipients(m)`send
      ensures SendEffect(m)
    {
      if m.message.Some? && m.target.Some? {
        match m.target.value.kind
        case Direct => HandleSendDirectMessage(m);
        case ToGroup => HandlerSendGroupMessage(m);
        case OtherTarget(_) =>
      } else {
        send := send + [Respond(m, false, InvalidPayload)];
      }
    }

    method HandleSendDirectMessage(m: Message)
      requires channel != null && m.message.Some? && m.target.Some? && m.target.value.kind == Direct
      modifies this`send, Recipients(m)`send
      ensures DirectSendEffect(m)
    {
      var t := m.target.value;
      if t.user.Some? {
        var target := channel.FindUserByID(t.user.value.id);
        if target == null {
          send := send + [Respond(m.(user := Some(Identity())), false, UserTargetNotConnected)];
        } else {
          target.send := target.send + [m];
          var ack := m.(user := Some(Identity()), target := Some(t.(user := Some(target.Identity()))));
          send := send + [Respond(ack, true, Success)];
        }
      }
    }

    method HandlerSendGroupMessage(m: Message)
      requires channel != null && m.message.Some? && m.target.Some? && m.target.value.kind == ToGroup
      modifies this`send, Recipients(m)`send
      ensures GroupSendEffect(m)
    {
      var t := m.target.value;
      if t.group.Some? {
        var g := channel.FindGroupByID(t.group.value.id);
        if g != null {
          var fwd := m.(user := Some(Identity()), target := Some(t.(group := Some(g.Identity()))));
          Broadcast(g.users, fwd);
          send := send + [Respond(fwd, true, Success)];
        }
      }
    }

    /**
     * The broadcast loop of a group send: one copy of `fwd` per key of
     * `members` whose user has an ID other than this user's.
     */
    method Broadcast(members: map<string, User>, fwd: Message)
      modifies members.Values`send
      ensures send == old(send)
      ensures forall j :: j in members && members[j] != this ==> members[j].send == old(members[j].send) + Repeat(fwd, Copies(members, members[j], id))
    {
      var keys := members.Keys;
      ghost var done: set<string> := {};
      while keys != {}
        invariant keys + done == members.Keys && keys !! done
        invariant send == old(send)
        invariant forall j :: j in members && members[j] != this ==>
          members[j].send == old(members[j].send) + Repeat(fwd, if members[j].id == id then 0 else Hits(members, done, members[j]))
        decreases keys
      {
        var k :| k in keys;
        var member := members[k];
        label Step:
        if member.id != id {
          member.send := member.send + [fwd];
        }
        forall j | j in members && members[j] != this
          ensures members[j].send == old(members[j].send) + Repeat(fwd, if members[j].id == id then 0 else Hits(members, done + {k}, members[j]))
        {
          var u := members[j];
          HitsStep(members, done, k, u);
          AppendOne(old(u.send), old@Step(u.send), u.send, fwd,
                    if u.id == id then 0 else Hits(members, done, u), u == member && u.id != id);
        }
        keys := keys - {k};
        done := done + {k};
      }
    }

    /** One iteration of the read pump: record the activity, then dispatch on the command. */
    method Dispatch(m: Message)
      modifies this, Objects(m), (if m.command == MessageSend then Recipients(m) else {})`send
      ensures activity == old(activity) + ActivityOf(m)
      ensures m.command == UserConnect ==> ConnectEffect(m)
      ensures m.command == MessageSend && old(channel) != null ==> Stable() && SendEffect(m)
      ensures m.command == GroupJoin && old(channel) != null ==> JoinEffect(m)
      ensures m.command == GroupLeave && old(channel) != null ==> LeaveEffect(m)
      ensures (m.command.Unknown? || (!m.command.UserConnect? && old(channel) == null)) ==>
        Stable() && send == old(send)
    {
      activity := activity + ActivityOf(m);
      match m.command
      case UserConnect =>
        HandleUserConnect(m);
      case MessageSend =>
        if channel != null {
          HandleSendMessage(m);
        }
      case GroupJoin =>
        if channel != null {
          HandleGroupJoin(m);
        }
      case GroupLeave =>
        if channel != null {
          HandleGroupLeave(m);
        }
      case Unknown(_) =>
    }

    /**
     * One step of the write pump: dequeue a frame and attach every frame
     * queued at that moment; a closed, drained queue yields a close frame.
     */
    method WritePumpStep() returns (w: Write<Message>)
      modifies this`send
      ensures old(send) != [] ==> w == Batch(Coalesce(old(send)[0], old(send)[1..])) && send == []
      ensures old(send) == [] ==> send == [] && w == (if closed then CloseFrame else Waiting)
    {
      if send == [] {
        return if closed then CloseFrame else Waiting;
      }
      var head := send[0];
      send := send[1..];
      var out := [Frame(head)];
      var n := |send|;
      for i := 0 to n
        invariant send == old(send)[1 + i..]
        invariant out == Coalesce(head, old(send)[1..1 + i])
      {
        assert old(send)[1..1 + (i + 1)] == old(send)[1..1 + i] + [send[0]];
        out := out + [Newline, Frame(send[0])];
        send := send[1..];
      }
      assert old(send)[1..1 + n] == old(send)[1..];
      w := Batch(out);
    }
  }
}
