/**
 The socket server's router. `Router` and the functions over it say what each event handler
 does; the class `RouterState` is the Rust struct with its mutable maps, proved against them.

 Ids are numbers. A client's outbound channel is an `Outbox` named by its client id, and every
 clone of its sender is that name: sending fails exactly when the writer task has dropped the
 receiver (`closed`). The Redis registry and the message table are fields, as one server sees them.
 */
module Router {
  import opened Wrappers

  datatype Notice = Welcome | AuthOk(mailbox: nat) | AuthFailed | ReauthForbidden | Unauthenticated
                  | BadMailbox | BadMessageId

  datatype ServerMsg =
    | Delivery(seqNo: nat, payload: string)
    | Ack(messageId: nat)
    | Say(notice: Notice)
    | Typing(payload: string, stop: bool)

  /** A client command; ids that fail to parse and tokens that fail to decode are None. */
  datatype Command =
    | Authenticate(mailbox: Option<nat>, lastSeq: int)
    | Send(mailbox: Option<nat>, payload: string, messageId: Option<nat>)
    | TypingCommand(mailbox: Option<nat>, payload: string, stop: bool)

  /** Whether the database and Redis answer the calls of one event. A failed Redis call is ignored by the code. */
  datatype Backends = Backends(db: bool, redis: bool)

  datatype Outbox = Outbox(queue: seq<ServerMsg>, closed: bool)

  /** A row of pending_messages. */
  datatype Row = Row(messageId: nat, mailbox: nat, seqNo: nat, payload: string)

  /** The table and the last value its identity column handed out. */
  datatype Table = Table(rows: seq<Row>, lastSeq: nat)

  /** The payload of a publication. */
  datatype Published = Published(mailbox: nat, messageId: nat, seqNo: nat, payload: string)

  datatype Router = Router(
    connections: set<nat>,
    connectionToMailbox: map<nat, nat>,
    mailboxToConnections: map<nat, seq<nat>>,
    outboxes: map<nat, Outbox>,
    registry: map<nat, map<nat, nat>>,      // mailbox -> connection -> server
    table: Table,
    published: map<nat, seq<Published>>,    // the Redis channel of each other server, in order
    serverId: nat
  )

  function NewRouter(serverId: nat, registry: map<nat, map<nat, nat>>, table: Table): Router {
    Router({}, map[], map[], map[], registry, table, map[], serverId)
  }

  // ---------------------------------------------------------------- state.rs

  function DisconnectClient(r: Router, c: nat): Router {
    var r1 := r.(connections := r.connections - {c});
    if c !in r1.connectionToMailbox then r1 else
    var m := r1.connectionToMailbox[c];
    var r2 := r1.(connectionToMailbox := r1.connectionToMailbox - {c});
    if m !in r2.mailboxToConnections then r2 else
    var rest := Without(r2.mailboxToConnections[m], c);
    r2.(mailboxToConnections :=
          if rest == [] then r2.mailboxToConnections - {m} else r2.mailboxToConnections[m := rest])
  }

  function Without(cs: seq<nat>, c: nat): (rest: seq<nat>)
    ensures forall x :: x in rest <==> x in cs && x != c
    ensures NoDuplicates(cs) ==> NoDuplicates(rest)
  {
    if cs == [] then [] else
    var rest := Without(cs[..|cs| - 1], c);
    if cs[|cs| - 1] == c then rest else assert (rest + [cs[|cs| - 1]])[..|rest|] == rest; rest + [cs[|cs| - 1]]
  }

  predicate NoDuplicates(cs: seq<nat>) {
    cs == [] || (cs[|cs| - 1] !in cs[..|cs| - 1] && NoDuplicates(cs[..|cs| - 1]))
  }

  function Push(r: Router, c: nat, msg: ServerMsg): Router
    requires c in r.outboxes
  {
    r.(outboxes := r.outboxes[c := r.outboxes[c].(queue := r.outboxes[c].queue + [msg])])
  }

  function SendOrDisconnect(r: Router, c: nat, msg: ServerMsg): Router
    requires c in r.outboxes
  {
    if r.outboxes[c].closed then DisconnectClient(r, c) else Push(r, c, msg)
  }

  /** The senders found for a snapshot of client ids. */
  function Live(cs: seq<nat>, connections: set<nat>): (live: seq<nat>)
    ensures forall x :: x in live <==> x in cs && x in connections
    ensures NoDuplicates(cs) ==> NoDuplicates(live)
  {
    if cs == [] then [] else
    var live := Live(cs[..|cs| - 1], connections);
    if cs[|cs| - 1] !in connections then live
    else assert (live + [cs[|cs| - 1]])[..|live|] == live; live + [cs[|cs| - 1]]
  }

  function SendEach(r: Router, cs: seq<nat>, msg: ServerMsg): (r': Router)
    requires forall c :: c in cs ==> c in r.outboxes
    ensures r'.outboxes.Keys == r.outboxes.Keys
  {
    if cs == [] then r else SendOrDisconnect(SendEach(r, cs[..|cs| - 1], msg), cs[|cs| - 1], msg)
  }

  /** Every client id the router holds a sender for has a channel. */
  predicate ChannelsOk(r: Router) {
    r.connections <= r.outboxes.Keys
  }

  function Broadcast(r: Router, m: nat, msg: ServerMsg): Router
    requires ChannelsOk(r)
  {
    if m !in r.mailboxToConnections then r
    else SendEach(r, Live(r.mailboxToConnections[m], r.connections), msg)
  }

  // ---------------------------------------------------------------- commands/send.rs

  predicate HasRow(rows: seq<Row>, messageId: nat) {
    exists i :: 0 <= i < |rows| && rows[i].messageId == messageId
  }

  /** INSERT ... ON CONFLICT DO NOTHING RETURNING seq, with 0 for no row; a conflict still takes a number. */
  function Insert(t: Table, messageId: nat, mailbox: nat, payload: string, dbOk: bool): (Table, nat) {
    if !dbOk then (t, 0)
    else if HasRow(t.rows, messageId) then (t.(lastSeq := t.lastSeq + 1), 0)
    else (Table(t.rows + [Row(messageId, mailbox, t.lastSeq + 1, payload)], t.lastSeq + 1), t.lastSeq + 1)
  }

  function Registered(registry: map<nat, map<nat, nat>>, m: nat): map<nat, nat> {
    if m in registry then registry[m] else map[]
  }

  function Servers(registry: map<nat, map<nat, nat>>, m: nat): set<nat> {
    Registered(registry, m).Values
  }

  /** What get_connections yields; an error reads as nobody connected. */
  function Recipients(registry: map<nat, map<nat, nat>>, m: nat, up: Backends): set<nat> {
    if up.redis then Servers(registry, m) else {}
  }

  function Channel(published: map<nat, seq<Published>>, server: nat): seq<Published> {
    if server in published then published[server] else []
  }

  function Publish(r: Router, server: nat, p: Published): Router {
    r.(published := r.published[server := Channel(r.published, server) + [p]])
  }

  /** Every server that holds a connection of the mailbox: this one delivers, each other's channel gets the payload. */
  function FanOut(r: Router, servers: set<nat>, p: Published): Router
    requires ChannelsOk(r)
  {
    var others := servers - {r.serverId};
    var r1 := if r.serverId in servers then Broadcast(r, p.mailbox, Delivery(p.seqNo, p.payload)) else r;
    r1.(published := map s | s in r.published.Keys + others ::
          if s in others then Channel(r.published, s) + [p] else r.published[s])
  }

  lemma DisconnectUnpublished(r: Router, c: nat, published: map<nat, seq<Published>>)
    ensures DisconnectClient(r.(published := published), c) == DisconnectClient(r, c).(published := published)
    ensures DisconnectClient(r, c).published == r.published && DisconnectClient(r, c).serverId == r.serverId
    ensures DisconnectClient(r, c).connections <= r.connections
  {
    hide Without, NoDuplicates;
  }

  lemma SendUnpublished(r: Router, c: nat, msg: ServerMsg, published: map<nat, seq<Published>>)
    requires c in r.outboxes
    ensures SendOrDisconnect(r.(published := published), c, msg) == SendOrDisconnect(r, c, msg).(published := published)
    ensures SendOrDisconnect(r, c, msg).published == r.published && SendOrDisconnect(r, c, msg).serverId == r.serverId
    ensures SendOrDisconnect(r, c, msg).connections <= r.connections
  {
    hide DisconnectClient;
    DisconnectUnpublished(r, c, published);
  }

  lemma {:induction false} SendEachUnpublished(r: Router, cs: seq<nat>, msg: ServerMsg,
                                               published: map<nat, seq<Published>>)
    requires forall c :: c in cs ==> c in r.outboxes
    ensures SendEach(r.(published := published), cs, msg) == SendEach(r, cs, msg).(published := published)
    ensures SendEach(r, cs, msg).published == r.published && SendEach(r, cs, msg).serverId == r.serverId
    ensures SendEach(r, cs, msg).connections <= r.connections
  {
    hide SendOrDisconnect;
    if cs != [] {
      SendEachUnpublished(r, cs[..|cs| - 1], msg, published);
      SendUnpublished(SendEach(r, cs[..|cs| - 1], msg), cs[|cs| - 1], msg, published);
    }
  }

  lemma BroadcastUnpublished(r: Router, m: nat, msg: ServerMsg, published: map<nat, seq<Published>>)
    requires ChannelsOk(r)
    ensures Broadcast(r.(published := published), m, msg) == Broadcast(r, m, msg).(published := published)
    ensures Broadcast(r, m, msg).published == r.published && Broadcast(r, m, msg).serverId == r.serverId
    ensures ChannelsOk(Broadcast(r, m, msg))
  {
    if m in r.mailboxToConnections {
      SendEachUnpublished(r, Live(r.mailboxToConnections[m], r.connections), msg, published);
    }
  }

  /** One turn of the loop over servers. */
  lemma FanOutOneMore(r: Router, done: set<nat>, server: nat, p: Published)
    requires ChannelsOk(r) && server !in done
    ensures ChannelsOk(FanOut(r, done, p)) && FanOut(r, done, p).serverId == r.serverId
    ensures FanOut(r, done + {server}, p)
            == var before := FanOut(r, done, p);
               if server == r.serverId then Broadcast(before, p.mailbox, Delivery(p.seqNo, p.payload))
               else Publish(before, server, p)
  {
    var before, after := FanOut(r, done, p), FanOut(r, done + {server}, p);
    BroadcastUnpublished(r, p.mailbox, Delivery(p.seqNo, p.payload), before.published);
    hide Broadcast;
    if server == r.serverId {
      assert done + {server} - {r.serverId} == done - {r.serverId};
    } else {
      assert done + {server} - {r.serverId} == done - {r.serverId} + {server};
      assert after.published == Publish(before, server, p).published;
    }
  }

  lemma FanOutNone(r: Router, p: Published)
    requires ChannelsOk(r)
    ensures FanOut(r, {}, p) == r
  {
    assert FanOut(r, {}, p).published == r.published;
  }

  function HandleSend(r: Router, payload: string, m: nat, messageId: nat, sender: nat, up: Backends): Router
    requires ChannelsOk(r)
  {
    var (table, seqNo) := Insert(r.table, messageId, m, payload, up.db);
    var r1 := r.(table := table);
    var r2 := if sender in r1.connections then SendOrDisconnect(r1, sender, Ack(messageId)) else r1;
    var servers := Recipients(r2.registry, m, up);
    FanOut(r2, servers, Published(m, messageId, seqNo, payload))
  }

  // ---------------------------------------------------------------- commands/authenticate.rs

  /** The rows of a mailbox after a cursor, in seq order (rows are appended in seq order). */
  function Backlog(rows: seq<Row>, m: nat, after: int): seq<Row> {
    if rows == [] then []
    else Backlog(rows[..|rows| - 1], m, after)
         + if rows[|rows| - 1].mailbox == m && rows[|rows| - 1].seqNo > after then [rows[|rows| - 1]] else []
  }

  function SendBacklog(r: Router, c: nat, rows: seq<Row>): (r': Router)
    requires c in r.outboxes
    ensures r'.outboxes.Keys == r.outboxes.Keys
  {
    if rows == [] then r
    else SendOrDisconnect(SendBacklog(r, c, rows[..|rows| - 1]), c,
                          Delivery(rows[|rows| - 1].seqNo, rows[|rows| - 1].payload))
  }

  /** Both maps, and the registry if Redis takes it. */
  function Register(r: Router, c: nat, m: nat, up: Backends): Router {
    var conns := if m in r.mailboxToConnections then r.mailboxToConnections[m] else [];
    r.(connectionToMailbox := r.connectionToMailbox[c := m],
       mailboxToConnections := r.mailboxToConnections[m := if c in conns then conns else conns + [c]],
       registry := if up.redis then r.registry[m := Registered(r.registry, m)[c := r.serverId]] else r.registry)
  }

  /** None when the token is invalid or the backlog cannot be read; then nothing has changed. */
  function HandleAuthenticate(r: Router, c: nat, mailbox: Option<nat>, lastSeq: int, up: Backends): Option<Router>
    requires ChannelsOk(r)
  {
    if mailbox.None? || !up.db then None else
    var r1 := Register(r, c, mailbox.value, up);
    Some(if c in r1.connections then SendBacklog(r1, c, Backlog(r.table.rows, mailbox.value, lastSeq)) else r1)
  }

  // ---------------------------------------------------------------- handlers

  function HandleReceived(r: Router, c: nat, command: Command, up: Backends): Router
    requires ChannelsOk(r)
  {
    if c !in r.connections then r else
    match command
    case Authenticate(mailbox, lastSeq) =>
      if c in r.connectionToMailbox then SendOrDisconnect(r, c, Say(ReauthForbidden)) else
      (match HandleAuthenticate(r, c, mailbox, lastSeq, up)
       case None => SendOrDisconnect(r, c, Say(AuthFailed))
       case Some(r1) => SendOrDisconnect(r1, c, Say(AuthOk(mailbox.value))))
    case Send(mailbox, payload, messageId) =>
      if c !in r.connectionToMailbox then SendOrDisconnect(r, c, Say(Unauthenticated))
      else if mailbox.None? then SendOrDisconnect(r, c, Say(BadMailbox))
      else if messageId.None? then SendOrDisconnect(r, c, Say(BadMessageId))
      else HandleSend(r, payload, mailbox.value, messageId.value, c, up)
    case TypingCommand(mailbox, payload, stop) =>
      if c !in r.connectionToMailbox || mailbox.None? then r
      else Broadcast(r, mailbox.value, Typing(payload, stop))
  }

  /** A new connection brings its own channel, which its writer may already have closed. */
  function HandleConnected(r: Router, c: nat, closed: bool): Router {
    if closed then r
    else r.(outboxes := r.outboxes[c := Outbox([Say(Welcome)], false)], connections := r.connections + {c})
  }

  function Unregister(r: Router, m: nat, c: nat): Router {
    if m !in r.registry then r else r.(registry := r.registry[m := r.registry[m] - {c}])
  }

  function HandleDisconnected(r: Router, c: nat, up: Backends): Router {
    var r1 := if c in r.connectionToMailbox && up.redis then Unregister(r, r.connectionToMailbox[c], c) else r;
    DisconnectClient(r1, c)
  }

  /** The router's events, and what happens around it: a writer task ends, a registry key expires. */
  datatype Event =
    | Connected(client: nat, closed: bool)
    | Received(client: nat, command: Command, up: Backends)
    | Disconnected(client: nat, up: Backends)
    | PubSubDelivery(mailbox: nat, seqNo: nat, payload: string)
    | WriterEnded(client: nat)
    | RegistryExpired(mailbox: nat)

  function Handle(r: Router, e: Event): Router
    requires ChannelsOk(r)
  {
    match e
    case Connected(c, closed) => HandleConnected(r, c, closed)
    case Received(c, command, up) => HandleReceived(r, c, command, up)
    case Disconnected(c, up) => HandleDisconnected(r, c, up)
    case PubSubDelivery(m, seqNo, payload) => Broadcast(r, m, Delivery(seqNo, payload))
    case WriterEnded(c) =>
      if c in r.outboxes then r.(outboxes := r.outboxes[c := r.outboxes[c].(closed := true)]) else r
    case RegistryExpired(m) => r.(registry := r.registry - {m})
  }

  // ---------------------------------------------------------------- the struct and its methods

  class RouterState {
    const serverId: nat
    var connections: set<nat>
    var connectionToMailbox: map<nat, nat>
    var mailboxToConnections: map<nat, seq<nat>>
    var outboxes: map<nat, Outbox>
    var registry: map<nat, map<nat, nat>>
    var table: Table
    var published: map<nat, seq<Published>>

    function State(): Router
      reads this
    {
      Router(connections, connectionToMailbox, mailboxToConnections, outboxes, registry, table, published, serverId)
    }

    /** RouterState::new, over what Redis and the database hold. */
    constructor (serverId: nat, registry: map<nat, map<nat, nat>>, table: Table)
      ensures State() == NewRouter(serverId, registry, table)
    {
      this.serverId := serverId;
      this.connections, this.connectionToMailbox, this.mailboxToConnections := {}, map[], map[];
      this.outboxes, this.registry, this.table, this.published := map[], registry, table, map[];
    }

    /** The client is in none of the maps, an emptied list goes with it, and nobody else's entry changes. */
    method Disconnect(c: nat)
      modifies this
      ensures State() == DisconnectClient(old(State()), c)
      ensures connections == old(connections) - {c} && connectionToMailbox == old(connectionToMailbox) - {c}
      ensures forall m :: (c in old(connectionToMailbox) ==> m != old(connectionToMailbox)[c]) ==>
                (m in mailboxToConnections <==> m in old(mailboxToConnections))
                && (m in mailboxToConnections ==> mailboxToConnections[m] == old(mailboxToConnections)[m])
      ensures c in old(connectionToMailbox) && old(connectionToMailbox)[c] in old(mailboxToConnections) ==>
                var m := old(connectionToMailbox)[c];
                (m in mailboxToConnections <==> exists x :: x in old(mailboxToConnections)[m] && x != c)
                && (m in mailboxToConnections ==>
                      forall x :: x in mailboxToConnections[m] <==> x in old(mailboxToConnections)[m] && x != c)
      ensures outboxes == old(outboxes) && registry == old(registry) && table == old(table)
            && published == old(published)
    {
      connections := connections - {c};
      if c in connectionToMailbox {
        var m := connectionToMailbox[c];
        connectionToMailbox := connectionToMailbox - {c};
        if m in mailboxToConnections {
          var rest := Without(mailboxToConnections[m], c);
          if rest == [] {
            mailboxToConnections := mailboxToConnections - {m};
          } else {
            assert rest[0] in rest;
            mailboxToConnections := mailboxToConnections[m := rest];
          }
        }
      }
    }

    method SendServerMsg(c: nat, msg: ServerMsg)
      requires c in outboxes
      modifies this
      ensures State() == SendOrDisconnect(old(State()), c, msg)
    {
      if outboxes[c].closed {
        Disconnect(c);
      } else {
        outboxes := outboxes[c := outboxes[c].(queue := outboxes[c].queue + [msg])];
      }
    }

    /** deliver_to_mailbox and deliver_typing_to_mailbox: a loop over a snapshot of the senders. */
    method DeliverToMailbox(m: nat, msg: ServerMsg)
      requires ChannelsOk(State())
      modifies this
      ensures State() == Broadcast(old(State()), m, msg)
    {
      if m !in mailboxToConnections {
        return;
      }
      var senders: seq<nat> := [];
      var clients := mailboxToConnections[m];
      for i := 0 to |clients|
        invariant State() == old(State())
        invariant senders == Live(clients[..i], connections)
      {
        assert clients[..i + 1][..i] == clients[..i];
        if clients[i] in connections {
          senders := senders + [clients[i]];
        }
      }
      assert clients[..|clients|] == clients;
      for i := 0 to |senders|
        invariant State() == SendEach(old(State()), senders[..i], msg)
      {
        assert senders[..i + 1][..i] == senders[..i];
        SendServerMsg(senders[i], msg);
      }
      assert senders[..|senders|] == senders;
    }

    /** The loop over the recipient's servers, in whatever order the hash set yields them. */
    method DeliverAndPublish(servers: set<nat>, p: Published)
      requires ChannelsOk(State())
      modifies this
      ensures State() == FanOut(old(State()), servers, p)
    {
      var left := servers;
      ghost var done: set<nat> := {};
      FanOutNone(State(), p);
      while left != {}
        invariant left !! done && left + done == servers
        invariant State() == FanOut(old(State()), done, p)
        decreases left
      {
        var server :| server in left;
        FanOutOneMore(old(State()), done, server, p);
        if server == serverId {
          DeliverToMailbox(p.mailbox, Delivery(p.seqNo, p.payload));
        } else {
          published := published[server := Channel(published, server) + [p]];
        }
        left, done := left - {server}, done + {server};
      }
      assert done == servers;
    }

    method SendCommand(payload: string, m: nat, messageId: nat, sender: nat, up: Backends)
      requires ChannelsOk(State())
      modifies this
      ensures State() == HandleSend(old(State()), payload, m, messageId, sender, up)
    {
      var inserted := Insert(table, messageId, m, payload, up.db);
      table := inserted.0;
      if sender in connections {
        SendServerMsg(sender, Ack(messageId));
      }
      var servers := Recipients(registry, m, up);
      DeliverAndPublish(servers, Published(m, messageId, inserted.1, payload));
    }

    /** authenticate.rs; `ok` is false when the token or the backlog query failed. */
    method AuthenticateCommand(c: nat, mailbox: Option<nat>, lastSeq: int, up: Backends) returns (ok: bool)
      requires ChannelsOk(State())
      modifies this
      ensures ok <==> HandleAuthenticate(old(State()), c, mailbox, lastSeq, up).Some?
      ensures State() == if ok then HandleAuthenticate(old(State()), c, mailbox, lastSeq, up).value else old(State())
    {
      if mailbox.None? || !up.db {
        return false;
      }
      var m := mailbox.value;
      var undelivered := Backlog(table.rows, m, lastSeq);
      connectionToMailbox := connectionToMailbox[c := m];
      var conns := if m in mailboxToConnections then mailboxToConnections[m] else [];
      if c !in conns {
        conns := conns + [c];
      }
      mailboxToConnections := mailboxToConnections[m := conns];
      if up.redis {
        registry := registry[m := Registered(registry, m)[c := serverId]];
      }
      assert State() == Register(old(State()), c, m, up);
      if c in connections {
        SendUndelivered(c, undelivered);
      }
      ok := true;
    }

    method SendUndelivered(c: nat, undelivered: seq<Row>)
      requires c in outboxes
      modifies this
      ensures State() == SendBacklog(old(State()), c, undelivered)
    {
      for i := 0 to |undelivered|
        invariant State() == SendBacklog(old(State()), c, undelivered[..i])
      {
        assert undelivered[..i + 1][..i] == undelivered[..i];
        SendServerMsg(c, Delivery(undelivered[i].seqNo, undelivered[i].payload));
      }
      assert undelivered[..|undelivered|] == undelivered;
    }

    /** received.rs: guards, then dispatch. */
    method ReceivedEvent(c: nat, command: Command, up: Backends)
      requires ChannelsOk(State())
      modifies this
      ensures State() == HandleReceived(old(State()), c, command, up)
    {
      if c !in connections {
        return;
      }
      match command
      case Authenticate(mailbox, lastSeq) =>
        if c in connectionToMailbox {
          SendServerMsg(c, Say(ReauthForbidden));
          return;
        }
        var ok := AuthenticateCommand(c, mailbox, lastSeq, up);
        if ok {
          SendServerMsg(c, Say(AuthOk(mailbox.value)));
        } else {
          SendServerMsg(c, Say(AuthFailed));
        }
      case Send(mailbox, payload, messageId) =>
        if c !in connectionToMailbox {
          SendServerMsg(c, Say(Unauthenticated));
        } else if mailbox.None? {
          SendServerMsg(c, Say(BadMailbox));
        } else if messageId.None? {
          SendServerMsg(c, Say(BadMessageId));
        } else {
          SendCommand(payload, mailbox.value, messageId.value, c, up);
        }
      case TypingCommand(mailbox, payload, stop) =>
        if c in connectionToMailbox && mailbox.Some? {
          DeliverToMailbox(mailbox.value, Typing(payload, stop));
        }
    }

    /** One turn of the receive loop of handle_router, or one of the things that happen around it. */
    method HandleEvent(e: Event)
      requires ChannelsOk(State())
      modifies this
      ensures State() == Handle(old(State()), e)
    {
      match e
      case Connected(c, closed) =>
        if !closed {
          outboxes, connections := outboxes[c := Outbox([Say(Welcome)], false)], connections + {c};
        }
      case Received(c, command, up) =>
        ReceivedEvent(c, command, up);
      case Disconnected(c, up) =>
        if c in connectionToMailbox && up.redis && connectionToMailbox[c] in registry {
          var m := connectionToMailbox[c];
          registry := registry[m := registry[m] - {c}];
        }
        Disconnect(c);
      case PubSubDelivery(m, seqNo, payload) =>
        DeliverToMailbox(m, Delivery(seqNo, payload));
      case WriterEnded(c) =>
        if c in outboxes {
          outboxes := outboxes[c := outboxes[c].(closed := true)];
        }
      case RegistryExpired(m) =>
        registry := registry - {m};
    }
  }
}
