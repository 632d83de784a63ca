/** What every sequence of router events keeps true of the router's three maps and of the registry. */
module RouterMaps {
  import opened Wrappers
  import opened Router

  /** Each mailbox list names exactly the connections authenticated for it, once each, and none is empty. */
  ghost predicate ListsOk(r: Router) {
    && (forall m :: m in r.mailboxToConnections ==>
          r.mailboxToConnections[m] != [] && NoDuplicates(r.mailboxToConnections[m]))
    && (forall m, c :: m in r.mailboxToConnections && c in r.mailboxToConnections[m] ==>
          c in r.connectionToMailbox && r.connectionToMailbox[c] == m)
    && (forall c :: c in r.connectionToMailbox ==>
          r.connectionToMailbox[c] in r.mailboxToConnections && c in r.mailboxToConnections[r.connectionToMailbox[c]])
  }

  /** Every authenticated connection is live: the router still holds its sender. */
  ghost predicate MapsOk(r: Router) {
    ChannelsOk(r) && ListsOk(r) && r.connectionToMailbox.Keys <= r.connections
  }

  /** The registry names this server for the connection. */
  predicate Named(r: Router, m: nat, c: nat) {
    m in r.registry && c in r.registry[m] && r.registry[m][c] == r.serverId
  }

  /** The registry names this server for every authenticated connection of the mailbox. */
  ghost predicate Covers(r: Router, m: nat) {
    forall c :: c in r.connectionToMailbox && r.connectionToMailbox[c] == m ==> Named(r, m, c)
  }

  /** A later router: only disconnected clients are missing from its maps, and the registry is as it was. */
  ghost predicate Trimmed(r: Router, r': Router) {
    && r'.registry == r.registry && r'.serverId == r.serverId
    && r'.connections <= r.connections
    && (forall c :: c in r'.connectionToMailbox ==>
          c in r.connectionToMailbox && r'.connectionToMailbox[c] == r.connectionToMailbox[c])
  }

  lemma TrimmedCovers(r: Router, r': Router, m: nat)
    requires Trimmed(r, r') && Covers(r, m)
    ensures Covers(r', m)
  {
    forall c | c in r'.connectionToMailbox && r'.connectionToMailbox[c] == m ensures Named(r', m, c) {
      assert Named(r, m, c);
    }
  }

  lemma DisconnectLists(r: Router, c: nat)
    requires ListsOk(r)
    ensures ListsOk(DisconnectClient(r, c))
  {
    hide Without, NoDuplicates;
  }

  lemma DisconnectKeeps(r: Router, c: nat)
    requires MapsOk(r)
    ensures MapsOk(DisconnectClient(r, c)) && Trimmed(r, DisconnectClient(r, c))
    ensures c !in DisconnectClient(r, c).connections && c !in DisconnectClient(r, c).connectionToMailbox
    ensures DisconnectClient(r, c).outboxes == r.outboxes && DisconnectClient(r, c).table == r.table
  {
    hide ListsOk;
    DisconnectLists(r, c);
  }

  lemma SendKeeps(r: Router, c: nat, msg: ServerMsg)
    requires MapsOk(r) && c in r.outboxes
    ensures MapsOk(SendOrDisconnect(r, c, msg)) && Trimmed(r, SendOrDisconnect(r, c, msg))
  {
    hide ListsOk;
    DisconnectKeeps(r, c);
    var pushed := Push(r, c, msg);
    ListsOnly(r, pushed);
  }

  lemma ListsOnly(r: Router, r': Router)
    requires r'.connectionToMailbox == r.connectionToMailbox && r'.mailboxToConnections == r.mailboxToConnections
    ensures ListsOk(r) == ListsOk(r')
  {
  }

  lemma {:induction false} SendEachKeeps(r: Router, cs: seq<nat>, msg: ServerMsg)
    requires MapsOk(r) && forall c :: c in cs ==> c in r.outboxes
    ensures MapsOk(SendEach(r, cs, msg)) && Trimmed(r, SendEach(r, cs, msg))
  {
    hide MapsOk, SendOrDisconnect;
    if cs != [] {
      SendEachKeeps(r, cs[..|cs| - 1], msg);
      SendKeeps(SendEach(r, cs[..|cs| - 1], msg), cs[|cs| - 1], msg);
    }
  }

  lemma {:induction false} SendBacklogKeeps(r: Router, c: nat, rows: seq<Row>)
    requires MapsOk(r) && c in r.outboxes
    ensures MapsOk(SendBacklog(r, c, rows)) && Trimmed(r, SendBacklog(r, c, rows))
  {
    hide MapsOk, SendOrDisconnect;
    if rows != [] {
      SendBacklogKeeps(r, c, rows[..|rows| - 1]);
      SendKeeps(SendBacklog(r, c, rows[..|rows| - 1]), c, Delivery(rows[|rows| - 1].seqNo, rows[|rows| - 1].payload));
    }
  }

  lemma BroadcastKeeps(r: Router, m: nat, msg: ServerMsg)
    requires MapsOk(r)
    ensures MapsOk(Broadcast(r, m, msg)) && Trimmed(r, Broadcast(r, m, msg))
  {
    if m in r.mailboxToConnections {
      SendEachKeeps(r, Live(r.mailboxToConnections[m], r.connections), msg);
    }
  }

  lemma AppendNew(cs: seq<nat>, c: nat)
    requires NoDuplicates(cs) && c !in cs
    ensures NoDuplicates(cs + [c])
  {
    assert (cs + [c])[..|cs|] == cs;
  }

  lemma RegisterLists(r: Router, c: nat, m: nat, up: Backends)
    requires ListsOk(r) && c !in r.connectionToMailbox
    ensures ListsOk(Register(r, c, m, up))
  {
    var conns := if m in r.mailboxToConnections then r.mailboxToConnections[m] else [];
    assert NoDuplicates([]);
    hide NoDuplicates;
    AppendNew(conns, c);
  }

  lemma RegisterKeeps(r: Router, c: nat, m: nat, up: Backends)
    requires MapsOk(r) && c in r.connections && c !in r.connectionToMailbox
    ensures MapsOk(Register(r, c, m, up))
  {
    hide ListsOk;
    RegisterLists(r, c, m, up);
  }

  lemma HandleSendKeeps(r: Router, payload: string, m: nat, messageId: nat, sender: nat, up: Backends)
    requires MapsOk(r)
    ensures MapsOk(HandleSend(r, payload, m, messageId, sender, up))
    ensures Trimmed(r, HandleSend(r, payload, m, messageId, sender, up))
  {
    hide ListsOk, SendOrDisconnect, Broadcast, Insert;
    var (table, seqNo) := Insert(r.table, messageId, m, payload, up.db);
    var r1 := r.(table := table);
    ListsOnly(r, r1);
    if sender in r1.connections {
      SendKeeps(r1, sender, Ack(messageId));
    }
    var r2 := if sender in r1.connections then SendOrDisconnect(r1, sender, Ack(messageId)) else r1;
    BroadcastKeeps(r2, m, Delivery(seqNo, payload));
    var r3 := if r2.serverId in Recipients(r2.registry, m, up) then Broadcast(r2, m, Delivery(seqNo, payload)) else r2;
    ListsOnly(r3, HandleSend(r, payload, m, messageId, sender, up));
  }

  lemma ReceivedKeeps(r: Router, c: nat, command: Command, up: Backends)
    requires MapsOk(r)
    ensures MapsOk(HandleReceived(r, c, command, up))
  {
    hide MapsOk, SendOrDisconnect, Broadcast, HandleSend, Register, SendBacklog;
    if c in r.connections {
      InMaps(r, c);
      match command
      case Authenticate(mailbox, lastSeq) =>
        if c !in r.connectionToMailbox && mailbox.Some? && up.db {
          var r1 := Register(r, c, mailbox.value, up);
          RegisterKeeps(r, c, mailbox.value, up);
          RegisterRest(r, c, mailbox.value, up);
          var rows := Backlog(r.table.rows, mailbox.value, lastSeq);
          SendBacklogKeeps(r1, c, rows);
          SendKeeps(SendBacklog(r1, c, rows), c, Say(AuthOk(mailbox.value)));
        } else {
          SayKeeps(r, c);
        }
      case Send(mailbox, payload, messageId) =>
        if c in r.connectionToMailbox && mailbox.Some? && messageId.Some? {
          HandleSendKeeps(r, payload, mailbox.value, messageId.value, c, up);
        } else {
          SayKeeps(r, c);
        }
      case TypingCommand(mailbox, payload, stop) =>
        if mailbox.Some? {
          BroadcastKeeps(r, mailbox.value, Typing(payload, stop));
        }
    }
  }

  lemma InMaps(r: Router, c: nat)
    requires MapsOk(r) && c in r.connections
    ensures c in r.outboxes && ChannelsOk(r)
  {
  }

  lemma RegisterRest(r: Router, c: nat, m: nat, up: Backends)
    ensures Register(r, c, m, up).outboxes == r.outboxes && Register(r, c, m, up).connections == r.connections
  {
  }

  lemma SayKeeps(r: Router, c: nat)
    requires MapsOk(r) && c in r.outboxes
    ensures forall notice ::
              MapsOk(SendOrDisconnect(r, c, Say(notice))) && Trimmed(r, SendOrDisconnect(r, c, Say(notice)))
  {
    hide MapsOk, SendOrDisconnect, Trimmed;
    forall notice
      ensures MapsOk(SendOrDisconnect(r, c, Say(notice))) && Trimmed(r, SendOrDisconnect(r, c, Say(notice)))
    {
      SendKeeps(r, c, Say(notice));
    }
  }

  lemma DisconnectedKeeps(r: Router, c: nat, up: Backends)
    requires MapsOk(r)
    ensures MapsOk(HandleDisconnected(r, c, up))
    ensures forall m :: Covers(r, m) ==> Covers(HandleDisconnected(r, c, up), m)
  {
    hide ListsOk, DisconnectClient;
    var r1 := if c in r.connectionToMailbox && up.redis then Unregister(r, r.connectionToMailbox[c], c) else r;
    ListsOnly(r, r1);
    DisconnectKeeps(r1, c);
    var r' := HandleDisconnected(r, c, up);
    forall m | Covers(r, m) ensures Covers(r', m) {
      forall d | d in r'.connectionToMailbox && r'.connectionToMailbox[d] == m ensures Named(r', m, d) {
        assert Named(r, m, d);
      }
    }
  }

  /** Every event, in any order and with any arguments, keeps the three maps consistent. */
  lemma HandleKeeps(r: Router, e: Event)
    requires MapsOk(r)
    ensures MapsOk(Handle(r, e))
  {
    hide ListsOk, HandleReceived, HandleDisconnected, Broadcast, HandleConnected;
    match e
    case Connected(c, closed) => ConnectedKeeps(r, c, closed);
    case Received(c, command, up) => ReceivedKeeps(r, c, command, up);
    case Disconnected(c, up) => DisconnectedKeeps(r, c, up);
    case PubSubDelivery(m, seqNo, payload) => BroadcastKeeps(r, m, Delivery(seqNo, payload));
    case WriterEnded(c) => AroundKeeps(r, Handle(r, e));
    case RegistryExpired(m) => AroundKeeps(r, Handle(r, e));
  }

  lemma AroundKeeps(r: Router, r': Router)
    requires MapsOk(r) && r'.connections == r.connections && r'.connectionToMailbox == r.connectionToMailbox
    requires r'.mailboxToConnections == r.mailboxToConnections && r'.outboxes.Keys == r.outboxes.Keys
    ensures MapsOk(r')
  {
    ListsOnly(r, r');
  }

  lemma ConnectedKeeps(r: Router, c: nat, closed: bool)
    requires MapsOk(r)
    ensures MapsOk(HandleConnected(r, c, closed))
  {
    hide ListsOk;
    ListsOnly(r, HandleConnected(r, c, closed));
  }

  // ---------------------------------------------------------------- what the registry covers

  /** Only these two events end the coverage of a mailbox, and both can be told beforehand. */
  predicate Uncovers(r: Router, e: Event, m: nat)
    requires ChannelsOk(r)
  {
    match e
    case RegistryExpired(mailbox) => mailbox == m && m in r.mailboxToConnections
    case Received(c, Authenticate(mailbox, _), up) =>
      // An open connection authenticates while Redis is down, and the registry does not name it yet.
      && mailbox == Some(m) && up.db && !up.redis
      && c in r.connections && c !in r.connectionToMailbox && !r.outboxes[c].closed && !Named(r, m, c)
    case _ => false
  }

  lemma CoversOnly(r: Router, r': Router, m: nat)
    requires r'.connectionToMailbox == r.connectionToMailbox && r'.registry == r.registry && r'.serverId == r.serverId
    ensures Covers(r, m) ==> Covers(r', m)
  {
    if Covers(r, m) {
      forall c | c in r'.connectionToMailbox && r'.connectionToMailbox[c] == m ensures Named(r', m, c) {
        assert Named(r, m, c);
      }
    }
  }

  /** While its channel is open a connection stays in the maps, whatever is sent to it. */
  lemma {:induction false} OpenStays(r: Router, c: nat, rows: seq<Row>, msg: ServerMsg)
    requires c in r.outboxes && !r.outboxes[c].closed
    ensures var r' := SendOrDisconnect(SendBacklog(r, c, rows), c, msg);
            r'.connectionToMailbox == r.connectionToMailbox && r'.registry == r.registry && r'.serverId == r.serverId
    ensures var r' := SendBacklog(r, c, rows);
            r'.connectionToMailbox == r.connectionToMailbox && r'.registry == r.registry && r'.serverId == r.serverId
            && !r'.outboxes[c].closed
  {
    if rows != [] {
      OpenStays(r, c, rows[..|rows| - 1], msg);
    }
  }

  /** Sending to a connection whose channel is closed takes it out of the maps. */
  lemma {:induction false} ClosedGoes(r: Router, c: nat, rows: seq<Row>, msg: ServerMsg)
    requires MapsOk(r) && c in r.outboxes && r.outboxes[c].closed
    ensures var r' := SendOrDisconnect(SendBacklog(r, c, rows), c, msg);
            c !in r'.connectionToMailbox && Trimmed(r, r')
    ensures MapsOk(SendBacklog(r, c, rows)) && SendBacklog(r, c, rows).outboxes == r.outboxes
  {
    hide ListsOk, DisconnectClient;
    SendBacklogKeeps(r, c, rows);
    if rows != [] {
      ClosedGoes(r, c, rows[..|rows| - 1], msg);
      DisconnectKeeps(SendBacklog(r, c, rows[..|rows| - 1]), c);
    }
    DisconnectKeeps(SendBacklog(r, c, rows), c);
  }

  lemma AuthenticatesAs(r: Router, c: nat, m: nat, lastSeq: int, up: Backends)
    requires ChannelsOk(r) && c in r.connections && c !in r.connectionToMailbox && up.db
    ensures HandleReceived(r, c, Authenticate(Some(m), lastSeq), up)
         == SendOrDisconnect(SendBacklog(Register(r, c, m, up), c, Backlog(r.table.rows, m, lastSeq)), c,
                             Say(AuthOk(m)))
  {
    hide SendOrDisconnect, SendBacklog, Backlog;
  }

  /** An authentication that gets as far as the maps. */
  lemma AuthenticateCovers(r: Router, c: nat, mailbox: nat, lastSeq: int, up: Backends, m: nat)
    requires MapsOk(r) && Covers(r, m) && c in r.connections && c !in r.connectionToMailbox && up.db
    ensures var e := Received(c, Authenticate(Some(mailbox), lastSeq), up);
            Covers(Handle(r, e), m) <==> !Uncovers(r, e, m)
  {
    var r1, rows, msg := Register(r, c, mailbox, up), Backlog(r.table.rows, mailbox, lastSeq), Say(AuthOk(mailbox));
    var r' := SendOrDisconnect(SendBacklog(r1, c, rows), c, msg);
    hide ListsOk, SendBacklog, SendOrDisconnect, Backlog, HandleReceived, Covers, Named;
    AuthenticatesAs(r, c, mailbox, lastSeq, up);
    RegisterKeeps(r, c, mailbox, up);
    RegisterRest(r, c, mailbox, up);
    RegisteredNames(r, c, mailbox, up, m);
    if r.outboxes[c].closed {
      ClosedGoes(r1, c, rows, msg);
      WithoutItself(r, c, mailbox, up, r', m);
    } else {
      OpenStays(r1, c, rows, msg);
      CoversOnly(r1, r', m);
      CoversOnly(r', r1, m);
    }
  }

  lemma WithoutItself(r: Router, c: nat, mailbox: nat, up: Backends, r': Router, m: nat)
    requires Covers(r, m) && c !in r.connectionToMailbox
    requires Trimmed(Register(r, c, mailbox, up), r') && c !in r'.connectionToMailbox
    ensures Covers(r', m)
  {
    RegisteredNames(r, c, mailbox, up, m);
    forall d | d in r'.connectionToMailbox && r'.connectionToMailbox[d] == m ensures Named(r', m, d) {
      assert Named(r, m, d) && Named(Register(r, c, mailbox, up), m, d);
    }
  }

  lemma RegisteredNames(r: Router, c: nat, mailbox: nat, up: Backends, m: nat)
    requires Covers(r, m) && c !in r.connectionToMailbox
    ensures var r1 := Register(r, c, mailbox, up);
            && (forall d :: Named(r, m, d) ==> Named(r1, m, d))
            && (Covers(r1, m) <==> (mailbox == m ==> up.redis || Named(r, m, c)))
  {
    var r1 := Register(r, c, mailbox, up);
    forall d | d in r.connectionToMailbox && r.connectionToMailbox[d] == m ensures Named(r1, m, d) {
      assert Named(r, m, d);
    }
    assert mailbox == m && Covers(r1, m) ==> Named(r1, m, c);
  }

  lemma ReceivedCovers(r: Router, c: nat, command: Command, up: Backends, m: nat)
    requires MapsOk(r) && Covers(r, m)
    ensures var e := Received(c, command, up);
            Covers(Handle(r, e), m) <==> !Uncovers(r, e, m)
  {
    hide ListsOk, SendOrDisconnect, Broadcast, HandleSend, Register, SendBacklog, Covers, Trimmed;
    if c in r.connections {
      SayKeeps(r, c);
      match command
      case Authenticate(mailbox, lastSeq) =>
        if c !in r.connectionToMailbox && mailbox.Some? && up.db {
          AuthenticateCovers(r, c, mailbox.value, lastSeq, up, m);
        } else {
          TrimmedCovers(r, HandleReceived(r, c, command, up), m);
        }
      case Send(mailbox, payload, messageId) =>
        if c in r.connectionToMailbox && mailbox.Some? && messageId.Some? {
          HandleSendKeeps(r, payload, mailbox.value, messageId.value, c, up);
        }
        TrimmedCovers(r, HandleReceived(r, c, command, up), m);
      case TypingCommand(mailbox, payload, stop) =>
        if c in r.connectionToMailbox && mailbox.Some? {
          BroadcastKeeps(r, mailbox.value, Typing(payload, stop));
          TrimmedCovers(r, Broadcast(r, mailbox.value, Typing(payload, stop)), m);
        }
    }
  }

  /**
   The registry keeps covering a mailbox through every event but two: its key expires while it has a
   connection, or an open connection authenticates for it while Redis is down.
   */
  lemma HandleCovers(r: Router, e: Event, m: nat)
    requires MapsOk(r) && Covers(r, m)
    ensures Covers(Handle(r, e), m) <==> !Uncovers(r, e, m)
  {
    match e
    case Connected(c, closed) => CoversOnly(r, Handle(r, e), m);
    case Received(c, command, up) => ReceivedCovers(r, c, command, up, m);
    case Disconnected(c, up) => DisconnectedKeeps(r, c, up);
    case PubSubDelivery(mailbox, seqNo, payload) =>
      BroadcastKeeps(r, mailbox, Delivery(seqNo, payload));
      TrimmedCovers(r, Handle(r, e), m);
    case WriterEnded(c) => CoversOnly(r, Handle(r, e), m);
    case RegistryExpired(mailbox) => ExpiryUncovers(r, mailbox, m);
  }

  lemma ExpiryUncovers(r: Router, mailbox: nat, m: nat)
    requires MapsOk(r) && Covers(r, m)
    ensures Covers(Handle(r, RegistryExpired(mailbox)), m) <==> !(mailbox == m && m in r.mailboxToConnections)
  {
    var r' := Handle(r, RegistryExpired(mailbox));
    if mailbox != m {
      forall c | c in r'.connectionToMailbox && r'.connectionToMailbox[c] == m ensures Named(r', m, c) {
        assert Named(r, m, c);
      }
    } else if m in r.mailboxToConnections {
      var c := r.mailboxToConnections[m][0];
      assert c in r.mailboxToConnections[m] && !Named(r', m, c);
    }
  }

  /** From consistent maps, every sequence of events leads to consistent maps. */
  ghost function HandleAll(r: Router, events: seq<Event>): (r': Router)
    requires MapsOk(r)
    ensures MapsOk(r')
  {
    if events == [] then r else
    var before := HandleAll(r, events[..|events| - 1]);
    HandleKeeps(before, events[|events| - 1]);
    Handle(before, events[|events| - 1])
  }

  lemma NewRouterOk(serverId: nat, registry: map<nat, map<nat, nat>>, table: Table)
    ensures MapsOk(NewRouter(serverId, registry, table)) && forall m :: Covers(NewRouter(serverId, registry, table), m)
  {
  }
}
