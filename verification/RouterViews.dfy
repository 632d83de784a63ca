/**
 What every event does, said part by part and independently of the handlers: at each connection, in the
 registry, on the channels of the other servers, and in the table.
 */
module RouterViews {
  import opened Wrappers
  import opened Router
  import opened RouterMaps
  import opened Mailbox
  import opened MailboxRuns

  // ---------------------------------------------------------------- what an event is

  /** A live connection that has not authenticated presents a valid token, and the database answers. */
  predicate Joins(r: Router, e: Event, c: nat, m: nat) {
    && e.Received? && e.client == c && e.command.Authenticate? && e.command.mailbox == Some(m) && e.up.db
    && c in r.connections && c !in r.connectionToMailbox
  }

  /** An authenticated connection sends a well-formed frame to mailbox m. */
  predicate Posts(r: Router, e: Event, m: nat) {
    && e.Received? && e.command.Send? && e.command.mailbox == Some(m) && e.command.messageId.Some?
    && e.client in r.connections && e.client in r.connectionToMailbox
  }

  predicate MappedTo(r: Router, c: nat, m: nat) {
    c in r.connectionToMailbox && r.connectionToMailbox[c] == m
  }

  /** Some connection of the mailbox is registered at the server. */
  ghost predicate HasConnectionAt(r: Router, m: nat, server: nat) {
    exists c :: RegistryAt(r, m, c) == Some(server)
  }

  function RegistryAt(r: Router, m: nat, c: nat): Option<nat> {
    if m in r.registry && c in r.registry[m] then Some(r.registry[m][c]) else None
  }

  /** The number a frame gets: the next one, or 0 if it is not stored. */
  function Number(r: Router, e: Event): nat
    requires e.Received? && e.command.Send? && e.command.messageId.Some?
  {
    if e.up.db && !HasRow(r.table.rows, e.command.messageId.value) then r.table.lastSeq + 1 else 0
  }

  // ---------------------------------------------------------------- at a connection

  /** What a client's own command answers it with, before any delivery. */
  function Answers(r: Router, c: nat, command: Command, up: Backends): seq<ServerMsg> {
    match command
    case Authenticate(mailbox, lastSeq) =>
      if c in r.connectionToMailbox then [Say(ReauthForbidden)]
      else if mailbox.None? || !up.db then [Say(AuthFailed)]
      else AsDeliveries(Backlog(r.table.rows, mailbox.value, lastSeq)) + [Say(AuthOk(mailbox.value))]
    case Send(mailbox, _, messageId) =>
      if c !in r.connectionToMailbox then [Say(Unauthenticated)]
      else if mailbox.None? then [Say(BadMailbox)]
      else if messageId.None? then [Say(BadMessageId)]
      else [Ack(messageId.value)]
    case TypingCommand(_, _, _) => []
  }

  /** The frames that go to every authenticated connection of mailbox m. */
  ghost function Broadcasts(r: Router, e: Event, m: nat): seq<ServerMsg> {
    match e
    case PubSubDelivery(mailbox, seqNo, payload) => if mailbox == m then [Delivery(seqNo, payload)] else []
    case Received(c, Send(_, payload, _), up) =>
      if Posts(r, e, m) && up.redis && HasConnectionAt(r, m, r.serverId) then [Delivery(Number(r, e), payload)] else []
    case Received(c, TypingCommand(mailbox, payload, stop), _) =>
      if c in r.connections && c in r.connectionToMailbox && mailbox == Some(m) then [Typing(payload, stop)] else []
    case _ => []
  }

  /** All frames the event has for connection c. */
  ghost function Frames(r: Router, e: Event, c: nat): seq<ServerMsg> {
    (if e.Received? && e.client == c && c in r.connections then Answers(r, c, e.command, e.up) else [])
    + (if c in r.connectionToMailbox then Broadcasts(r, e, r.connectionToMailbox[c]) else [])
  }

  /** A connection after some frames were meant for it: they wait in its channel, or the router has dropped it. */
  function Given(p: Port, frames: seq<ServerMsg>): Port {
    if frames == [] then p
    else if p.outbox.closed then Port(false, None, p.outbox)
    else p.(outbox := p.outbox.(queue := p.outbox.queue + frames))
  }

  /** A connection as the event leaves it. */
  ghost function PortAfter(r: Router, e: Event, c: nat): Port
    requires c in r.outboxes
  {
    match e
    case Connected(client, closed) =>
      if client == c && !closed then At(r, c).(live := true, outbox := Outbox([Say(Welcome)], false)) else At(r, c)
    case Disconnected(client, _) => if client == c then Port(false, None, r.outboxes[c]) else At(r, c)
    case WriterEnded(client) =>
      if client == c then At(r, c).(outbox := r.outboxes[c].(closed := true)) else At(r, c)
    case RegistryExpired(_) => At(r, c)
    case PubSubDelivery(_, _, _) => Given(At(r, c), Frames(r, e, c))
    case Received(client, command, up) =>
      var joined := if client == c && command.Authenticate? && command.mailbox.Some?
                       && Joins(r, e, c, command.mailbox.value)
                    then At(r, c).(mailbox := command.mailbox) else At(r, c);
      Given(joined, Frames(r, e, c))
  }

  lemma RegisteredAt(r: Router, m: nat, up: Backends)
    ensures r.serverId in Recipients(r.registry, m, up) <==> up.redis && HasConnectionAt(r, m, r.serverId)
    ensures forall s :: s in Recipients(r.registry, m, up) <==> up.redis && HasConnectionAt(r, m, s)
  {
    forall s ensures s in Recipients(r.registry, m, up) <==> up.redis && HasConnectionAt(r, m, s) {
      if s in Servers(r.registry, m) {
        var c :| c in Registered(r.registry, m) && Registered(r.registry, m)[c] == s;
        assert RegistryAt(r, m, c) == Some(s);
      }
      if HasConnectionAt(r, m, s) {
        var c :| RegistryAt(r, m, c) == Some(s);
        assert Registered(r.registry, m)[c] == s;
      }
    }
  }

  lemma GivenOne(p: Port, msg: ServerMsg)
    ensures PortSend(p, msg) == Given(p, [msg])
  {
  }

  lemma GivenNone(p: Port)
    ensures Given(p, []) == p
  {
  }

  lemma GivenAdd(p: Port, a: seq<ServerMsg>, b: seq<ServerMsg>)
    ensures Given(Given(p, a), b) == Given(p, a + b)
  {
    if a == [] {
      assert a + b == b;
    } else if b == [] {
      assert a + b == a;
    } else if !p.outbox.closed {
      assert p.outbox.queue + a + b == p.outbox.queue + (a + b);
    }
  }
  lemma GivenAll(p: Port, msgs: seq<ServerMsg>)
    ensures PortSendAll(p, msgs) == Given(p, msgs)
  {
    SendAllQueue(p, msgs);
    if msgs == [] {
      assert p.outbox.queue + [] == p.outbox.queue;
    }
  }

  lemma AuthenticateIsGiven(r: Router, x: nat, mailbox: Option<nat>, lastSeq: int, up: Backends, c: nat)
    requires MapsOk(r) && x in r.connections && c in r.outboxes
    ensures var e := Received(x, Authenticate(mailbox, lastSeq), up);
            c in Handle(r, e).outboxes && At(Handle(r, e), c) == PortAfter(r, e, c)
  {
    hide ListsOk, SendOrDisconnect, PortSend, Backlog, HandleAuthenticate;
    if x !in r.connectionToMailbox && mailbox.Some? && up.db {
      hide At;
      var rows := AsDeliveries(Backlog(r.table.rows, mailbox.value, lastSeq));
      AuthenticateAt(r, x, mailbox.value, lastSeq, up, c);
      var joined := At(r, c).(mailbox := mailbox);
      GivenAll(joined, rows);
      GivenOne(Given(joined, rows), Say(AuthOk(mailbox.value)));
      GivenAdd(joined, rows, [Say(AuthOk(mailbox.value))]);
      assert rows + [Say(AuthOk(mailbox.value))] + [] == rows + [Say(AuthOk(mailbox.value))];
    } else {
      RefusedIs(r, x, mailbox, lastSeq, up);
      SayIsGiven(r, x, if x in r.connectionToMailbox then Say(ReauthForbidden) else Say(AuthFailed), c);
    }
  }

  lemma RefusedIs(r: Router, x: nat, mailbox: Option<nat>, lastSeq: int, up: Backends)
    requires MapsOk(r) && x in r.connections && (x in r.connectionToMailbox || mailbox.None? || !up.db)
    ensures HandleReceived(r, x, Authenticate(mailbox, lastSeq), up)
         == SendOrDisconnect(r, x, if x in r.connectionToMailbox then Say(ReauthForbidden) else Say(AuthFailed))
  {
  }

  /** A client is told something and nobody else is. */
  lemma SayIsGiven(r: Router, x: nat, msg: ServerMsg, c: nat)
    requires x in r.outboxes && c in r.outboxes
    ensures c in SendOrDisconnect(r, x, msg).outboxes
    ensures At(SendOrDisconnect(r, x, msg), c) == Given(At(r, c), if x == c then [msg] else [])
  {
    hide SendOrDisconnect, At;
    SendAt(r, x, msg, c);
    GivenOne(At(r, c), msg);
  }

  lemma SendIsGiven(r: Router, x: nat, mailbox: Option<nat>, payload: string, messageId: Option<nat>, up: Backends,
                    c: nat)
    requires MapsOk(r) && x in r.connections && c in r.outboxes
    ensures var e := Received(x, Send(mailbox, payload, messageId), up);
            c in Handle(r, e).outboxes && At(Handle(r, e), c) == PortAfter(r, e, c)
  {
    hide ListsOk, SendOrDisconnect, PortSend, HandleSend;
    if x in r.connectionToMailbox && mailbox.Some? && messageId.Some? {
      hide HasRow, HasConnectionAt, Recipients;
      var m, e := mailbox.value, Received(x, Send(mailbox, payload, messageId), up);
      HandleSendAt(r, payload, m, messageId.value, x, up, c);
      RegisteredAt(r, m, up);
      var ack := Ack(messageId.value);
      var delivery := Delivery(Insert(r.table, messageId.value, m, payload, up.db).1, payload);
      GivenOne(At(r, c), ack);
      GivenOne(At(r, c), delivery);
      GivenOne(Given(At(r, c), [ack]), delivery);
      GivenAdd(At(r, c), [ack], [delivery]);
      AckThenDelivery(r, c, e, m, ack, delivery);
    } else {
      SayIsGiven(r, x, if x !in r.connectionToMailbox then Say(Unauthenticated)
                       else if mailbox.None? then Say(BadMailbox) else Say(BadMessageId), c);
    }
  }

  lemma AckThenDelivery(r: Router, c: nat, e: Event, m: nat, ack: ServerMsg, delivery: ServerMsg)
    requires MapsOk(r) && c in r.outboxes && Posts(r, e, m) && ack == Ack(e.command.messageId.value)
    requires delivery == Delivery(Number(r, e), e.command.payload)
    ensures var reached := e.up.redis && HasConnectionAt(r, m, r.serverId) && MappedTo(r, c, m);
            Frames(r, e, c) == (if e.client == c then [ack] else []) + if reached then [delivery] else []
  {
    hide HasConnectionAt, HasRow;
  }

  lemma BroadcastIsGiven(r: Router, m: nat, msg: ServerMsg, c: nat)
    requires MapsOk(r) && c in r.outboxes
    ensures c in Broadcast(r, m, msg).outboxes
    ensures At(Broadcast(r, m, msg), c) == Given(At(r, c), if MappedTo(r, c, m) then [msg] else [])
  {
    hide Broadcast, ListsOk;
    BroadcastKeys(r, m, msg);
    BroadcastAt(r, m, msg, c);
    GivenOne(At(r, c), msg);
  }

  lemma TypingIsGiven(r: Router, x: nat, mailbox: Option<nat>, payload: string, stop: bool, c: nat)
    requires MapsOk(r) && x in r.connections && c in r.outboxes
    ensures forall up :: var e := Received(x, TypingCommand(mailbox, payload, stop), up);
                         c in Handle(r, e).outboxes && At(Handle(r, e), c) == PortAfter(r, e, c)
  {
    hide ListsOk, Broadcast, At;
    if mailbox.Some? {
      BroadcastIsGiven(r, mailbox.value, Typing(payload, stop), c);
    }
  }

  lemma ReceivedAt(r: Router, x: nat, command: Command, up: Backends, c: nat)
    requires MapsOk(r) && c in r.outboxes
    ensures var e := Received(x, command, up);
            c in Handle(r, e).outboxes && At(Handle(r, e), c) == PortAfter(r, e, c)
  {
    hide ListsOk;
    if x in r.connections {
      hide Handle, PortAfter;
      match command
      case Authenticate(mailbox, lastSeq) => AuthenticateIsGiven(r, x, mailbox, lastSeq, up, c);
      case Send(mailbox, payload, messageId) => SendIsGiven(r, x, mailbox, payload, messageId, up, c);
      case TypingCommand(mailbox, payload, stop) => TypingIsGiven(r, x, mailbox, payload, stop, c);
    }
  }

  /** At every connection every event leaves what is said here, with these frames in this order and no others. */
  lemma EventAt(r: Router, e: Event, c: nat)
    requires MapsOk(r) && c in r.outboxes
    ensures c in Handle(r, e).outboxes && At(Handle(r, e), c) == PortAfter(r, e, c)
  {
    hide ListsOk, HandleReceived, HandleDisconnected, Broadcast, Answers;
    match e
    case Connected(_, _) =>
    case Received(x, command, up) => ReceivedAt(r, x, command, up, c);
    case Disconnected(x, up) => DisconnectedAt(r, x, up, c);
    case PubSubDelivery(m, seqNo, payload) => BroadcastIsGiven(r, m, Delivery(seqNo, payload), c);
    case WriterEnded(_) =>
    case RegistryExpired(_) =>
  }

  /** A channel comes with a client that connects, and in no other way; it starts with the welcome. */
  lemma ChannelsOnlyByConnecting(r: Router, e: Event, c: nat)
    requires MapsOk(r) && c !in r.outboxes
    ensures c in Handle(r, e).outboxes <==> e.Connected? && e.client == c && !e.closed
    ensures c in Handle(r, e).outboxes ==>
              At(Handle(r, e), c) == Port(true, None, Outbox([Say(Welcome)], false))
  {
    hide ListsOk, HandleReceived, Broadcast;
    match e
    case Connected(_, _) =>
    case Received(x, command, up) => ReceivedKeys(r, x, command, up);
    case Disconnected(x, up) => DisconnectedTable(r, x, up);
    case PubSubDelivery(m, seqNo, payload) => BroadcastKeys(r, m, Delivery(seqNo, payload));
    case WriterEnded(_) =>
    case RegistryExpired(_) =>
  }

  /** Consistent routers that look the same at every connection hold the same maps, lists up to their order. */
  lemma ViewsDetermine(r: Router, r': Router)
    requires MapsOk(r) && MapsOk(r') && r.outboxes.Keys == r'.outboxes.Keys
    requires forall c :: c in r.outboxes ==> At(r, c) == At(r', c)
    ensures r.connections == r'.connections && r.outboxes == r'.outboxes
    ensures r.connectionToMailbox == r'.connectionToMailbox
    ensures r.mailboxToConnections.Keys == r'.mailboxToConnections.Keys
    ensures forall m :: m in r.mailboxToConnections ==>
              forall c :: c in r.mailboxToConnections[m] <==> c in r'.mailboxToConnections[m]
  {
    SameAtEach(r, r');
    SameMailboxes(r, r');
    SameMailboxes(r', r);
  }

  lemma SameAtEach(r: Router, r': Router)
    requires MapsOk(r) && MapsOk(r') && r.outboxes.Keys == r'.outboxes.Keys
    requires forall c :: c in r.outboxes ==> At(r, c) == At(r', c)
    ensures r.connections == r'.connections && r.outboxes == r'.outboxes
    ensures r.connectionToMailbox == r'.connectionToMailbox
  {
    hide ListsOk;
    forall c | c in r.outboxes
      ensures c in r.connections <==> c in r'.connections
      ensures r.outboxes[c] == r'.outboxes[c]
      ensures c in r.connectionToMailbox <==> c in r'.connectionToMailbox
      ensures c in r.connectionToMailbox ==> r.connectionToMailbox[c] == r'.connectionToMailbox[c]
    {
      assert At(r, c) == At(r', c);
    }
  }

  lemma SameMailboxes(r: Router, r': Router)
    requires ListsOk(r) && ListsOk(r') && r.connectionToMailbox == r'.connectionToMailbox
    ensures r.mailboxToConnections.Keys <= r'.mailboxToConnections.Keys
    ensures forall m, c :: m in r.mailboxToConnections && c in r.mailboxToConnections[m] ==>
              m in r'.mailboxToConnections && c in r'.mailboxToConnections[m]
  {
    hide NoDuplicates;
    forall m, c | m in r.mailboxToConnections && c in r.mailboxToConnections[m]
      ensures m in r'.mailboxToConnections && c in r'.mailboxToConnections[m]
    {
      assert c in r.connectionToMailbox && r.connectionToMailbox[c] == m;
      assert r'.connectionToMailbox[c] in r'.mailboxToConnections;
    }
    forall m | m in r.mailboxToConnections ensures m in r'.mailboxToConnections {
      assert r.mailboxToConnections[m][0] in r.mailboxToConnections[m];
    }
  }

  // ---------------------------------------------------------------- the registry, the channels and the table

  /** The registry's entry for a connection of a mailbox as the event leaves it. */
  function EntryAfter(r: Router, e: Event, m: nat, c: nat): Option<nat> {
    match e
    case Received(_, _, up) => if Joins(r, e, c, m) && up.redis then Some(r.serverId) else RegistryAt(r, m, c)
    case Disconnected(client, up) =>
      if client == c && MappedTo(r, c, m) && up.redis then None else RegistryAt(r, m, c)
    case RegistryExpired(mailbox) => if mailbox == m then None else RegistryAt(r, m, c)
    case _ => RegistryAt(r, m, c)
  }

  /** What the event publishes for another server. */
  ghost function PublishedFor(r: Router, e: Event, server: nat): seq<Published> {
    if server != r.serverId && e.Received? && e.command.Send? && e.command.mailbox.Some?
       && Posts(r, e, e.command.mailbox.value) && e.up.redis && HasConnectionAt(r, e.command.mailbox.value, server)
    then [Published(e.command.mailbox.value, e.command.messageId.value, Number(r, e), e.command.payload)]
    else []
  }

  /** The table after the event: a row for a stored frame, and a number gone for each insert that was answered. */
  function TableAfter(r: Router, e: Event): Table {
    if e.Received? && e.command.Send? && e.command.mailbox.Some? && Posts(r, e, e.command.mailbox.value) && e.up.db
    then Table(r.table.rows + if Number(r, e) == 0 then []
                              else [Row(e.command.messageId.value, e.command.mailbox.value, Number(r, e),
                                        e.command.payload)],
               r.table.lastSeq + 1)
    else r.table
  }

  /** What SendOrDisconnect, and every loop over it, leaves alone. */
  ghost predicate SameBehind(r: Router, r': Router) {
    && r'.registry == r.registry && r'.serverId == r.serverId && r'.table == r.table && r'.published == r.published
  }

  lemma SendBehind(r: Router, c: nat, msg: ServerMsg)
    requires c in r.outboxes
    ensures SameBehind(r, SendOrDisconnect(r, c, msg))
  {
    hide Without, NoDuplicates;
  }

  lemma {:induction false} SendEachBehind(r: Router, cs: seq<nat>, msg: ServerMsg)
    requires forall c :: c in cs ==> c in r.outboxes
    ensures SameBehind(r, SendEach(r, cs, msg))
  {
    hide SendOrDisconnect;
    if cs != [] {
      SendEachBehind(r, cs[..|cs| - 1], msg);
      SendBehind(SendEach(r, cs[..|cs| - 1], msg), cs[|cs| - 1], msg);
    }
  }

  lemma {:induction false} BacklogBehind(r: Router, c: nat, rows: seq<Row>)
    requires c in r.outboxes
    ensures SameBehind(r, SendBacklog(r, c, rows))
  {
    hide SendOrDisconnect;
    if rows != [] {
      BacklogBehind(r, c, rows[..|rows| - 1]);
      SendBehind(SendBacklog(r, c, rows[..|rows| - 1]), c,
                 Delivery(rows[|rows| - 1].seqNo, rows[|rows| - 1].payload));
    }
  }

  lemma BroadcastBehind(r: Router, m: nat, msg: ServerMsg)
    requires ChannelsOk(r)
    ensures SameBehind(r, Broadcast(r, m, msg))
  {
    if m in r.mailboxToConnections {
      SendEachBehind(r, Live(r.mailboxToConnections[m], r.connections), msg);
    }
  }

  ghost predicate Behind(r: Router, e: Event, r': Router) {
    && r'.serverId == r.serverId && r'.table == TableAfter(r, e)
    && (forall m, c :: RegistryAt(r', m, c) == EntryAfter(r, e, m, c))
    && (forall s :: Channel(r'.published, s) == Channel(r.published, s) + PublishedFor(r, e, s))
  }

  lemma NothingBehind(r: Router, e: Event, r': Router)
    requires SameBehind(r, r') && (e.Received? ==> (forall m, c :: !Joins(r, e, c, m)) && (forall m :: !Posts(r, e, m)))
    requires !e.Disconnected? && !e.RegistryExpired?
    ensures Behind(r, e, r')
  {
  }

  lemma AuthenticateBehind(r: Router, x: nat, mailbox: Option<nat>, lastSeq: int, up: Backends)
    requires ChannelsOk(r)
    ensures var e := Received(x, Authenticate(mailbox, lastSeq), up); Behind(r, e, Handle(r, e))
  {
    hide SendOrDisconnect, SendBacklog, Backlog;
    var e := Received(x, Authenticate(mailbox, lastSeq), up);
    if x in r.connections && x !in r.connectionToMailbox && mailbox.Some? && up.db {
      var r1, rows := Register(r, x, mailbox.value, up), Backlog(r.table.rows, mailbox.value, lastSeq);
      BacklogBehind(r1, x, rows);
      SendBehind(SendBacklog(r1, x, rows), x, Say(AuthOk(mailbox.value)));
    } else {
      if x in r.connections {
        SendBehind(r, x, if x in r.connectionToMailbox then Say(ReauthForbidden) else Say(AuthFailed));
      }
      NothingBehind(r, e, Handle(r, e));
    }
  }

  lemma SendCommandBehind(r: Router, x: nat, mailbox: Option<nat>, payload: string, messageId: Option<nat>,
                          up: Backends)
    requires ChannelsOk(r)
    ensures var e := Received(x, Send(mailbox, payload, messageId), up); Behind(r, e, Handle(r, e))
  {
    hide SendOrDisconnect, HandleSend;
    var e := Received(x, Send(mailbox, payload, messageId), up);
    if x in r.connections && x in r.connectionToMailbox && mailbox.Some? && messageId.Some? {
      HandleSendBehind(r, payload, mailbox.value, messageId.value, x, up);
      RegisteredAt(r, mailbox.value, up);
    } else {
      if x in r.connections {
        SendBehind(r, x, if x !in r.connectionToMailbox then Say(Unauthenticated)
                         else if mailbox.None? then Say(BadMailbox) else Say(BadMessageId));
      }
      NothingBehind(r, e, Handle(r, e));
    }
  }

  lemma HandleSendBehind(r: Router, payload: string, m: nat, messageId: nat, x: nat, up: Backends)
    requires ChannelsOk(r)
    ensures var r', inserted := HandleSend(r, payload, m, messageId, x, up),
                                Insert(r.table, messageId, m, payload, up.db);
            && r'.serverId == r.serverId && r'.registry == r.registry && r'.table == inserted.0
            && forall s :: Channel(r'.published, s)
                           == Channel(r.published, s)
                              + if s != r.serverId && s in Recipients(r.registry, m, up)
                                then [Published(m, messageId, inserted.1, payload)] else []
  {
    hide SendOrDisconnect, Broadcast, Insert, Recipients;
    var inserted := Insert(r.table, messageId, m, payload, up.db);
    var r1 := r.(table := inserted.0);
    if x in r1.connections {
      SendBehind(r1, x, Ack(messageId));
      SayKeys(r1, x);
    }
    var r2 := if x in r1.connections then SendOrDisconnect(r1, x, Ack(messageId)) else r1;
    BroadcastBehind(r2, m, Delivery(inserted.1, payload));
    assert forall s :: Channel(r.published, s) + [] == Channel(r.published, s);
  }

  lemma TypingBehind(r: Router, x: nat, mailbox: Option<nat>, payload: string, stop: bool, up: Backends)
    requires ChannelsOk(r)
    ensures var e := Received(x, TypingCommand(mailbox, payload, stop), up); Behind(r, e, Handle(r, e))
  {
    hide Broadcast;
    var e := Received(x, TypingCommand(mailbox, payload, stop), up);
    if mailbox.Some? {
      BroadcastBehind(r, mailbox.value, Typing(payload, stop));
    }
    NothingBehind(r, e, Handle(r, e));
  }

  lemma DisconnectedBehind(r: Router, x: nat, up: Backends)
    requires ChannelsOk(r)
    ensures Behind(r, Disconnected(x, up), Handle(r, Disconnected(x, up)))
  {
    hide DisconnectClient;
    var r1 := if x in r.connectionToMailbox && up.redis then Unregister(r, r.connectionToMailbox[x], x) else r;
    DropBehind(r1, x);
  }

  lemma DropBehind(r: Router, c: nat)
    ensures SameBehind(r, DisconnectClient(r, c))
  {
    hide Without, NoDuplicates;
  }

  lemma ReceivedBehind(r: Router, x: nat, command: Command, up: Backends)
    requires ChannelsOk(r)
    ensures Behind(r, Received(x, command, up), Handle(r, Received(x, command, up)))
  {
    hide Handle, Behind;
    match command
    case Authenticate(mailbox, lastSeq) => AuthenticateBehind(r, x, mailbox, lastSeq, up);
    case Send(mailbox, payload, messageId) => SendCommandBehind(r, x, mailbox, payload, messageId, up);
    case TypingCommand(mailbox, payload, stop) => TypingBehind(r, x, mailbox, payload, stop, up);
  }

  lemma ExpiredBehind(r: Router, m: nat)
    requires ChannelsOk(r)
    ensures Behind(r, RegistryExpired(m), Handle(r, RegistryExpired(m)))
  {
  }

  /** Behind every event the registry, the other servers' channels and the table are as said here. */
  lemma EventBehind(r: Router, e: Event)
    requires ChannelsOk(r)
    ensures Behind(r, e, Handle(r, e))
  {
    hide HandleReceived, Broadcast, HandleDisconnected, Behind;
    match e
    case Connected(_, _) => NothingBehind(r, e, Handle(r, e));
    case Received(x, command, up) => ReceivedBehind(r, x, command, up);
    case Disconnected(x, up) => DisconnectedBehind(r, x, up);
    case PubSubDelivery(m, seqNo, payload) =>
      BroadcastBehind(r, m, Delivery(seqNo, payload));
      NothingBehind(r, e, Handle(r, e));
    case WriterEnded(_) => NothingBehind(r, e, Handle(r, e));
    case RegistryExpired(m) => ExpiredBehind(r, m);
  }
  /**
   A frame posted on server a, for a mailbox with a connection registered at server b: the last publication
   on b's channel is the frame with its number, and b hands it to each open connection of the mailbox.
   */
  lemma SentAcrossServers(a: Router, b: Router, e: Event, m: nat, c: nat)
    requires MapsOk(a) && MapsOk(b) && a.serverId != b.serverId
    requires Posts(a, e, m) && e.up.redis && HasConnectionAt(a, m, b.serverId)
    requires MappedTo(b, c, m) && !b.outboxes[c].closed
    ensures var channel := Channel(Handle(a, e).published, b.serverId);
            && channel == Channel(a.published, b.serverId)
                          + [Published(m, e.command.messageId.value, Number(a, e), e.command.payload)]
            && var p := channel[|channel| - 1];
               var b' := Handle(b, PubSubDelivery(p.mailbox, p.seqNo, p.payload));
               && c in b'.outboxes && At(b', c).mailbox == Some(m)
               && b'.outboxes[c].queue == b.outboxes[c].queue + [Delivery(Number(a, e), e.command.payload)]
  {
    hide ListsOk, Handle, HasConnectionAt, HasRow;
    EventBehind(a, e);
    EventAt(b, PubSubDelivery(m, Number(a, e), e.command.payload), c);
    assert [] + [Delivery(Number(a, e), e.command.payload)] == [Delivery(Number(a, e), e.command.payload)];
  }

  // ---------------------------------------------------------------- entries that outlive their connection

  /** The registry names this server for no connection of the mailbox but those the router has. */
  ghost predicate NothingStranded(r: Router, m: nat) {
    forall c :: Named(r, m, c) ==> MappedTo(r, c, m)
  }

  /**
   The event makes the router lose the connection and leaves its entry: it closes while Redis is down,
   or its writer has ended and the event has frames for it, be it the event it authenticates by.
   */
  ghost predicate StrandsOne(r: Router, e: Event, m: nat, c: nat) {
    || (e.Disconnected? && e.client == c && !e.up.redis && Named(r, m, c))
    || (c in r.outboxes && r.outboxes[c].closed && Frames(r, e, c) != []
        && (Named(r, m, c) || (Joins(r, e, c, m) && e.up.redis)))
  }

  ghost predicate Strands(r: Router, e: Event, m: nat) {
    exists c :: StrandsOne(r, e, m, c)
  }

  lemma NamedIsEntry(r: Router, m: nat, c: nat)
    ensures Named(r, m, c) <==> RegistryAt(r, m, c) == Some(r.serverId)
  {
  }

  lemma StrandedAfter(r: Router, e: Event, m: nat, c: nat)
    requires MapsOk(r) && NothingStranded(r, m)
    ensures var r' := Handle(r, e);
            Named(r', m, c) && !MappedTo(r', c, m) <==> StrandsOne(r, e, m, c)
  {
    hide ListsOk, Handle, Backlog, HasConnectionAt, HasRow, Named;
    var r' := Handle(r, e);
    EventBehind(r, e);
    NamedIsEntry(r, m, c);
    NamedIsEntry(r', m, c);
    if c in r.outboxes {
      EventAt(r, e, c);
    }
  }

  /**
   No entry outlives its connection through any event but these two kinds, and through these one does:
   expiry takes entries away, and every other event removes an entry with its connection.
   */
  lemma StrandsExactly(r: Router, e: Event, m: nat)
    requires MapsOk(r) && NothingStranded(r, m)
    ensures NothingStranded(Handle(r, e), m) <==> !Strands(r, e, m)
  {
    hide ListsOk, NothingStranded, Handle, StrandsOne;
    forall c
      ensures Named(Handle(r, e), m, c) && !MappedTo(Handle(r, e), c, m) <==> StrandsOne(r, e, m, c)
    {
      StrandedAfter(r, e, m, c);
    }
    StrandedIs(Handle(r, e), m);
  }

  lemma StrandedIs(r: Router, m: nat)
    ensures NothingStranded(r, m) <==> forall c :: !(Named(r, m, c) && !MappedTo(r, c, m))
  {
  }

  /** An entry whose connection is gone stays until the mailbox's key expires. */
  lemma StrandedStays(r: Router, e: Event, m: nat, c: nat)
    requires MapsOk(r) && Named(r, m, c) && c !in r.connections
    ensures Named(Handle(r, e), m, c) <==> e != RegistryExpired(m)
  {
    hide ListsOk, Handle;
    EventBehind(r, e);
    NamedIsEntry(r, m, c);
    NamedIsEntry(Handle(r, e), m, c);
  }
}
