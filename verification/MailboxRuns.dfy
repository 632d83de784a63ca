/**
 Runs of one server with everything else that happens to it, and one device (a single tab) that
 opens and loses connections, authenticates each with its cursor and takes frames in order.
 */
module MailboxRuns {
  import opened Wrappers
  import opened Router
  import opened RouterMaps
  import opened Mailbox

  datatype Link = Link(router: Router, device: Reader)

  datatype Step =
    | Server(e: Event)              // a router event, or something around the router
    | Open(c: nat, closed: bool)    // the device connects and the router hears of it
    | Take                          // the device processes the next frame of its connection
    | Drop                          // the device's socket closes

  /**
   What may happen at the server. Client ids are never reused, the device authenticates with its own
   token and cursor, and no other server publishes to its mailbox.
   */
  predicate EventMay(l: Link, e: Event) {
    match e
    case Connected(c, _) => c !in l.router.outboxes && l.device.conn != Some(c)
    case Received(c, Authenticate(mailbox, lastSeq), _) =>
      l.device.conn == Some(c) ==>
        lastSeq == l.device.cursor && (mailbox.Some? ==> mailbox.value == l.device.mailbox)
    case PubSubDelivery(mailbox, _, _) => mailbox != l.device.mailbox
    case _ => true
  }

  /** The registry goes on covering the device's mailbox, and Redis answers when a frame is sent to it. */
  predicate KeepsCovering(l: Link, e: Event)
    requires ChannelsOk(l.router)
  {
    && !Uncovers(l.router, e, l.device.mailbox)
    && (e.Received? && e.command.Send? && e.command.mailbox == Some(l.device.mailbox) ==> e.up.redis)
  }

  predicate May(l: Link, s: Step) {
    match s
    case Server(e) => EventMay(l, e)
    case Open(c, _) => l.device.conn.None? && c !in l.router.outboxes
    case Take => true
    case Drop => true
  }

  predicate Allowed(l: Link, s: Step)
    requires ChannelsOk(l.router)
  {
    May(l, s) && (s.Server? ==> KeepsCovering(l, s.e))
  }

  /** The delivery handler's use of the cursor, useChat.ts:206-212. */
  function TakeFrame(d: Reader, msg: ServerMsg): Reader {
    if !msg.Delivery? then d.(taken := d.taken + 1)
    else d.(taken := d.taken + 1, processed := d.processed + [msg],
            cursor := if msg.seqNo > d.cursor then msg.seqNo else d.cursor)
  }

  /** The insert of a frame for mailbox m yields a number: the database answers and the message id is new. */
  predicate InsertsFine(r: Router, e: Event, m: nat) {
    e.Received? && e.command.Send? && e.command.mailbox == Some(m) && e.command.messageId.Some? ==>
      e.up.db && !HasRow(r.table.rows, e.command.messageId.value)
  }

  function Effect(l: Link, s: Step): Link
    requires ChannelsOk(l.router)
  {
    match s
    case Server(e) =>
      Link(Handle(l.router, e), l.device.(clean := l.device.clean && InsertsFine(l.router, e, l.device.mailbox)))
    case Open(c, closed) =>
      Link(Handle(l.router, Connected(c, closed)), l.device.(conn := Some(c), taken := 0))
    case Take =>
      if l.device.conn.None? || l.device.conn.value !in l.router.outboxes
         || l.device.taken >= |l.router.outboxes[l.device.conn.value].queue| then l
      else l.(device := TakeFrame(l.device, l.router.outboxes[l.device.conn.value].queue[l.device.taken]))
    case Drop => l.(device := l.device.(conn := None, taken := 0))
  }

  function Next(l: Link, s: Step): Link
    requires ChannelsOk(l.router)
  {
    if Allowed(l, s) then Effect(l, s) else l
  }

  /** The connection, if the router ever held it, feeds the device. */
  ghost predicate Fed(r: Router, d: Reader) {
    d.conn.Some? && d.conn.value in r.outboxes ==> Feeds(At(r, d.conn.value), d, Log(r.table.rows, d.mailbox))
  }

  /** The device has read a prefix of its log, and its connection feeds it the rest. */
  ghost predicate InTouch(l: Link) {
    && MapsOk(l.router) && TableOk(l.router.table)
    && ReadPrefix(l.device, Log(l.router.table.rows, l.device.mailbox))
    && Fed(l.router, l.device)
  }

  ghost predicate LinkOk(l: Link) {
    InTouch(l) && Covers(l.router, l.device.mailbox)
  }

  /** The device's connection is authenticated. */
  predicate Listening(l: Link) {
    l.device.conn.Some? && l.device.conn.value in l.router.connectionToMailbox
  }

  /** The event appends a row to the device's mailbox. */
  predicate Appends(l: Link, e: Event) {
    && e.Received? && e.command.Send? && e.command.mailbox == Some(l.device.mailbox) && e.command.messageId.Some?
    && e.client in l.router.connections && e.client in l.router.connectionToMailbox
    && e.up.db && !HasRow(l.router.table.rows, e.command.messageId.value)
  }

  /** The registry read of a send to the mailbox yields this server. */
  predicate Reaches(r: Router, m: nat, up: Backends) {
    r.serverId in Recipients(r.registry, m, up)
  }

  /** The event appends a row to the device's mailbox and sends the device, which listens, nothing. */
  predicate Misses(l: Link, e: Event) {
    Appends(l, e) && Listening(l) && !Reaches(l.router, l.device.mailbox, e.up)
  }

  // ---------------------------------------------------------------- the device's steps

  lemma WaitingTake(q: seq<ServerMsg>, taken: nat)
    requires taken < |q|
    ensures Recorded(q[taken..]) == (if Numbered(q[taken]) then [q[taken]] else []) + Recorded(q[taken + 1..])
  {
    RecordedAdd([q[taken]], q[taken + 1..]);
    assert [q[taken]] + q[taken + 1..] == q[taken..];
    RecordedOne(q[taken]);
  }

  lemma ProcessedTake(d: Reader, msg: ServerMsg)
    ensures Recorded(TakeFrame(d, msg).processed) == Recorded(d.processed) + if Numbered(msg) then [msg] else []
  {
    RecordedAdd(d.processed, [msg]);
    RecordedOne(msg);
  }

  /** A numbered frame that waits first is the next row of the log. */
  lemma NextRow(p: Port, d: Reader, log: seq<Row>)
    requires Feeds(p, d, log) && d.taken < |p.outbox.queue| && Numbered(p.outbox.queue[d.taken])
    ensures Index(d) < |log| && p.outbox.queue[d.taken] == Delivery(log[Index(d)].seqNo, log[Index(d)].payload)
  {
    hide Recorded;
    WaitingTake(p.outbox.queue, d.taken);
    var waiting, k := Recorded(p.outbox.queue[d.taken..]), Index(d);
    assert waiting[0] == p.outbox.queue[d.taken];
    assert AsDeliveries(log[k..k + |waiting|])[0] == Delivery(log[k].seqNo, log[k].payload);
  }

  lemma DeliveriesTail(log: seq<Row>, k: nat, n: nat)
    requires 0 < n && k + n <= |log|
    ensures AsDeliveries(log[k..k + n])[1..] == AsDeliveries(log[k + 1..k + n])
  {
  }

  lemma FeedsTake(p: Port, d: Reader, log: seq<Row>)
    requires Feeds(p, d, log) && d.taken < |p.outbox.queue|
    ensures Feeds(p, TakeFrame(d, p.outbox.queue[d.taken]), log)
  {
    hide Recorded, AsDeliveries;
    var q, msg, k := p.outbox.queue, p.outbox.queue[d.taken], Index(d);
    WaitingTake(q, d.taken);
    ProcessedTake(d, msg);
    var waiting, rest := Recorded(q[d.taken..]), Recorded(q[d.taken + 1..]);
    if Numbered(msg) {
      assert waiting[1..] == rest;
      DeliveriesTail(log, k, |waiting|);
    } else {
      assert [] + rest == rest;
    }
  }

  lemma PrefixTake(p: Port, d: Reader, log: seq<Row>, lastSeq: nat)
    requires Feeds(p, d, log) && ReadPrefix(d, log) && LogOk(log, lastSeq) && d.taken < |p.outbox.queue|
    ensures ReadPrefix(TakeFrame(d, p.outbox.queue[d.taken]), log)
    ensures TakeFrame(d, p.outbox.queue[d.taken]).cursor >= d.cursor
  {
    hide Recorded;
    var msg, k := p.outbox.queue[d.taken], Index(d);
    ProcessedTake(d, msg);
    if Numbered(msg) {
      NextRow(p, d, log);
      assert AsDeliveries(log[..k]) + [msg] == AsDeliveries(log[..k + 1]);
      assert k > 0 ==> log[k - 1].seqNo < log[k].seqNo;
    } else {
      assert Recorded(d.processed) + [] == Recorded(d.processed);
    }
  }

  lemma TakeKeeps(l: Link)
    requires InTouch(l)
    ensures InTouch(Effect(l, Take)) && Effect(l, Take).device.cursor >= l.device.cursor
  {
    hide ListsOk, Feeds, ReadPrefix;
    var l' := Effect(l, Take);
    if l'.device != l.device {
      LogAscends(l.router.table, l.device.mailbox);
      var p, log := At(l.router, l.device.conn.value), Log(l.router.table.rows, l.device.mailbox);
      FeedsTake(p, l.device, log);
      PrefixTake(p, l.device, log, l.router.table.lastSeq);
    }
  }

  lemma OpenKeeps(l: Link, c: nat, closed: bool)
    requires InTouch(l) && May(l, Open(c, closed))
    ensures InTouch(Effect(l, Open(c, closed)))
  {
    hide ListsOk;
    ConnectedKeeps(l.router, c, closed);
    assert [Say(Welcome)][..0] == [];
    assert Recorded([Say(Welcome)]) == [];
    assert [Say(Welcome)][0..] == [Say(Welcome)];
    assert c !in l.router.connectionToMailbox;
  }

  // ---------------------------------------------------------------- the server's steps

  lemma RegisterAt(r: Router, d: nat, m: nat, up: Backends, c: nat)
    requires c in r.outboxes
    ensures At(Register(r, d, m, up), c) == if d == c then At(r, c).(mailbox := Some(m)) else At(r, c)
    ensures Register(r, d, m, up).table == r.table && Register(r, d, m, up).outboxes == r.outboxes
  {
  }

  /** A connection authenticates: its own port takes the backlog and a notice, every other port is untouched. */
  lemma AuthenticateAt(r: Router, d: nat, m: nat, lastSeq: int, up: Backends, c: nat)
    requires MapsOk(r) && d in r.connections && d !in r.connectionToMailbox && c in r.outboxes && up.db
    ensures var r' := HandleReceived(r, d, Authenticate(Some(m), lastSeq), up);
            && c in r'.outboxes && r'.table == r.table
            && At(r', c) == if d != c then At(r, c)
                            else PortSend(PortSendAll(At(r, c).(mailbox := Some(m)),
                                                      AsDeliveries(Backlog(r.table.rows, m, lastSeq))), Say(AuthOk(m)))
  {
    hide ListsOk, SendOrDisconnect, Register, PortSend, Backlog;
    var rows := Backlog(r.table.rows, m, lastSeq);
    var r1 := Register(r, d, m, up);
    RegisterAt(r, d, m, up, c);
    RegisterRest(r, d, m, up);
    BacklogAt(r1, d, rows, c);
    SendAt(SendBacklog(r1, d, rows), d, Say(AuthOk(m)), c);
  }

  lemma FeedsAuthenticated(p: Port, d: Reader, t: Table)
    requires TableOk(t) && Feeds(p, d, Log(t.rows, d.mailbox)) && ReadPrefix(d, Log(t.rows, d.mailbox))
    requires p.live && p.mailbox.None?
    ensures Feeds(PortSend(PortSendAll(p.(mailbox := Some(d.mailbox)),
                                       AsDeliveries(Backlog(t.rows, d.mailbox, d.cursor))),
                           Say(AuthOk(d.mailbox))), d, Log(t.rows, d.mailbox))
  {
    hide PortSend, PortSendAll, Feeds, TableOk;
    var log := Log(t.rows, d.mailbox);
    BacklogIsRest(t, d.mailbox, Index(d));
    LogAscends(t, d.mailbox);
    FeedsBacklog(p, d, log);
    FeedsQuiet(PortSendAll(p.(mailbox := Some(d.mailbox)), AsDeliveries(log[Index(d)..])), d, log,
               Say(AuthOk(d.mailbox)));
  }

  lemma FeedsSay(r: Router, x: nat, msg: ServerMsg, c: nat, d: Reader, log: seq<Row>)
    requires c in r.outboxes && x in r.outboxes && Feeds(At(r, c), d, log) && !msg.Delivery?
    ensures var r' := SendOrDisconnect(r, x, msg);
            c in r'.outboxes && r'.table == r.table && Feeds(At(r', c), d, log)
  {
    hide SendOrDisconnect, Feeds, PortSend, At;
    SendAt(r, x, msg, c);
    FeedsQuiet(At(r, c), d, log, msg);
  }

  lemma AuthenticateFeeds(r: Router, x: nat, mailbox: Option<nat>, lastSeq: int, up: Backends, c: nat, d: Reader)
    requires MapsOk(r) && TableOk(r.table) && c in r.outboxes && x in r.connections
    requires Feeds(At(r, c), d, Log(r.table.rows, d.mailbox)) && ReadPrefix(d, Log(r.table.rows, d.mailbox))
    requires x == c ==> lastSeq == d.cursor && (mailbox.Some? ==> mailbox.value == d.mailbox)
    ensures var r' := HandleReceived(r, x, Authenticate(mailbox, lastSeq), up);
            c in r'.outboxes && r'.table == r.table && Feeds(At(r', c), d, Log(r.table.rows, d.mailbox))
  {
    hide ListsOk, SendOrDisconnect, Feeds, ReadPrefix, TableOk, PortSend;
    var log := Log(r.table.rows, d.mailbox);
    if x !in r.connectionToMailbox && mailbox.Some? && up.db {
      AuthenticateAt(r, x, mailbox.value, lastSeq, up, c);
      if x == c {
        FeedsAuthenticated(At(r, c), d, r.table);
      }
    } else if x in r.connectionToMailbox {
      FeedsSay(r, x, Say(ReauthForbidden), c, d, log);
    } else {
      FeedsSay(r, x, Say(AuthFailed), c, d, log);
    }
  }

  /** An insert yields a number exactly when the database answered and the message id is new. */
  lemma InsertNumbers(t: Table, messageId: nat, to: nat, payload: string, dbOk: bool)
    ensures Insert(t, messageId, to, payload, dbOk).1 > 0 <==> dbOk && !HasRow(t.rows, messageId)
  {
  }

  lemma BroadcastFeeds(p: Port, d: Reader, t: Table, messageId: nat, to: nat, payload: string, dbOk: bool)
    requires TableOk(t) && Feeds(p, d, Log(t.rows, d.mailbox))
    requires d.clean ==> dbOk && !HasRow(t.rows, messageId)
    ensures var inserted := Insert(t, messageId, to, payload, dbOk);
            Feeds(PortBroadcast(p, to, Delivery(inserted.1, payload)), d, Log(inserted.0.rows, d.mailbox))
  {
    hide PortSend, TableOk, Insert, Backlog;
    var inserted := Insert(t, messageId, to, payload, dbOk);
    InsertLog(t, messageId, to, payload, dbOk, d.mailbox);
    InsertNumbers(t, messageId, to, payload, dbOk);
    if inserted.1 > 0 && to == d.mailbox {
      FeedsNew(p, d, Log(t.rows, d.mailbox), Row(messageId, to, inserted.1, payload));
    } else if inserted.1 == 0 {
      FeedsQuiet(p, d, Log(t.rows, d.mailbox), Delivery(0, payload));
    }
  }

  lemma SendFeeds(r: Router, payload: string, to: nat, messageId: nat, x: nat, up: Backends, c: nat, d: Reader)
    requires MapsOk(r) && TableOk(r.table) && c in r.outboxes
    requires Feeds(At(r, c), d, Log(r.table.rows, d.mailbox))
    requires to == d.mailbox && d.clean ==> up.db && !HasRow(r.table.rows, messageId)
    requires to == d.mailbox && up.db && !HasRow(r.table.rows, messageId) && c in r.connectionToMailbox
          ==> Reaches(r, to, up)
    ensures var r' := HandleSend(r, payload, to, messageId, x, up);
            c in r'.outboxes && Feeds(At(r', c), d, Log(r'.table.rows, d.mailbox))
  {
    FedMailbox(At(r, c), d, Log(r.table.rows, d.mailbox));
    hide ListsOk, HandleSend, Feeds, TableOk, PortSend, Insert, Backlog;
    FeedsQuiet(At(r, c), d, Log(r.table.rows, d.mailbox), Ack(messageId));
    HandleSendAt(r, payload, to, messageId, x, up, c);
    InsertNumbers(r.table, messageId, to, payload, up.db);
    InsertLog(r.table, messageId, to, payload, up.db, d.mailbox);
    if At(r, c).mailbox != Some(to) {
      AckedMailbox(r, messageId, x, c, to);
    }
    if to == d.mailbox && (Reaches(r, to, up) || At(r, c).mailbox != Some(to)) {
      BroadcastFeeds(Acked(r, messageId, x, c), d, r.table, messageId, to, payload, up.db);
    }
  }

  lemma FedMailbox(p: Port, d: Reader, log: seq<Row>)
    requires Feeds(p, d, log)
    ensures p.mailbox.Some? ==> p.mailbox == Some(d.mailbox)
  {
  }

  lemma AckedMailbox(r: Router, messageId: nat, x: nat, c: nat, to: nat)
    requires c in r.outboxes && At(r, c).mailbox != Some(to)
    ensures forall msg :: PortBroadcast(Acked(r, messageId, x, c), to, msg) == Acked(r, messageId, x, c)
  {
  }

  /** The rows change by sends only, and then by what the insert does. */
  lemma ReceivedTable(r: Router, x: nat, command: Command, up: Backends)
    requires MapsOk(r) && TableOk(r.table)
    ensures var t' := HandleReceived(r, x, command, up).table;
            TableOk(t')
            && (t' == r.table || (exists id, to, payload :: t' == Insert(r.table, id, to, payload, up.db).0))
  {
    hide ListsOk, SendOrDisconnect, Register, SendBacklog, Backlog, Insert, TableOk, HandleSend;
    if x in r.connections {
      match command
      case Authenticate(mailbox, lastSeq) =>
        if x !in r.connectionToMailbox && mailbox.Some? && up.db {
          AuthenticateAt(r, x, mailbox.value, lastSeq, up, x);
        } else {
          SayTable(r, x);
        }
      case Send(mailbox, payload, messageId) =>
        if x in r.connectionToMailbox && mailbox.Some? && messageId.Some? {
          HandleSendAt(r, payload, mailbox.value, messageId.value, x, up, x);
          InsertKeeps(r.table, messageId.value, mailbox.value, payload, up.db);
        } else {
          SayTable(r, x);
        }
      case TypingCommand(mailbox, payload, stop) =>
        if mailbox.Some? {
          BroadcastAt(r, mailbox.value, Typing(payload, stop), x);
        }
    }
  }

  lemma SayTable(r: Router, x: nat)
    requires x in r.outboxes
    ensures forall msg :: SendOrDisconnect(r, x, msg).table == r.table
  {
    forall msg ensures SendOrDisconnect(r, x, msg).table == r.table {
      SendAt(r, x, msg, x);
    }
  }

  lemma ReceivedFeeds(l: Link, x: nat, command: Command, up: Backends)
    requires InTouch(l) && EventMay(l, Received(x, command, up)) && !Misses(l, Received(x, command, up))
    requires x in l.router.connections
    requires l.device.conn.Some? && l.device.conn.value in l.router.outboxes
    requires l.device.clean ==> InsertsFine(l.router, Received(x, command, up), l.device.mailbox)
    ensures var r', c := HandleReceived(l.router, x, command, up), l.device.conn.value;
            c in r'.outboxes && Feeds(At(r', c), l.device, Log(r'.table.rows, l.device.mailbox))
  {
    hide ListsOk, SendOrDisconnect, HandleSend, HandleAuthenticate, Broadcast, Feeds, ReadPrefix, TableOk, Backlog;
    var r, d, c := l.router, l.device, l.device.conn.value;
    var log := Log(r.table.rows, d.mailbox);
    match command
    case Authenticate(mailbox, lastSeq) => AuthenticateFeeds(r, x, mailbox, lastSeq, up, c, d);
    case Send(mailbox, payload, messageId) =>
      if x !in r.connectionToMailbox {
        FeedsSay(r, x, Say(Unauthenticated), c, d, log);
      } else if mailbox.None? {
        FeedsSay(r, x, Say(BadMailbox), c, d, log);
      } else if messageId.None? {
        FeedsSay(r, x, Say(BadMessageId), c, d, log);
      } else {
        SendFeeds(r, payload, mailbox.value, messageId.value, x, up, c, d);
      }
    case TypingCommand(mailbox, payload, stop) =>
      if mailbox.Some? {
        BroadcastAt(r, mailbox.value, Typing(payload, stop), c);
        BroadcastKeys(r, mailbox.value, Typing(payload, stop));
        FeedsQuiet(At(r, c), d, log, Typing(payload, stop));
      }
  }

  lemma InsertPrefix(t: Table, t': Table, d: Reader)
    requires TableOk(t) && ReadPrefix(d, Log(t.rows, d.mailbox))
    requires t' == t || exists id, to, payload, dbOk :: t' == Insert(t, id, to, payload, dbOk).0
    ensures ReadPrefix(d, Log(t'.rows, d.mailbox))
  {
    hide ReadPrefix, TableOk, Backlog, Insert;
    if t' != t {
      var id, to, payload, dbOk :| t' == Insert(t, id, to, payload, dbOk).0;
      InsertLog(t, id, to, payload, dbOk, d.mailbox);
      ReadPrefixNew(d, Log(t.rows, d.mailbox), Row(id, to, Insert(t, id, to, payload, dbOk).1, payload));
    }
  }

  /** Forgetting that the run was clean loses nothing else. */
  lemma Uncleaned(r: Router, d: Reader)
    ensures Fed(r, d) ==> Fed(r, d.(clean := false))
    ensures ReadPrefix(d, Log(r.table.rows, d.mailbox)) ==> ReadPrefix(d.(clean := false), Log(r.table.rows, d.mailbox))
  {
    hide Backlog, Recorded;
  }

  lemma ReceivedKeepsTouch(l: Link, x: nat, command: Command, up: Backends)
    requires InTouch(l) && EventMay(l, Received(x, command, up)) && !Misses(l, Received(x, command, up))
    requires l.device.clean ==> InsertsFine(l.router, Received(x, command, up), l.device.mailbox)
    ensures InTouch(l.(router := HandleReceived(l.router, x, command, up)))
  {
    hide ListsOk, Feeds, ReadPrefix, TableOk, Backlog, At, Insert;
    if x in l.router.connections {
      ReceivedKeeps(l.router, x, command, up);
      ReceivedTable(l.router, x, command, up);
      InsertPrefix(l.router.table, HandleReceived(l.router, x, command, up).table, l.device);
      if l.device.conn.Some? && l.device.conn.value in l.router.outboxes {
        ReceivedFeeds(l, x, command, up);
      } else {
        ReceivedKeys(l.router, x, command, up);
      }
    }
  }

  /** No command creates or removes a channel. */
  lemma ReceivedKeys(r: Router, x: nat, command: Command, up: Backends)
    requires ChannelsOk(r)
    ensures HandleReceived(r, x, command, up).outboxes.Keys == r.outboxes.Keys
  {
    hide Broadcast, SendOrDisconnect, SendBacklog, Backlog, Insert;
    if x in r.connections {
      SayKeys(r, x);
      match command
      case Authenticate(mailbox, lastSeq) =>
        if mailbox.Some? {
          RegisterRest(r, x, mailbox.value, up);
          SayKeys(SendBacklog(Register(r, x, mailbox.value, up), x, Backlog(r.table.rows, mailbox.value, lastSeq)), x);
        }
      case Send(mailbox, payload, messageId) =>
        if mailbox.Some? && messageId.Some? {
          var inserted := Insert(r.table, messageId.value, mailbox.value, payload, up.db);
          var r1 := r.(table := inserted.0);
          SayKeys(r1, x);
          BroadcastKeys(SendOrDisconnect(r1, x, Ack(messageId.value)), mailbox.value, Delivery(inserted.1, payload));
        }
      case TypingCommand(mailbox, payload, stop) =>
        if mailbox.Some? {
          BroadcastKeys(r, mailbox.value, Typing(payload, stop));
        }
    }
  }

  lemma SayKeys(r: Router, x: nat)
    requires x in r.outboxes
    ensures forall msg :: SendOrDisconnect(r, x, msg).outboxes.Keys == r.outboxes.Keys
    ensures forall msg :: ChannelsOk(r) ==> ChannelsOk(SendOrDisconnect(r, x, msg))
  {
  }

  lemma OtherEventKeepsTouch(l: Link, e: Event)
    requires InTouch(l) && EventMay(l, e) && !e.Received?
    ensures InTouch(l.(router := Handle(l.router, e)))
  {
    hide ListsOk, ReadPrefix, TableOk, Backlog, Recorded;
    HandleKeeps(l.router, e);
    var conn := l.device.conn;
    if e.Disconnected? {
      DisconnectedTable(l.router, e.client, e.up);
      if conn.Some? && conn.value in l.router.outboxes {
        DisconnectedAt(l.router, e.client, e.up, conn.value);
      }
    } else if e.PubSubDelivery? {
      ElsewhereKeeps(l, e.mailbox, Delivery(e.seqNo, e.payload));
    }
  }

  /** A delivery for another mailbox. */
  lemma ElsewhereKeeps(l: Link, m: nat, msg: ServerMsg)
    requires InTouch(l) && m != l.device.mailbox
    ensures var r' := Broadcast(l.router, m, msg); r'.table == l.router.table && Fed(r', l.device)
  {
    hide ListsOk, Feeds, ReadPrefix, TableOk, Backlog, Broadcast;
    var r, conn := l.router, l.device.conn;
    BroadcastKeys(r, m, msg);
    if conn.Some? && conn.value in r.outboxes {
      FedMailbox(At(r, conn.value), l.device, Log(r.table.rows, l.device.mailbox));
      BroadcastAt(r, m, msg, conn.value);
    }
    BroadcastTable(r, m, msg);
  }

  lemma BroadcastTable(r: Router, m: nat, msg: ServerMsg)
    requires MapsOk(r)
    ensures Broadcast(r, m, msg).table == r.table
  {
    if m in r.mailboxToConnections {
      var c := r.mailboxToConnections[m][0];
      assert c in r.mailboxToConnections[m];
      BroadcastAt(r, m, msg, c);
    }
  }

  lemma DisconnectedTable(r: Router, x: nat, up: Backends)
    ensures HandleDisconnected(r, x, up).table == r.table && HandleDisconnected(r, x, up).outboxes == r.outboxes
  {
    hide Without, NoDuplicates;
  }

  lemma DisconnectedAt(r: Router, x: nat, up: Backends, c: nat)
    requires c in r.outboxes
    ensures HandleDisconnected(r, x, up).outboxes == r.outboxes
    ensures At(HandleDisconnected(r, x, up), c) == if x == c then Port(false, None, r.outboxes[c]) else At(r, c)
  {
    hide DisconnectClient;
    var r1 := if x in r.connectionToMailbox && up.redis then Unregister(r, r.connectionToMailbox[x], x) else r;
    DisconnectAt(r1, x, c);
  }

  lemma DropKeeps(l: Link)
    requires InTouch(l)
    ensures InTouch(Effect(l, Drop))
  {
    hide ListsOk, TableOk, Backlog, Recorded;
  }

  /** Every step that may happen and does not pass the device over keeps it in touch, and the cursor never goes back. */
  lemma TouchKeeps(l: Link, s: Step)
    requires InTouch(l) && May(l, s) && (s.Server? ==> !Misses(l, s.e))
    ensures InTouch(Effect(l, s)) && Effect(l, s).device.cursor >= l.device.cursor
    ensures Effect(l, s).device.mailbox == l.device.mailbox
  {
    hide ListsOk, Feeds, ReadPrefix, TableOk, Backlog, Handle, HandleReceived, At;
    match s
    case Server(e) =>
      Uncleaned(l.router, l.device);
      var l1 := l.(device := l.device.(clean := l.device.clean && InsertsFine(l.router, e, l.device.mailbox)));
      if e.Received? {
        ReceivedKeepsTouch(l1, e.client, e.command, e.up);
        ReceivedIs(l.router, e);
      } else {
        OtherEventKeepsTouch(l1, e);
      }
    case Open(c, closed) => OpenKeeps(l, c, closed);
    case Take => TakeKeeps(l);
    case Drop => DropKeeps(l);
  }

  /** A covered mailbox is never passed over. */
  lemma CoveredReaches(l: Link, e: Event)
    requires LinkOk(l) && KeepsCovering(l, e)
    ensures !Misses(l, e)
  {
    hide ListsOk, ReadPrefix, TableOk, Backlog, HasRow;
    if Listening(l) && l.device.conn.value in l.router.outboxes {
      var c := l.device.conn.value;
      FedMailbox(At(l.router, c), l.device, Log(l.router.table.rows, l.device.mailbox));
      assert Named(l.router, l.device.mailbox, c);
      assert l.router.registry[l.device.mailbox][c] in Servers(l.router.registry, l.device.mailbox);
    }
  }

  /** Every step of the run keeps the link, and the cursor never goes back. */
  lemma StepKeeps(l: Link, s: Step)
    requires LinkOk(l)
    ensures LinkOk(Next(l, s)) && Next(l, s).device.cursor >= l.device.cursor
    ensures Next(l, s).device.mailbox == l.device.mailbox
  {
    hide Misses, Uncovers, Covers, Handle;
    if Allowed(l, s) {
      match s
      case Server(e) =>
        CoveredReaches(l, e);
        HandleCovers(l.router, e, l.device.mailbox);
        TouchKeeps(l, s);
      case Open(c, closed) =>
        HandleCovers(l.router, Connected(c, closed), l.device.mailbox);
        NeverUncovers(l.router, c, closed, l.device.mailbox);
        TouchKeeps(l, s);
      case Take => TouchKeeps(l, s);
      case Drop => TouchKeeps(l, s);
    }
  }

  lemma NeverUncovers(r: Router, c: nat, closed: bool, m: nat)
    requires ChannelsOk(r)
    ensures !Uncovers(r, Connected(c, closed), m)
  {
  }

  lemma ReceivedIs(r: Router, e: Event)
    requires ChannelsOk(r) && e.Received?
    ensures Handle(r, e) == HandleReceived(r, e.client, e.command, e.up)
  {
  }

  ghost function RunLink(l: Link, steps: seq<Step>): (l': Link)
    requires LinkOk(l)
    ensures LinkOk(l') && l'.device.mailbox == l.device.mailbox && l'.device.cursor >= l.device.cursor
  {
    if steps == [] then l else
    var before := RunLink(l, steps[..|steps| - 1]);
    StepKeeps(before, steps[|steps| - 1]);
    Next(before, steps[|steps| - 1])
  }

  /** A server that starts over any table, and a device of a user that has read nothing yet. */
  function StartLink(serverId: nat, registry: map<nat, map<nat, nat>>, table: Table, mailbox: nat): Link {
    Link(NewRouter(serverId, registry, table), Reader(mailbox, None, 0, 0, [], true))
  }

  lemma StartLinkOk(serverId: nat, registry: map<nat, map<nat, nat>>, table: Table, mailbox: nat)
    requires TableOk(table)
    ensures LinkOk(StartLink(serverId, registry, table, mailbox))
  {
    NewRouterOk(serverId, registry, table);
    assert AsDeliveries(Log(table.rows, mailbox)[..0]) == [];
  }

  /**
   Over any number of connections lost and reopened, the numbered deliveries a device processes are
   exactly a prefix of its mailbox's log; the cursor is the number of the last of them and at most
   the highest number handed out; and if no insert failed the device processed nothing else.
   */
  lemma ReadsLogPrefix(serverId: nat, registry: map<nat, map<nat, nat>>, table: Table, mailbox: nat, steps: seq<Step>)
    requires TableOk(table)
    ensures LinkOk(StartLink(serverId, registry, table, mailbox))
    ensures var l := RunLink(StartLink(serverId, registry, table, mailbox), steps);
            var log, k := Log(l.router.table.rows, mailbox), Index(l.device);
            && k <= |log| && Recorded(l.device.processed) == AsDeliveries(log[..k])
            && l.device.cursor == SeqAt(log, k) <= l.router.table.lastSeq
            && LogOk(log, l.router.table.lastSeq)
            && (l.device.clean ==> l.device.processed == AsDeliveries(log[..k]))
  {
    hide Backlog, Recorded;
    StartLinkOk(serverId, registry, table, mailbox);
    var l := RunLink(StartLink(serverId, registry, table, mailbox), steps);
    LogAscends(l.router.table, mailbox);
  }

  /** An authenticated connection that drains its channel has read its whole mailbox. */
  lemma DrainedIsComplete(l: Link)
    requires LinkOk(l) && l.device.conn.Some? && l.device.conn.value in l.router.connectionToMailbox
    requires l.device.conn.value in l.router.outboxes
    requires l.device.taken == |l.router.outboxes[l.device.conn.value].queue|
    ensures Recorded(l.device.processed) == AsDeliveries(Log(l.router.table.rows, l.device.mailbox))
  {
    hide Backlog;
    var log := Log(l.router.table.rows, l.device.mailbox);
    assert log[..|log|] == log;
  }
}
