/**
 What an ack and the registry promise: exactly when an acked frame is stored, exactly when an open
 connection is sent a delivery, and runs of router events in which the promise of the documentation
 is not kept.
 */
module ServerPromises {
  import opened Wrappers
  import opened Router
  import opened RouterMaps
  import opened Mailbox
  import opened MailboxRuns

  // ---------------------------------------------------------------- one send

  /** The frame itself, not only its id, is in the table. */
  predicate Stored(rows: seq<Row>, messageId: nat, m: nat, payload: string) {
    exists i :: 0 <= i < |rows| && rows[i].messageId == messageId && rows[i].mailbox == m && rows[i].payload == payload
  }

  /**
   An open connection that is authenticated for the mailbox, the sender's own included, gets the
   delivery exactly if Redis answers and the registry names this server for the mailbox; its own ack
   comes first.
   */
  lemma DeliveredIffRegistered(r: Router, payload: string, m: nat, messageId: nat, sender: nat, up: Backends, c: nat)
    requires MapsOk(r) && c in r.connectionToMailbox && r.connectionToMailbox[c] == m && !r.outboxes[c].closed
    ensures var r', seqNo := HandleSend(r, payload, m, messageId, sender, up),
                             Insert(r.table, messageId, m, payload, up.db).1;
            && c in r'.outboxes && At(r', c).mailbox == Some(m) && !r'.outboxes[c].closed
            && r'.outboxes[c].queue == r.outboxes[c].queue + (if sender == c then [Ack(messageId)] else [])
                                       + (if up.redis && r.serverId in Servers(r.registry, m)
                                          then [Delivery(seqNo, payload)] else [])
  {
    hide HandleSend, Insert, ListsOk;
    HandleSendAt(r, payload, m, messageId, sender, up, c);
    assert r.outboxes[c].queue + [] + [] == r.outboxes[c].queue;
  }

  lemma StoredAfter(t: Table, messageId: nat, m: nat, payload: string, dbOk: bool)
    ensures Stored(Insert(t, messageId, m, payload, dbOk).0.rows, messageId, m, payload)
       <==> (dbOk && !HasRow(t.rows, messageId)) || Stored(t.rows, messageId, m, payload)
  {
    var rows := Insert(t, messageId, m, payload, dbOk).0.rows;
    if dbOk && !HasRow(t.rows, messageId) {
      assert rows[|t.rows|] == Row(messageId, m, t.lastSeq + 1, payload);
    }
  }

  /**
   An open authenticated sender always gets its ack next. The frame is stored then exactly if the
   database answered and the message id was new, or the same frame had been stored before.
   */
  lemma AckedIsStored(r: Router, c: nat, m: nat, payload: string, messageId: nat, up: Backends)
    requires MapsOk(r) && c in r.connectionToMailbox && !r.outboxes[c].closed
    ensures var r' := HandleReceived(r, c, Send(Some(m), payload, Some(messageId)), up);
            && c in r'.outboxes && r.outboxes[c].queue + [Ack(messageId)] <= r'.outboxes[c].queue
            && (Stored(r'.table.rows, messageId, m, payload)
                <==> (up.db && !HasRow(r.table.rows, messageId)) || Stored(r.table.rows, messageId, m, payload))
  {
    hide HandleSend, Insert, ListsOk, HasRow, Stored;
    HandleSendAt(r, payload, m, messageId, c, up, c);
    StoredAfter(r.table, messageId, m, payload, up.db);
  }

  // ---------------------------------------------------------------- runs of router events

  lemma {:induction false} HandleAllAdd(r: Router, a: seq<Event>, b: seq<Event>)
    requires MapsOk(r)
    ensures HandleAll(r, a + b) == HandleAll(HandleAll(r, a), b)
  {
    hide Handle, MapsOk;
    if b == [] {
      assert a + b == a;
    } else {
      assert (a + b)[..|a + b| - 1] == a + b[..|b| - 1];
      HandleAllAdd(r, a, b[..|b| - 1]);
    }
  }

  lemma HandleAllTwo(r: Router, e: Event, f: Event)
    requires MapsOk(r)
    ensures MapsOk(Handle(r, e)) && HandleAll(r, [e, f]) == Handle(Handle(r, e), f)
    ensures HandleAll(r, [e]) == Handle(r, e)
  {
    hide Handle, MapsOk;
    HandleKeeps(r, e);
    assert [e][..0] == [] && [e, f][..1] == [e];
    assert HandleAll(r, []) == r;
  }

  const ALL_UP := Backends(true, true)

  /** A client connects and authenticates. */
  function Arrival(c: nat, m: nat, lastSeq: int): seq<Event> {
    [Connected(c, false), Received(c, Authenticate(Some(m), lastSeq), ALL_UP)]
  }

  /** A connection that is open and authenticated for m, with these frames in its channel. */
  predicate OpenAt(r: Router, c: nat, m: nat, queue: seq<ServerMsg>) {
    c in r.outboxes && At(r, c) == Port(true, Some(m), Outbox(queue, false))
  }

  lemma Arrives(r: Router, c: nat, m: nat, lastSeq: int)
    requires MapsOk(r) && c !in r.outboxes
    ensures var r' := HandleAll(r, Arrival(c, m, lastSeq));
            && OpenAt(r', c, m, [Say(Welcome)] + AsDeliveries(Backlog(r.table.rows, m, lastSeq)) + [Say(AuthOk(m))])
            && r'.outboxes.Keys == r.outboxes.Keys + {c}
            && (forall d :: d in r.outboxes ==> d in r'.outboxes && At(r', d) == At(r, d))
            && r'.table == r.table && r'.serverId == r.serverId && r.serverId in Servers(r'.registry, m)
  {
    hide HandleAll, HandleReceived, ListsOk, Backlog, PortSendAll;
    var r1 := HandleConnected(r, c, false);
    HandleAllTwo(r, Connected(c, false), Received(c, Authenticate(Some(m), lastSeq), ALL_UP));
    ConnectedKeeps(r, c, false);
    assert c !in r1.connectionToMailbox;
    forall d | d in r1.outboxes {
      AuthenticateAt(r1, c, m, lastSeq, ALL_UP, d);
    }
    SendAllQueue(At(r1, c).(mailbox := Some(m)), AsDeliveries(Backlog(r.table.rows, m, lastSeq)));
    AuthenticatedRegistry(r1, c, m, lastSeq);
  }

  lemma AuthenticatedRegistry(r: Router, c: nat, m: nat, lastSeq: int)
    requires MapsOk(r) && c in r.connections && c !in r.connectionToMailbox
    ensures var r' := HandleReceived(r, c, Authenticate(Some(m), lastSeq), ALL_UP);
            r'.outboxes.Keys == r.outboxes.Keys && r'.serverId == r.serverId && r.serverId in Servers(r'.registry, m)
  {
    hide ListsOk, SendOrDisconnect, SendBacklog, Backlog, HandleReceived;
    var r1, rows := Register(r, c, m, ALL_UP), Backlog(r.table.rows, m, lastSeq);
    RegisterKeeps(r, c, m, ALL_UP);
    RegisterRest(r, c, m, ALL_UP);
    SendBacklogKeeps(r1, c, rows);
    SendKeeps(SendBacklog(r1, c, rows), c, Say(AuthOk(m)));
    SendAt(SendBacklog(r1, c, rows), c, Say(AuthOk(m)), c);
    assert Registered(r1.registry, m)[c] in Servers(r1.registry, m);
    AuthenticatesAs(r, c, m, lastSeq, ALL_UP);
  }

  /** What a frame does to two open connections: its sender's, and another one of the addressed mailbox. */
  lemma Sends(r: Router, s: nat, own: nat, m: nat, text: string, messageId: nat, c: nat, sent: seq<ServerMsg>,
              queue: seq<ServerMsg>)
    requires MapsOk(r) && s != c && OpenAt(r, s, own, sent) && OpenAt(r, c, m, queue)
    ensures var r', inserted := Handle(r, Received(s, Send(Some(m), text, Some(messageId)), ALL_UP)),
                                Insert(r.table, messageId, m, text, true);
            && MapsOk(r') && OpenAt(r', c, m, if r.serverId in Servers(r.registry, m)
                                             then queue + [Delivery(inserted.1, text)] else queue)
            && s in r'.outboxes && OpenAt(r', s, own, r'.outboxes[s].queue)
            && r'.outboxes.Keys == r.outboxes.Keys && r'.table == inserted.0
            && r'.registry == r.registry && r'.serverId == r.serverId
  {
    hide HandleSend, Insert, ListsOk;
    HandleSendAt(r, text, m, messageId, s, ALL_UP, c);
    HandleSendAt(r, text, m, messageId, s, ALL_UP, s);
    assert queue + [] == queue;
  }

  lemma Expires(r: Router, m: nat)
    requires MapsOk(r)
    ensures var r' := Handle(r, RegistryExpired(m));
            && MapsOk(r') && r'.outboxes == r.outboxes && r'.table == r.table && r'.serverId == r.serverId
            && (forall c :: c in r.outboxes ==> At(r', c) == At(r, c)) && r'.serverId !in Servers(r'.registry, m)
  {
    HandleKeeps(r, RegistryExpired(m));
  }

  /** The frames of a connection that has just arrived. */
  function Greeting(rows: seq<Row>, m: nat): seq<ServerMsg> {
    [Say(Welcome)] + AsDeliveries(Backlog(rows, m, 0)) + [Say(AuthOk(m))]
  }

  function FrameEvent(s: nat, m: nat, text: string, messageId: nat): Event {
    Received(s, Send(Some(m), text, Some(messageId)), ALL_UP)
  }

  /**
   A message id used for two different frames: both are acked and the second is nowhere.
   */
  lemma AckWithoutStore(serverId: nat, registry: map<nat, map<nat, nat>>, table: Table, s: nat, own: nat,
                        messageId: nat, m1: nat, text1: string, m2: nat, text2: string)
    requires !HasRow(table.rows, messageId) && (m1 != m2 || text1 != text2) && own != m1 && own != m2
    ensures MapsOk(NewRouter(serverId, registry, table))
    ensures var r := HandleAll(NewRouter(serverId, registry, table),
                               Arrival(s, own, 0)
                                 + [FrameEvent(s, m1, text1, messageId), FrameEvent(s, m2, text2, messageId)]);
            && OpenAt(r, s, own, Greeting(table.rows, own) + [Ack(messageId), Ack(messageId)])
            && Stored(r.table.rows, messageId, m1, text1) && !Stored(r.table.rows, messageId, m2, text2)
  {
    hide HandleAll, HandleSend, ListsOk, Backlog, Insert;
    var r0, e1, e2 := NewRouter(serverId, registry, table), FrameEvent(s, m1, text1, messageId),
                      FrameEvent(s, m2, text2, messageId);
    NewRouterOk(serverId, registry, table);
    Arrives(r0, s, own, 0);
    var r1 := HandleAll(r0, Arrival(s, own, 0));
    var r2 := Handle(r1, e1);
    HandleAllAdd(r0, Arrival(s, own, 0), [e1, e2]);
    HandleAllTwo(r1, e1, e2);
    HandleSendAt(r1, text1, m1, messageId, s, ALL_UP, s);
    HandleSendAt(r2, text2, m2, messageId, s, ALL_UP, s);
    SameIdTwice(table, messageId, m1, text1, m2, text2);
    var greeting := Greeting(table.rows, own);
    assert greeting + [Ack(messageId)] + [Ack(messageId)] == greeting + [Ack(messageId), Ack(messageId)];
  }

  /** A frame sent while the database is down: it is acked, and stored nowhere. */
  lemma AckWhileDatabaseDown(serverId: nat, registry: map<nat, map<nat, nat>>, table: Table, s: nat, own: nat,
                             messageId: nat, m: nat, text: string, redis: bool)
    requires !HasRow(table.rows, messageId) && own != m
    ensures MapsOk(NewRouter(serverId, registry, table))
    ensures var e := Received(s, Send(Some(m), text, Some(messageId)), Backends(false, redis));
            var r := HandleAll(NewRouter(serverId, registry, table), Arrival(s, own, 0) + [e]);
            OpenAt(r, s, own, Greeting(table.rows, own) + [Ack(messageId)]) && r.table == table
              && !HasRow(r.table.rows, messageId)
  {
    hide HandleAll, HandleSend, ListsOk, Backlog;
    var r0, e := NewRouter(serverId, registry, table),
                 Received(s, Send(Some(m), text, Some(messageId)), Backends(false, redis));
    NewRouterOk(serverId, registry, table);
    Arrives(r0, s, own, 0);
    var r1 := HandleAll(r0, Arrival(s, own, 0));
    HandleAllAdd(r0, Arrival(s, own, 0), [e]);
    HandleAllTwo(r1, e, e);
    HandleSendAt(r1, text, m, messageId, s, Backends(false, redis), s);
  }

  lemma SameIdTwice(t: Table, messageId: nat, m1: nat, text1: string, m2: nat, text2: string)
    requires !HasRow(t.rows, messageId) && (m1 != m2 || text1 != text2)
    ensures var rows := Insert(Insert(t, messageId, m1, text1, true).0, messageId, m2, text2, true).0.rows;
            Stored(rows, messageId, m1, text1) && !Stored(rows, messageId, m2, text2)
  {
    var rows := Insert(t, messageId, m1, text1, true).0.rows;
    assert rows[|t.rows|] == Row(messageId, m1, t.lastSeq + 1, text1);
  }

  /**
   A connection authenticates; its mailbox's registry key expires; a frame is sent; another connection
   of the mailbox authenticates; a second frame is sent. The first connection gets the second frame
   only, and no authentication with a cursor at the second frame ever brings the first.
   */
  lemma ExpiryLosesDelivery(serverId: nat, registry: map<nat, map<nat, nat>>, table: Table, c: nat, m: nat, s: nat,
                            own: nat, d: nat, first: nat, text1: string, second: nat, text2: string)
    requires TableOk(table) && c != s && c != d && s != d
    requires first != second && !HasRow(table.rows, first) && !HasRow(table.rows, second)
    ensures MapsOk(NewRouter(serverId, registry, table))
    ensures var r := HandleAll(NewRouter(serverId, registry, table),
                               Arrival(c, m, 0) + Arrival(s, own, 0)
                                 + [RegistryExpired(m), FrameEvent(s, m, text1, first)]
                               + Arrival(d, m, 0) + [FrameEvent(s, m, text2, second)]);
            var seq1, seq2 := table.lastSeq + 1, table.lastSeq + 2;
            && OpenAt(r, c, m, Greeting(table.rows, m) + [Delivery(seq2, text2)])
            && Row(first, m, seq1, text1) in Log(r.table.rows, m)
            && Backlog(r.table.rows, m, seq2) == []
  {
    hide HandleAll, Handle, ListsOk, Backlog, HasRow, Insert, TableOk, MapsOk;
    var r0 := NewRouter(serverId, registry, table);
    NewRouterOk(serverId, registry, table);
    Arrives(r0, c, m, 0);
    var r1 := HandleAll(r0, Arrival(c, m, 0));
    Arrives(r1, s, own, 0);
    var r2 := HandleAll(r1, Arrival(s, own, 0));
    HandleAllAdd(r0, Arrival(c, m, 0), Arrival(s, own, 0));
    AfterExpiry(r2, s, own, Greeting(table.rows, own), c, m, Greeting(table.rows, m), d, first, text1, second, text2);
    var rest := [RegistryExpired(m), FrameEvent(s, m, text1, first)] + Arrival(d, m, 0)
                + [FrameEvent(s, m, text2, second)];
    HandleAllAdd(r0, Arrival(c, m, 0) + Arrival(s, own, 0), rest);
    assert Arrival(c, m, 0) + Arrival(s, own, 0) + [RegistryExpired(m), FrameEvent(s, m, text1, first)]
           + Arrival(d, m, 0) + [FrameEvent(s, m, text2, second)]
        == Arrival(c, m, 0) + Arrival(s, own, 0) + rest;
    TwoInserts(table, m, first, second, text1, text2);
  }

  lemma AfterExpiry(r: Router, s: nat, own: nat, sent: seq<ServerMsg>, c: nat, m: nat, queue: seq<ServerMsg>, d: nat,
                    first: nat, text1: string, second: nat, text2: string)
    requires MapsOk(r) && OpenAt(r, s, own, sent) && OpenAt(r, c, m, queue) && c != s && d !in r.outboxes
    ensures var r' := HandleAll(r, [RegistryExpired(m), FrameEvent(s, m, text1, first)] + Arrival(d, m, 0)
                                   + [FrameEvent(s, m, text2, second)]);
            var t1 := Insert(r.table, first, m, text1, true).0;
            var (t2, n2) := Insert(t1, second, m, text2, true);
            OpenAt(r', c, m, queue + [Delivery(n2, text2)]) && r'.table == t2
  {
    hide HandleAll, Handle, ListsOk, Backlog, Insert;
    var e1, e2, e3 := RegistryExpired(m), FrameEvent(s, m, text1, first), FrameEvent(s, m, text2, second);
    Expires(r, m);
    var r1 := Handle(r, e1);
    Sends(r1, s, own, m, text1, first, c, sent, queue);
    var r2 := Handle(r1, e2);
    HandleAllTwo(r, e1, e2);
    assert queue + [] == queue;
    Arrives(r2, d, m, 0);
    var r3 := HandleAll(r2, Arrival(d, m, 0));
    Sends(r3, s, own, m, text2, second, c, r2.outboxes[s].queue, queue);
    HandleAllTwo(r3, e3, e3);
    HandleAllAdd(r, [e1, e2], Arrival(d, m, 0));
    HandleAllAdd(r, [e1, e2] + Arrival(d, m, 0), [e3]);
  }

  lemma TwoInserts(t: Table, m: nat, first: nat, second: nat, text1: string, text2: string)
    requires TableOk(t) && first != second && !HasRow(t.rows, first) && !HasRow(t.rows, second)
    ensures var t1 := Insert(t, first, m, text1, true).0;
            var (t2, n2) := Insert(t1, second, m, text2, true);
            && n2 == t.lastSeq + 2
            && Row(first, m, t.lastSeq + 1, text1) in Log(t2.rows, m) && Backlog(t2.rows, m, n2) == []
  {
    hide Backlog, HasRow, Insert, TableOk;
    var t1 := Insert(t, first, m, text1, true).0;
    var (t2, n2) := Insert(t1, second, m, text2, true);
    InsertNew(t, first, m, text1, second);
    InsertNew(t1, second, m, text2, first);
    InsertKeeps(t, first, m, text1, true);
    InsertKeeps(t1, second, m, text2, true);
    InsertLog(t, first, m, text1, true, m);
    InsertLog(t1, second, m, text2, true, m);
    NumbersInTable(t2);
    BacklogRows(t2.rows, m, n2);
  }

  lemma InsertNew(t: Table, messageId: nat, m: nat, text: string, other: nat)
    requires !HasRow(t.rows, messageId)
    ensures var row := Row(messageId, m, t.lastSeq + 1, text);
            Insert(t, messageId, m, text, true) == (Table(t.rows + [row], t.lastSeq + 1), t.lastSeq + 1)
    ensures other != messageId && !HasRow(t.rows, other) ==> !HasRow(Insert(t, messageId, m, text, true).0.rows, other)
  {
  }

  lemma NumbersInTable(t: Table)
    requires TableOk(t)
    ensures forall row :: row in t.rows ==> row.seqNo <= t.lastSeq
  {
  }
}
