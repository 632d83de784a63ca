/**
 One device reading its user's mailbox through the router, over any number of connections.

 `Port` is the router as one connection sees it; every handler acts on a port in a way that
 depends on the port alone. On top of that, the device's cursor and the deliveries it processed
 are an index into an append-only log.
 */
module Mailbox {
  import opened Wrappers
  import opened Router
  import opened RouterMaps

  // ---------------------------------------------------------------- the router at one connection

  datatype Port = Port(live: bool, mailbox: Option<nat>, outbox: Outbox)

  function At(r: Router, c: nat): Port
    requires c in r.outboxes
  {
    Port(c in r.connections, if c in r.connectionToMailbox then Some(r.connectionToMailbox[c]) else None, r.outboxes[c])
  }

  function PortSend(p: Port, msg: ServerMsg): Port {
    if p.outbox.closed then Port(false, None, p.outbox)
    else p.(outbox := p.outbox.(queue := p.outbox.queue + [msg]))
  }

  function PortBroadcast(p: Port, m: nat, msg: ServerMsg): Port {
    if p.mailbox == Some(m) then PortSend(p, msg) else p
  }

  function PortSendAll(p: Port, msgs: seq<ServerMsg>): Port {
    if msgs == [] then p else PortSend(PortSendAll(p, msgs[..|msgs| - 1]), msgs[|msgs| - 1])
  }

  lemma DisconnectAt(r: Router, d: nat, c: nat)
    requires c in r.outboxes
    ensures DisconnectClient(r, d).outboxes == r.outboxes
    ensures At(DisconnectClient(r, d), c) == if d == c then Port(false, None, r.outboxes[c]) else At(r, c)
  {
  }

  lemma SendAt(r: Router, d: nat, msg: ServerMsg, c: nat)
    requires c in r.outboxes && d in r.outboxes
    ensures SendOrDisconnect(r, d, msg).outboxes.Keys == r.outboxes.Keys
    ensures At(SendOrDisconnect(r, d, msg), c) == if d == c then PortSend(At(r, c), msg) else At(r, c)
    ensures SendOrDisconnect(r, d, msg).table == r.table
  {
    hide DisconnectClient;
    DisconnectAt(r, d, c);
    DisconnectTable(r, d);
  }

  lemma DisconnectTable(r: Router, d: nat)
    ensures DisconnectClient(r, d).table == r.table
  {
  }

  lemma {:induction false} SendEachAt(r: Router, cs: seq<nat>, msg: ServerMsg, c: nat)
    requires c in r.outboxes && NoDuplicates(cs) && forall d :: d in cs ==> d in r.outboxes
    ensures At(SendEach(r, cs, msg), c) == if c in cs then PortSend(At(r, c), msg) else At(r, c)
    ensures SendEach(r, cs, msg).table == r.table
  {
    hide SendOrDisconnect, At, PortSend;
    if cs != [] {
      SendEachAt(r, cs[..|cs| - 1], msg, c);
      SendAt(SendEach(r, cs[..|cs| - 1], msg), cs[|cs| - 1], msg, c);
    }
  }

  /** A broadcast reaches a connection exactly if it is authenticated for the mailbox. */
  lemma BroadcastAt(r: Router, m: nat, msg: ServerMsg, c: nat)
    requires MapsOk(r) && c in r.outboxes
    ensures At(Broadcast(r, m, msg), c) == PortBroadcast(At(r, c), m, msg)
    ensures Broadcast(r, m, msg).table == r.table
  {
    hide PortSend;
    if m in r.mailboxToConnections {
      SendEachAt(r, Live(r.mailboxToConnections[m], r.connections), msg, c);
    }
  }

  lemma {:induction false} BacklogAt(r: Router, d: nat, rows: seq<Row>, c: nat)
    requires c in r.outboxes && d in r.outboxes
    ensures At(SendBacklog(r, d, rows), c) == if d == c then PortSendAll(At(r, c), AsDeliveries(rows)) else At(r, c)
    ensures SendBacklog(r, d, rows).table == r.table
  {
    hide SendOrDisconnect, At, PortSend;
    if rows != [] {
      BacklogAt(r, d, rows[..|rows| - 1], c);
      SendAt(SendBacklog(r, d, rows[..|rows| - 1]), d, Delivery(rows[|rows| - 1].seqNo, rows[|rows| - 1].payload), c);
      assert AsDeliveries(rows)[..|rows| - 1] == AsDeliveries(rows[..|rows| - 1]);
    }
  }

  function AsDeliveries(rows: seq<Row>): seq<ServerMsg> {
    seq(|rows|, i requires 0 <= i < |rows| => Delivery(rows[i].seqNo, rows[i].payload))
  }

  lemma BroadcastKeys(r: Router, m: nat, msg: ServerMsg)
    requires ChannelsOk(r)
    ensures Broadcast(r, m, msg).outboxes.Keys == r.outboxes.Keys
  {
  }

  /** The port after the ack that goes to the sender's own connection. */
  function Acked(r: Router, messageId: nat, sender: nat, c: nat): Port
    requires c in r.outboxes
  {
    if sender == c && c in r.connections then PortSend(At(r, c), Ack(messageId)) else At(r, c)
  }

  /**
   What a send does at one connection: the ack if it is the sender, and then the delivery if the
   registry read yields this server and the connection is authenticated for the mailbox.
   */
  lemma HandleSendAt(r: Router, payload: string, m: nat, messageId: nat, sender: nat, up: Backends, c: nat)
    requires MapsOk(r) && c in r.outboxes
    ensures var r', inserted := HandleSend(r, payload, m, messageId, sender, up),
                                Insert(r.table, messageId, m, payload, up.db);
            var acked := Acked(r, messageId, sender, c);
            && MapsOk(r') && c in r'.outboxes && r'.outboxes.Keys == r.outboxes.Keys && r'.table == inserted.0
            && r'.registry == r.registry && r'.serverId == r.serverId
            && At(r', c) == if r.serverId in Recipients(r.registry, m, up)
                            then PortBroadcast(acked, m, Delivery(inserted.1, payload)) else acked
  {
    hide SendOrDisconnect, Broadcast, Insert, ListsOk, PortSend;
    HandleSendKeeps(r, payload, m, messageId, sender, up);
    var inserted := Insert(r.table, messageId, m, payload, up.db);
    var r1 := r.(table := inserted.0);
    ListsOnly(r, r1);
    if sender in r1.connections {
      SendKeeps(r1, sender, Ack(messageId));
      SendAt(r1, sender, Ack(messageId), c);
    }
    var r2 := if sender in r1.connections then SendOrDisconnect(r1, sender, Ack(messageId)) else r1;
    BroadcastAt(r2, m, Delivery(inserted.1, payload), c);
    BroadcastKeys(r2, m, Delivery(inserted.1, payload));
  }

  // ---------------------------------------------------------------- the log

  /** Rows get ascending numbers, starting from 1. */
  ghost predicate TableOk(t: Table) {
    && (forall i :: 0 <= i < |t.rows| ==> 1 <= t.rows[i].seqNo <= t.lastSeq)
    && (forall i, j :: 0 <= i < j < |t.rows| ==> t.rows[i].seqNo < t.rows[j].seqNo)
  }

  lemma InsertKeeps(t: Table, messageId: nat, m: nat, payload: string, dbOk: bool)
    requires TableOk(t)
    ensures TableOk(Insert(t, messageId, m, payload, dbOk).0)
  {
  }

  /** The mailbox's own rows: the append-only log. */
  function Log(rows: seq<Row>, m: nat): seq<Row> {
    Backlog(rows, m, 0)
  }

  /** The cursor of a reader that has processed the first k rows. */
  function SeqAt(log: seq<Row>, k: nat): nat
    requires k <= |log|
  {
    if k == 0 then 0 else log[k - 1].seqNo
  }

  lemma {:induction false} BacklogRows(rows: seq<Row>, m: nat, after: int)
    ensures forall row :: row in Backlog(rows, m, after) ==> row in rows && row.seqNo > after
    ensures (forall row :: row in rows ==> row.seqNo <= after) ==> Backlog(rows, m, after) == []
  {
    if rows != [] {
      BacklogRows(rows[..|rows| - 1], m, after);
    }
  }

  lemma PrefixOk(t: Table)
    requires TableOk(t) && t.rows != []
    ensures TableOk(t.(rows := t.rows[..|t.rows| - 1]))
    ensures forall row :: row in t.rows[..|t.rows| - 1] ==> row.seqNo < t.rows[|t.rows| - 1].seqNo
  {
  }

  lemma BacklogStep(rows: seq<Row>, m: nat, after: int)
    requires rows != []
    ensures Backlog(rows, m, after)
            == Backlog(rows[..|rows| - 1], m, after)
               + if rows[|rows| - 1].mailbox == m && rows[|rows| - 1].seqNo > after then [rows[|rows| - 1]] else []
  {
  }

  /** A mailbox's log ascends, between 1 and the highest number handed out. */
  ghost predicate LogOk(log: seq<Row>, lastSeq: nat) {
    && (forall i :: 0 <= i < |log| ==> 1 <= log[i].seqNo <= lastSeq)
    && (forall i, j :: 0 <= i < j < |log| ==> log[i].seqNo < log[j].seqNo)
  }

  lemma {:induction false} LogAscends(t: Table, m: nat)
    requires TableOk(t)
    ensures LogOk(Log(t.rows, m), t.lastSeq)
    decreases |t.rows|
  {
    hide Backlog, TableOk;
    if t.rows == [] {
      EmptyBacklog(m, 0);
    } else {
      PrefixOk(t);
      var init, last := t.(rows := t.rows[..|t.rows| - 1]), t.rows[|t.rows| - 1];
      LogAscends(init, m);
      BacklogStep(t.rows, m, 0);
      BacklogRows(init.rows, m, 0);
      LastInRange(t);
      assert forall i :: 0 <= i < |Log(init.rows, m)| ==> Log(init.rows, m)[i] in Log(init.rows, m);
    }
  }

  lemma LastInRange(t: Table)
    requires TableOk(t) && t.rows != []
    ensures 1 <= t.rows[|t.rows| - 1].seqNo <= t.lastSeq
  {
  }

  lemma EmptyBacklog(m: nat, after: int)
    ensures Backlog([], m, after) == []
  {
  }

  /** What authenticate.rs selects for the cursor of a reader at index k is the rest of the log from k. */
  lemma {:induction false} BacklogIsRest(t: Table, m: nat, k: nat)
    requires TableOk(t) && k <= |Log(t.rows, m)|
    ensures Backlog(t.rows, m, SeqAt(Log(t.rows, m), k)) == Log(t.rows, m)[k..]
    decreases |t.rows|
  {
    hide Backlog, TableOk;
    if t.rows == [] {
      EmptyBacklog(m, 0);
      EmptyBacklog(m, SeqAt(Log(t.rows, m), k));
    } else {
      PrefixOk(t);
      LastInRange(t);
      var init, last := t.(rows := t.rows[..|t.rows| - 1]), t.rows[|t.rows| - 1];
      var log, log0 := Log(t.rows, m), Log(init.rows, m);
      BacklogStep(t.rows, m, 0);
      BacklogStep(t.rows, m, SeqAt(log, k));
      BacklogRows(init.rows, m, 0);
      if k <= |log0| {
        BacklogIsRest(init, m, k);
        assert k > 0 ==> log[k - 1] == log0[k - 1] && log0[k - 1] in log0;
        assert log[k..] == log0[k..] + log[|log0|..];
      } else {
        BacklogRows(init.rows, m, last.seqNo);
      }
    }
  }

  /** What an insert does to a mailbox's log. */
  lemma InsertLog(t: Table, messageId: nat, to: nat, payload: string, dbOk: bool, m: nat)
    requires TableOk(t)
    ensures var r := Insert(t, messageId, to, payload, dbOk);
            Log(r.0.rows, m)
              == if r.1 > 0 && to == m then Log(t.rows, m) + [Row(messageId, to, r.1, payload)] else Log(t.rows, m)
  {
    var r := Insert(t, messageId, to, payload, dbOk);
    if r.1 > 0 {
      assert r.0.rows[..|r.0.rows| - 1] == t.rows;
    }
  }

  // ---------------------------------------------------------------- the reader

  /** The numbered deliveries among some frames. */
  function Recorded(msgs: seq<ServerMsg>): seq<ServerMsg> {
    if msgs == [] then []
    else Recorded(msgs[..|msgs| - 1])
         + if Numbered(msgs[|msgs| - 1]) then [msgs[|msgs| - 1]] else []
  }

  predicate Numbered(msg: ServerMsg) {
    msg.Delivery? && msg.seqNo > 0
  }

  lemma {:induction false} RecordedAdd(a: seq<ServerMsg>, b: seq<ServerMsg>)
    ensures Recorded(a + b) == Recorded(a) + Recorded(b)
  {
    if b == [] {
      assert a + b == a;
    } else {
      RecordedAdd(a, b[..|b| - 1]);
      assert (a + b)[..|a + b| - 1] == a + b[..|b| - 1];
    }
  }

  lemma RecordedOne(msg: ServerMsg)
    ensures Recorded([msg]) == if Numbered(msg) then [msg] else []
  {
    assert [msg][..0] == [];
  }

  lemma {:induction false} RecordedDeliveries(rows: seq<Row>)
    requires forall row :: row in rows ==> row.seqNo > 0
    ensures Recorded(AsDeliveries(rows)) == AsDeliveries(rows)
  {
    if rows != [] {
      assert AsDeliveries(rows)[..|rows| - 1] == AsDeliveries(rows[..|rows| - 1]);
      RecordedDeliveries(rows[..|rows| - 1]);
      assert rows[|rows| - 1] in rows;
    }
  }

  /**
   A device: its open connection and how many frames it took from it, its cursor, and what it
   processed. `clean` records that no insert of the run has failed so far.
   */
  datatype Reader = Reader(mailbox: nat, conn: Option<nat>, taken: nat, cursor: nat, processed: seq<ServerMsg>,
                           clean: bool)

  /** Every delivery among some frames is numbered. */
  ghost predicate AllNumbered(msgs: seq<ServerMsg>) {
    forall i :: 0 <= i < |msgs| && msgs[i].Delivery? ==> Numbered(msgs[i])
  }

  /** How far the device is in its log. */
  function Index(d: Reader): nat {
    |Recorded(d.processed)|
  }

  /** The device has processed exactly a prefix of its log, and its cursor says which. */
  ghost predicate ReadPrefix(d: Reader, log: seq<Row>) {
    && Index(d) <= |log| && d.cursor == SeqAt(log, Index(d))
    && Recorded(d.processed) == AsDeliveries(log[..Index(d)])
    && (d.clean ==> Recorded(d.processed) == d.processed)
  }

  /** What waits in the connection's channel is the next stretch of the log: all the rest while authenticated. */
  ghost predicate Feeds(p: Port, d: Reader, log: seq<Row>) {
    && d.taken <= |p.outbox.queue| && Index(d) <= |log|
    && var waiting := Recorded(p.outbox.queue[d.taken..]);
    && Index(d) + |waiting| <= |log|
    && waiting == AsDeliveries(log[Index(d)..Index(d) + |waiting|])
    && (p.mailbox.Some? ==> p.mailbox == Some(d.mailbox) && Index(d) + |waiting| == |log|)
    && (p.mailbox.None? && p.live ==> Recorded(p.outbox.queue) == [])
    && (d.clean ==> AllNumbered(p.outbox.queue))
  }

  lemma FeedsQuiet(p: Port, d: Reader, log: seq<Row>, msg: ServerMsg)
    requires Feeds(p, d, log) && !Numbered(msg) && (msg.Delivery? ==> !d.clean)
    ensures Feeds(PortSend(p, msg), d, log)
  {
    hide Recorded;
    var q := p.outbox.queue;
    RecordedAdd(q[d.taken..], [msg]);
    RecordedAdd(q, [msg]);
    RecordedOne(msg);
    assert (q + [msg])[d.taken..] == q[d.taken..] + [msg];
    assert Recorded(q[d.taken..]) + [] == Recorded(q[d.taken..]);
  }

  /** A new row of the mailbox, broadcast, keeps feeding the reader. */
  lemma FeedsNew(p: Port, d: Reader, log: seq<Row>, row: Row)
    requires Feeds(p, d, log) && row.seqNo > 0
    ensures Feeds(PortBroadcast(p, d.mailbox, Delivery(row.seqNo, row.payload)), d, log + [row])
  {
    hide Recorded;
    var q, msg := p.outbox.queue, Delivery(row.seqNo, row.payload);
    RecordedAdd(q[d.taken..], [msg]);
    RecordedOne(msg);
    assert (q + [msg])[d.taken..] == q[d.taken..] + [msg];
    var k, n := Index(d), |Recorded(q[d.taken..])|;
    assert (log + [row])[k..k + n] == log[k..k + n];
    if p.mailbox.Some? {
      assert AsDeliveries(log[k..]) + [msg] == AsDeliveries((log + [row])[k..]);
      assert (log + [row])[k..|log| + 1] == (log + [row])[k..];
      assert log[k..|log|] == log[k..];
    }
  }

  lemma ReadPrefixNew(d: Reader, log: seq<Row>, row: Row)
    requires ReadPrefix(d, log)
    ensures ReadPrefix(d, log + [row])
  {
    assert (log + [row])[..Index(d)] == log[..Index(d)];
  }

  lemma {:induction false} SendAllQueue(p: Port, msgs: seq<ServerMsg>)
    ensures PortSendAll(p, msgs)
            == if p.outbox.closed && msgs != [] then Port(false, None, p.outbox)
               else p.(outbox := p.outbox.(queue := p.outbox.queue + msgs))
  {
    if msgs != [] {
      SendAllQueue(p, msgs[..|msgs| - 1]);
      assert p.outbox.queue + msgs == p.outbox.queue + msgs[..|msgs| - 1] + [msgs[|msgs| - 1]];
    } else {
      assert p.outbox.queue + [] == p.outbox.queue;
    }
  }

  lemma AllWaiting(q: seq<ServerMsg>, taken: nat, rest: seq<ServerMsg>)
    requires taken <= |q| && Recorded(q) == [] && Recorded(rest) == rest
    ensures Recorded((q + rest)[taken..]) == rest
    ensures Recorded(q[taken..]) == []
  {
    hide Recorded;
    RecordedAdd(q[..taken], q[taken..]);
    assert q[..taken] + q[taken..] == q;
    RecordedAdd(q[taken..], rest);
    assert [] + rest == rest;
    assert (q + rest)[taken..] == q[taken..] + rest;
  }

  /** Authenticating with the cursor puts the whole rest of the log into the channel. */
  lemma FeedsBacklog(p: Port, d: Reader, log: seq<Row>)
    requires Feeds(p, d, log) && p.live && p.mailbox.None?
    requires forall row :: row in log ==> row.seqNo > 0
    ensures Feeds(PortSendAll(p.(mailbox := Some(d.mailbox)), AsDeliveries(log[Index(d)..])), d, log)
  {
    hide Recorded, PortSendAll;
    var q, rest := p.outbox.queue, AsDeliveries(log[Index(d)..]);
    SendAllQueue(p.(mailbox := Some(d.mailbox)), rest);
    RecordedDeliveries(log[Index(d)..]);
    AllWaiting(q, d.taken, rest);
    assert log[Index(d)..|log|] == log[Index(d)..];
  }
}
