/**
 Runs in which nothing keeps the registry right: keys expire, Redis fails, frames pass a listening
 device by. The device still reads a prefix of its log exactly until it takes a numbered delivery
 that was queued, on the same connection, after a frame had passed it by.
 */
module MailboxGaps {
  import opened Wrappers
  import opened Router
  import opened RouterMaps
  import opened Mailbox
  import opened MailboxRuns

  /**
   `mark` is how long the connection's queue was when the first frame passed the device by on it;
   `crossed` says that the device has taken a numbered delivery from beyond such a mark.
   */
  datatype Watched = Watched(link: Link, mark: Option<nat>, crossed: bool)

  function Waiting(l: Link): seq<ServerMsg> {
    if l.device.conn.Some? && l.device.conn.value in l.router.outboxes
    then l.router.outboxes[l.device.conn.value].queue
    else []
  }

  /** The next frame is numbered and from beyond the mark. */
  predicate Crosses(w: Watched) {
    && w.mark.Some? && w.mark.value <= w.link.device.taken < |Waiting(w.link)|
    && Numbered(Waiting(w.link)[w.link.device.taken])
  }

  function Observe(w: Watched, s: Step): Watched
    requires ChannelsOk(w.link.router)
  {
    if !May(w.link, s) then w else
    var link := Effect(w.link, s);
    match s
    case Server(e) =>
      Watched(link, if w.mark.None? && Misses(w.link, e) then Some(|Waiting(link)|) else w.mark, w.crossed)
    case Open(_, _) => Watched(link, None, w.crossed)
    case Take => Watched(link, w.mark, w.crossed || Crosses(w))
    case Drop => Watched(link, None, w.crossed)
  }

  // ---------------------------------------------------------------- what an event does to one connection

  /** The connection's mailbox, if it has one, is the device's. */
  ghost predicate OwnConnection(l: Link) {
    l.device.conn.Some? && l.device.conn.value in l.router.outboxes ==>
      var p := At(l.router, l.device.conn.value);
      p.mailbox.Some? ==> p.mailbox == Some(l.device.mailbox)
  }

  /** What a new frame may be: no delivery, the newest row, a row past `from`, or, unless inserts are fine, number 0. */
  predicate NewFrame(msg: ServerMsg, last: nat, from: Option<nat>, fine: bool) {
    msg.Delivery? ==>
      || msg.seqNo == last + 1
      || (from.Some? && msg.seqNo > from.value)
      || (msg.seqNo == 0 && !fine)
  }

  /** The queue only grows, by such frames, and a connection out of the maps stays out. */
  ghost predicate Follows(p: Port, p': Port, last: nat, from: Option<nat>, fine: bool) {
    && p.outbox.queue <= p'.outbox.queue
    && (p'.live ==> p.live) && (p'.mailbox.Some? && from.None? ==> p'.mailbox == p.mailbox)
    && (p'.live && from.None? ==> p'.mailbox == p.mailbox)
    && forall i :: |p.outbox.queue| <= i < |p'.outbox.queue| ==> NewFrame(p'.outbox.queue[i], last, from, fine)
  }

  lemma SendFollows(p: Port, msg: ServerMsg, last: nat, from: Option<nat>, fine: bool)
    requires NewFrame(msg, last, from, fine)
    ensures Follows(p, PortSend(p, msg), last, from, fine)
  {
  }

  lemma FollowsTrans(p: Port, q: Port, r: Port, last: nat, from: Option<nat>, fine: bool)
    requires Follows(p, q, last, from, fine) && Follows(q, r, last, from, fine)
    ensures Follows(p, r, last, from, fine)
  {
    var a, b, c := p.outbox.queue, q.outbox.queue, r.outbox.queue;
    assert c[..|a|] == b[..|a|];
    forall i | |a| <= i < |c| ensures NewFrame(c[i], last, from, fine) {
      if i < |b| {
        assert c[i] == b[i];
      }
    }
  }

  /** The frames of a send, at any connection of the device. */
  lemma SendsFollow(l: Link, x: nat, to: nat, payload: string, messageId: nat, up: Backends)
    requires MapsOk(l.router) && OwnConnection(l)
    requires l.device.conn.Some? && l.device.conn.value in l.router.outboxes
    requires x in l.router.connections && x in l.router.connectionToMailbox
    ensures var c, r' := l.device.conn.value, HandleSend(l.router, payload, to, messageId, x, up);
            var fine := InsertsFine(l.router, Received(x, Send(Some(to), payload, Some(messageId)), up),
                                    l.device.mailbox);
            c in r'.outboxes && Follows(At(l.router, c), At(r', c), l.router.table.lastSeq, None, fine)
  {
    hide ListsOk, HandleSend, HasRow, PortSend, Follows;
    var r, c, last := l.router, l.device.conn.value, l.router.table.lastSeq;
    var fine := InsertsFine(r, Received(x, Send(Some(to), payload, Some(messageId)), up), l.device.mailbox);
    var acked, inserted := Acked(r, messageId, x, c), Insert(r.table, messageId, to, payload, up.db);
    HandleSendAt(r, payload, to, messageId, x, up, c);
    SendFollows(At(r, c), Ack(messageId), last, None, fine);
    StaysFollows(At(r, c), last, None, fine);
    StaysFollows(acked, last, None, fine);
    if acked.mailbox == Some(to) {
      AckedOwn(l, messageId, x, c);
      SendFollows(acked, Delivery(inserted.1, payload), last, None, fine);
      FollowsTrans(At(r, c), acked, PortSend(acked, Delivery(inserted.1, payload)), last, None, fine);
    }
  }

  lemma AckedOwn(l: Link, messageId: nat, x: nat, c: nat)
    requires OwnConnection(l) && l.device.conn == Some(c) && c in l.router.outboxes
    ensures Acked(l.router, messageId, x, c).mailbox.Some?
          ==> Acked(l.router, messageId, x, c).mailbox == Some(l.device.mailbox)
  {
  }

  lemma StaysFollows(p: Port, last: nat, from: Option<nat>, fine: bool)
    ensures Follows(p, p, last, from, fine)
  {
  }

  /** The rows past the cursor that a connection gets when it authenticates. */
  lemma BacklogFollows(p: Port, m: nat, rows: seq<Row>, after: nat, last: nat, fine: bool)
    requires forall row :: row in rows ==> row.seqNo > after
    ensures Follows(p, PortSend(PortSendAll(p.(mailbox := Some(m)), AsDeliveries(rows)), Say(AuthOk(m))), last,
                    Some(after), fine)
  {
    hide PortSendAll;
    var msgs := AsDeliveries(rows);
    SendAllQueue(p.(mailbox := Some(m)), msgs);
    assert forall i :: 0 <= i < |rows| ==> rows[i] in rows;
  }

  /** Whether the event is the device's own connection authenticating for the first time. */
  predicate Authenticates(l: Link, e: Event) {
    && e.Received? && e.command.Authenticate? && l.device.conn == Some(e.client) && e.client in l.router.connections
    && e.client !in l.router.connectionToMailbox && e.command.mailbox.Some? && e.up.db
  }

  lemma ReceivedFollows(l: Link, e: Event)
    requires MapsOk(l.router) && OwnConnection(l) && EventMay(l, e) && e.Received?
    requires l.device.conn.Some? && l.device.conn.value in l.router.outboxes
    ensures var c, r' := l.device.conn.value, Handle(l.router, e);
            c in r'.outboxes
            && Follows(At(l.router, c), At(r', c), l.router.table.lastSeq,
                       if Authenticates(l, e) then Some(l.device.cursor) else None,
                       InsertsFine(l.router, e, l.device.mailbox))
  {
    hide ListsOk, SendOrDisconnect, HandleSend, Register, SendBacklog, Broadcast, Backlog, HasRow, Follows, PortSend,
         At;
    var r, c, x, last := l.router, l.device.conn.value, e.client, l.router.table.lastSeq;
    var from := if Authenticates(l, e) then Some(l.device.cursor) else None;
    var fine := InsertsFine(r, e, l.device.mailbox);
    StaysFollows(At(r, c), last, from, fine);
    if x in r.connections {
      SaysFollow(r, x, c, last, from, fine);
      match e.command
      case Authenticate(mailbox, lastSeq) =>
        if x !in r.connectionToMailbox && mailbox.Some? && e.up.db {
          assert e.command == Authenticate(Some(mailbox.value), lastSeq);
          AuthenticateAt(r, x, mailbox.value, lastSeq, e.up, c);
          BacklogRows(r.table.rows, mailbox.value, lastSeq);
          if x == c {
            BacklogFollows(At(r, c), mailbox.value, Backlog(r.table.rows, mailbox.value, lastSeq), l.device.cursor,
                           last, fine);
          }
        }
      case Send(mailbox, payload, messageId) =>
        if x in r.connectionToMailbox && mailbox.Some? && messageId.Some? {
          SendsFollow(l, x, mailbox.value, payload, messageId.value, e.up);
        }
      case TypingCommand(mailbox, payload, stop) =>
        if x in r.connectionToMailbox && mailbox.Some? {
          BroadcastAt(r, mailbox.value, Typing(payload, stop), c);
          BroadcastKeys(r, mailbox.value, Typing(payload, stop));
          SendFollows(At(r, c), Typing(payload, stop), last, from, fine);
        }
    }
  }

  lemma SaysFollow(r: Router, x: nat, c: nat, last: nat, from: Option<nat>, fine: bool)
    requires x in r.outboxes && c in r.outboxes
    ensures forall notice :: var r' := SendOrDisconnect(r, x, Say(notice));
                             c in r'.outboxes && Follows(At(r, c), At(r', c), last, from, fine)
  {
    hide SendOrDisconnect, At, PortSend, Follows;
    forall notice
      ensures var r' := SendOrDisconnect(r, x, Say(notice));
              c in r'.outboxes && Follows(At(r, c), At(r', c), last, from, fine)
    {
      SendAt(r, x, Say(notice), c);
      SendFollows(At(r, c), Say(notice), last, from, fine);
      StaysFollows(At(r, c), last, from, fine);
    }
  }

  lemma OtherFollows(l: Link, e: Event)
    requires MapsOk(l.router) && OwnConnection(l) && EventMay(l, e) && !e.Received?
    requires l.device.conn.Some? && l.device.conn.value in l.router.outboxes
    ensures var c, r' := l.device.conn.value, Handle(l.router, e);
            c in r'.outboxes && r'.table == l.router.table
            && Follows(At(l.router, c), At(r', c), l.router.table.lastSeq, None, true)
  {
    hide ListsOk, HandleDisconnected, Broadcast;
    var r, c := l.router, l.device.conn.value;
    match e
    case Connected(_, _) =>
    case Disconnected(x, up) =>
      DisconnectedAt(r, x, up, c);
      DisconnectedTable(r, x, up);
    case PubSubDelivery(m, seqNo, payload) =>
      BroadcastAt(r, m, Delivery(seqNo, payload), c);
      BroadcastKeys(r, m, Delivery(seqNo, payload));
    case WriterEnded(_) =>
    case RegistryExpired(_) =>
  }

  // ---------------------------------------------------------------- passed by

  function End(taken: nat, mark: nat): nat {
    if taken < mark then mark else taken
  }

  /** The queue up to the mark, or to where the device has got, as of a connection that is out of the maps. */
  function Before(q: seq<ServerMsg>, taken: nat, mark: nat): Port
    requires taken <= |q| && mark <= |q|
  {
    Port(false, None, Outbox(q[..End(taken, mark)], false))
  }

  /** The index of the row that passed the device by. */
  function Missing(d: Reader, q: seq<ServerMsg>, mark: nat): nat
    requires d.taken <= |q| && mark <= |q|
  {
    Index(d) + |Recorded(q[d.taken..End(d.taken, mark)])|
  }

  /** Up to the mark the queue feeds the device; a row is missing after that; all numbered frames beyond are newer. */
  ghost predicate Gapped(d: Reader, q: seq<ServerMsg>, log: seq<Row>, mark: nat) {
    && d.taken <= |q| && mark <= |q|
    && Feeds(Before(q, d.taken, mark), d, log)
    && Missing(d, q, mark) < |log|
    && (forall i :: mark <= i < |q| && Numbered(q[i]) ==> q[i].seqNo > log[Missing(d, q, mark)].seqNo)
    && (d.clean ==> AllNumbered(q))
  }

  /** A row of the log is behind the cursor, was never processed, and is not among the frames to come. */
  ghost predicate Lost(l: Link, number: nat) {
    && 0 < number < l.device.cursor
    && (exists j :: 0 <= j < |Log(l.router.table.rows, l.device.mailbox)|
          && Log(l.router.table.rows, l.device.mailbox)[j].seqNo == number)
    && (forall i :: 0 <= i < |l.device.processed| && l.device.processed[i].Delivery? ==>
          l.device.processed[i].seqNo != number)
    && (forall i :: l.device.taken <= i < |Waiting(l)| && Waiting(l)[i].Delivery? ==> Waiting(l)[i].seqNo != number)
  }

  ghost predicate WatchOk(w: Watched) {
    var l, log := w.link, Log(w.link.router.table.rows, w.link.device.mailbox);
    && MapsOk(l.router) && TableOk(l.router.table) && OwnConnection(l)
    && (w.mark.Some? ==> l.device.conn.Some? && l.device.conn.value in l.router.outboxes
                         && (At(l.router, l.device.conn.value).live
                             ==> At(l.router, l.device.conn.value).mailbox.Some?))
    && (if w.crossed then exists number: nat :: Lost(l, number)
        else ReadPrefix(l.device, log)
             && (if w.mark.None? then Fed(l.router, l.device) else Gapped(l.device, Waiting(l), log, w.mark.value)))
  }

  lemma FeedsLonger(p: Port, d: Reader, log: seq<Row>, row: Row)
    requires Feeds(p, d, log) && p.mailbox.None?
    ensures Feeds(p, d, log + [row])
  {
    hide Recorded;
    var k, n := Index(d), |Recorded(p.outbox.queue[d.taken..])|;
    assert (log + [row])[k..k + n] == log[k..k + n];
  }

  /** Only the queue and, without a mailbox and not live, nothing else of the port matters. */
  lemma FeedsOut(p: Port, d: Reader, log: seq<Row>)
    requires Feeds(p, d, log)
    ensures Feeds(Port(false, None, Outbox(p.outbox.queue, false)), d, log)
  {
    hide Recorded;
  }

  /** A listening device is passed by. */
  lemma MissGaps(l: Link, e: Event)
    requires InTouch(l) && EventMay(l, e) && Misses(l, e)
    ensures var d := l.device.(clean := l.device.clean && InsertsFine(l.router, e, l.device.mailbox));
            var l' := Link(Handle(l.router, e), d);
            && MapsOk(l'.router) && d.conn.value in l'.router.outboxes
            && (At(l'.router, d.conn.value).live ==> At(l'.router, d.conn.value).mailbox.Some?)
            && TableOk(l'.router.table) && ReadPrefix(d, Log(l'.router.table.rows, d.mailbox))
            && Gapped(d, Waiting(l'), Log(l'.router.table.rows, d.mailbox), |Waiting(l')|)
  {
    hide ListsOk, HandleSend, HasRow, TableOk, Backlog, Feeds, ReadPrefix, Insert, Recorded, Gapped;
    var r, c, to, id, payload := l.router, l.device.conn.value, e.command.mailbox.value, e.command.messageId.value,
                                 e.command.payload;
    var log := Log(r.table.rows, to);
    HandleSendAt(r, payload, to, id, e.client, e.up, c);
    InsertLog(r.table, id, to, payload, true, to);
    InsertNumbers(r.table, id, to, payload, true);
    InsertKeeps(r.table, id, to, payload, true);
    var row := Row(id, to, Insert(r.table, id, to, payload, true).1, payload);
    ReadPrefixNew(l.device, log, row);
    FeedsQuiet(At(r, c), l.device, log, Ack(id));
    var acked := Acked(r, id, e.client, c);
    AckedGaps(acked, At(r, c), l.device, log, row);
  }

  lemma AckedGaps(acked: Port, p: Port, d: Reader, log: seq<Row>, row: Row)
    requires Feeds(p, d, log) && Feeds(acked, d, log) && p.mailbox.Some?
    requires acked == p || exists msg :: acked == PortSend(p, msg) && !Numbered(msg)
    ensures var q := acked.outbox.queue;
            Gapped(d, q, log + [row], |q|) && (acked.live ==> acked.mailbox.Some? || !p.live)
  {
    hide Recorded;
    var q := acked.outbox.queue;
    FeedsOut(acked, d, log);
    FeedsLonger(Port(false, None, Outbox(q, false)), d, log, row);
    assert q[..|q|] == q;
  }

  // ---------------------------------------------------------------- after a gap

  /** How the log may have grown by one event. */
  ghost predicate Grown(t: Table, t': Table, m: nat) {
    && TableOk(t') && t'.lastSeq >= t.lastSeq
    && (Log(t'.rows, m) == Log(t.rows, m)
        || exists row: Row :: row.seqNo == t.lastSeq + 1 && Log(t'.rows, m) == Log(t.rows, m) + [row])
  }

  lemma InsertGrows(t: Table, messageId: nat, to: nat, payload: string, dbOk: bool, m: nat)
    requires TableOk(t)
    ensures Grown(t, Insert(t, messageId, to, payload, dbOk).0, m)
  {
    hide Backlog, TableOk;
    InsertKeeps(t, messageId, to, payload, dbOk);
    InsertLog(t, messageId, to, payload, dbOk, m);
  }

  lemma EventGrows(l: Link, e: Event)
    requires MapsOk(l.router) && TableOk(l.router.table) && EventMay(l, e)
    ensures Grown(l.router.table, Handle(l.router, e).table, l.device.mailbox)
  {
    hide ListsOk, Backlog, TableOk, Insert, HandleReceived, HandleDisconnected, Broadcast, Grown;
    var r, m := l.router, l.device.mailbox;
    SameGrown(r.table, m);
    match e
    case Connected(_, _) =>
    case Received(x, command, up) =>
      ReceivedTable(r, x, command, up);
      if HandleReceived(r, x, command, up).table != r.table {
        var id, to, payload :| HandleReceived(r, x, command, up).table == Insert(r.table, id, to, payload, up.db).0;
        InsertGrows(r.table, id, to, payload, up.db, m);
      }
    case Disconnected(x, up) => DisconnectedTable(r, x, up);
    case PubSubDelivery(to, seqNo, payload) => BroadcastTable(r, to, Delivery(seqNo, payload));
    case WriterEnded(_) =>
    case RegistryExpired(_) =>
  }

  lemma SameGrown(t: Table, m: nat)
    requires TableOk(t)
    ensures Grown(t, t, m)
  {
  }

  lemma GrownPrefix(t: Table, t': Table, d: Reader)
    requires Grown(t, t', d.mailbox) && ReadPrefix(d, Log(t.rows, d.mailbox))
    ensures ReadPrefix(d, Log(t'.rows, d.mailbox))
  {
    hide Backlog, ReadPrefix, TableOk;
    var log, log' := Log(t.rows, d.mailbox), Log(t'.rows, d.mailbox);
    if log' != log {
      var row: Row :| row.seqNo == t.lastSeq + 1 && log' == log + [row];
      ReadPrefixNew(d, log, row);
    }
  }

  lemma GapKept(d: Reader, p: Port, p': Port, t: Table, t': Table, mark: nat, fine: bool)
    requires TableOk(t) && Grown(t, t', d.mailbox) && Gapped(d, p.outbox.queue, Log(t.rows, d.mailbox), mark)
    requires Follows(p, p', t.lastSeq, None, fine)
    ensures Gapped(d.(clean := d.clean && fine), p'.outbox.queue, Log(t'.rows, d.mailbox), mark)
  {
    hide Recorded, Backlog, TableOk, Feeds;
    var q, q', log, log' := p.outbox.queue, p'.outbox.queue, Log(t.rows, d.mailbox), Log(t'.rows, d.mailbox);
    var d' := d.(clean := d.clean && fine);
    var n := Missing(d, q, mark);
    LogAscends(t, d.mailbox);
    assert q'[..End(d.taken, mark)] == q[..End(d.taken, mark)];
    assert q'[d.taken..End(d.taken, mark)] == q[d.taken..End(d.taken, mark)];
    LongerLog(Before(q, d.taken, mark), d, log, log', t.lastSeq);
    Uncleaner(Before(q, d.taken, mark), d, log', d.clean && fine);
    assert log'[n] == log[n] && log[n].seqNo <= t.lastSeq;
    forall i | mark <= i < |q'| && Numbered(q'[i]) ensures q'[i].seqNo > log'[n].seqNo {
      if i < |q| {
        assert q'[i] == q[i];
      } else {
        assert NewFrame(q'[i], t.lastSeq, None, fine);
      }
    }
    forall i | 0 <= i < |q'| && q'[i].Delivery? && d'.clean ensures Numbered(q'[i]) {
      if i < |q| {
        assert q'[i] == q[i];
      } else {
        assert NewFrame(q'[i], t.lastSeq, None, fine);
      }
    }
  }

  lemma LongerLog(p: Port, d: Reader, log: seq<Row>, log': seq<Row>, last: nat)
    requires Feeds(p, d, log) && p.mailbox.None?
    requires log' == log || exists row: Row :: row.seqNo == last + 1 && log' == log + [row]
    ensures Feeds(p, d, log')
  {
    hide Feeds;
    if log' != log {
      var row: Row :| row.seqNo == last + 1 && log' == log + [row];
      FeedsLonger(p, d, log, row);
    }
  }

  lemma Uncleaner(p: Port, d: Reader, log: seq<Row>, clean: bool)
    requires Feeds(p, d, log) && (clean ==> d.clean)
    ensures Feeds(p, d.(clean := clean), log)
  {
    hide Recorded;
  }

  /** The device takes a frame that was queued before the mark, or that has no number. */
  lemma TakeInGap(d: Reader, q: seq<ServerMsg>, t: Table, mark: nat)
    requires TableOk(t) && ReadPrefix(d, Log(t.rows, d.mailbox)) && Gapped(d, q, Log(t.rows, d.mailbox), mark)
    requires d.taken < |q| && !(mark <= d.taken && Numbered(q[d.taken]))
    ensures var d' := TakeFrame(d, q[d.taken]);
            ReadPrefix(d', Log(t.rows, d.mailbox)) && Gapped(d', q, Log(t.rows, d.mailbox), mark)
              && d'.cursor >= d.cursor
  {
    hide Recorded, Backlog, TableOk;
    var log, msg := Log(t.rows, d.mailbox), q[d.taken];
    var d', p := TakeFrame(d, msg), Before(q, d.taken, mark);
    LogAscends(t, d.mailbox);
    if d.taken < mark {
      hide Feeds;
      assert p.outbox.queue[d.taken] == msg;
      FeedsTake(p, d, log);
      PrefixTake(p, d, log, t.lastSeq);
      TakeMissing(d, q, mark);
    } else {
      ProcessedTake(d, msg);
      assert Recorded(d.processed) + [] == Recorded(d.processed);
      assert q[..d.taken + 1][d.taken + 1..] == [];
      assert q[..d.taken][d.taken..] == [];
      RecordedNone();
    }
  }

  lemma RecordedNone()
    ensures Recorded([]) == []
  {
  }

  lemma TakeMissing(d: Reader, q: seq<ServerMsg>, mark: nat)
    requires d.taken < mark <= |q|
    ensures Missing(TakeFrame(d, q[d.taken]), q, mark) == Missing(d, q, mark)
  {
    hide Recorded;
    var p := q[..mark];
    WaitingTake(p, d.taken);
    assert p[d.taken..] == q[d.taken..mark] && p[d.taken + 1..] == q[d.taken + 1..mark];
    ProcessedTake(d, q[d.taken]);
  }

  /** The device takes a numbered frame from beyond the mark: the missing row is lost. */
  lemma TakeCrosses(d: Reader, q: seq<ServerMsg>, t: Table, mark: nat)
    requires TableOk(t) && ReadPrefix(d, Log(t.rows, d.mailbox)) && Gapped(d, q, Log(t.rows, d.mailbox), mark)
    requires mark <= d.taken < |q| && Numbered(q[d.taken])
    ensures var d', log := TakeFrame(d, q[d.taken]), Log(t.rows, d.mailbox);
            && Index(d) < |log| && 0 < log[Index(d)].seqNo < d'.cursor
            && (forall i :: 0 <= i < |d'.processed| && d'.processed[i].Delivery? ==>
                  d'.processed[i].seqNo != log[Index(d)].seqNo)
            && (forall i :: d'.taken <= i < |q| && q[i].Delivery? ==> q[i].seqNo != log[Index(d)].seqNo)
  {
    hide Recorded, Backlog, TableOk, Feeds;
    var d', log, k := TakeFrame(d, q[d.taken]), Log(t.rows, d.mailbox), Index(d);
    LogAscends(t, d.mailbox);
    assert q[d.taken..d.taken] == [];
    RecordedNone();
    assert Missing(d, q, mark) == k;
    forall i | 0 <= i < |d.processed| && d.processed[i].Delivery? ensures d.processed[i].seqNo != log[k].seqNo {
      if Numbered(d.processed[i]) {
        RecordedHas(d.processed, i);
        var j :| 0 <= j < |Recorded(d.processed)| && Recorded(d.processed)[j] == d.processed[i];
        assert Recorded(d.processed)[j] == AsDeliveries(log[..k])[j];
      }
    }
  }

  lemma {:induction false} RecordedHas(msgs: seq<ServerMsg>, i: nat)
    requires i < |msgs| && Numbered(msgs[i])
    ensures msgs[i] in Recorded(msgs)
  {
    if i < |msgs| - 1 {
      RecordedHas(msgs[..|msgs| - 1], i);
    }
  }

  // ---------------------------------------------------------------- a lost row stays lost

  lemma LostKept(l: Link, d': Reader, r': Router, number: nat, fine: bool)
    requires Lost(l, number) && TableOk(l.router.table) && Grown(l.router.table, r'.table, l.device.mailbox)
    requires d' == l.device.(clean := d'.clean)
    requires var frames, frames' := Waiting(l), Waiting(Link(r', d'));
             && frames <= frames'
             && forall i :: |frames| <= i < |frames'| ==>
                  NewFrame(frames'[i], l.router.table.lastSeq, Some(l.device.cursor), fine)
    ensures Lost(Link(r', d'), number)
  {
    hide Backlog, TableOk;
    var l' := Link(r', d');
    var log, log' := Log(l.router.table.rows, d'.mailbox), Log(r'.table.rows, d'.mailbox);
    LogAscends(l.router.table, d'.mailbox);
    var j :| 0 <= j < |log| && log[j].seqNo == number;
    assert log'[j] == log[j];
    forall i | d'.taken <= i < |Waiting(l')| && Waiting(l')[i].Delivery? ensures Waiting(l')[i].seqNo != number {
      if i < |Waiting(l)| {
        assert Waiting(l')[i] == Waiting(l)[i];
      } else {
        assert NewFrame(Waiting(l')[i], l.router.table.lastSeq, Some(l.device.cursor), fine);
      }
    }
  }

  lemma LostTaken(l: Link, number: nat)
    requires Lost(l, number) && ChannelsOk(l.router)
    ensures Lost(Effect(l, Take), number)
  {
    hide Backlog;
    var l', log := Effect(l, Take), Log(l.router.table.rows, l.device.mailbox);
    var j :| 0 <= j < |log| && log[j].seqNo == number;
    assert Log(l'.router.table.rows, l'.device.mailbox)[j].seqNo == number;
    assert Waiting(l') == Waiting(l);
    assert l.device.taken <= l'.device.taken;
  }

  /** With a lost row the device has not read a prefix. */
  lemma LostNoPrefix(l: Link, number: nat)
    requires Lost(l, number) && TableOk(l.router.table)
    ensures !ReadsPrefix(l)
  {
    hide Backlog, Recorded, TableOk;
    var log, k := Log(l.router.table.rows, l.device.mailbox), Index(l.device);
    LogAscends(l.router.table, l.device.mailbox);
    if ReadsPrefix(l) {
      var j :| 0 <= j < |log| && log[j].seqNo == number;
      assert k > 0 && log[k - 1].seqNo == l.device.cursor;
      assert j < k;
      assert Recorded(l.device.processed)[j] == Delivery(number, log[j].payload);
      RecordedIn(l.device.processed, Recorded(l.device.processed)[j]);
    }
  }

  lemma {:induction false} RecordedIn(msgs: seq<ServerMsg>, msg: ServerMsg)
    requires msg in Recorded(msgs)
    ensures msg in msgs
  {
    if msgs != [] && msg != msgs[|msgs| - 1] {
      RecordedIn(msgs[..|msgs| - 1], msg);
    }
  }

  /** The numbered deliveries processed are a prefix of the log, and the cursor is the number of the last. */
  ghost predicate ReadsPrefix(l: Link) {
    var log, k := Log(l.router.table.rows, l.device.mailbox), Index(l.device);
    && k <= |log| && Recorded(l.device.processed) == AsDeliveries(log[..k])
    && l.device.cursor == SeqAt(log, k) <= l.router.table.lastSeq
  }

  // ---------------------------------------------------------------- every step

  lemma ServerFollows(l: Link, e: Event)
    requires MapsOk(l.router) && OwnConnection(l) && EventMay(l, e)
    requires l.device.conn.Some? && l.device.conn.value in l.router.outboxes
    ensures var c, r' := l.device.conn.value, Handle(l.router, e);
            c in r'.outboxes
            && Follows(At(l.router, c), At(r', c), l.router.table.lastSeq,
                       if Authenticates(l, e) then Some(l.device.cursor) else None,
                       InsertsFine(l.router, e, l.device.mailbox))
  {
    hide Follows, ListsOk, Handle, At, InsertsFine;
    if e.Received? {
      ReceivedFollows(l, e);
    } else {
      OtherFollows(l, e);
      AlwaysFine(l, e);
    }
  }

  lemma AlwaysFine(l: Link, e: Event)
    requires !e.Received?
    ensures InsertsFine(l.router, e, l.device.mailbox)
  {
  }

  lemma OwnKept(l: Link, e: Event)
    requires MapsOk(l.router) && OwnConnection(l) && EventMay(l, e)
    ensures OwnConnection(Effect(l, Server(e)))
  {
    hide ListsOk, Handle, Follows;
    HandleKeeps(l.router, e);
    if l.device.conn.Some? {
      if l.device.conn.value in l.router.outboxes {
        ServerFollows(l, e);
        OwnAfter(l, e);
      } else {
        NoNewChannel(l, e);
      }
    }
  }

  lemma NoNewChannel(l: Link, e: Event)
    requires MapsOk(l.router) && EventMay(l, e) && l.device.conn.Some? && l.device.conn.value !in l.router.outboxes
    ensures l.device.conn.value !in Handle(l.router, e).outboxes
  {
    hide ListsOk, HandleReceived, HandleDisconnected, Broadcast;
    match e
    case Connected(_, _) =>
    case Received(x, command, up) => ReceivedKeys(l.router, x, command, up);
    case Disconnected(x, up) => DisconnectedTable(l.router, x, up);
    case PubSubDelivery(m, seqNo, payload) => BroadcastKeys(l.router, m, Delivery(seqNo, payload));
    case WriterEnded(_) =>
    case RegistryExpired(_) =>
  }

  lemma OwnAfter(l: Link, e: Event)
    requires MapsOk(l.router) && OwnConnection(l) && EventMay(l, e)
    requires l.device.conn.Some? && l.device.conn.value in l.router.outboxes
    ensures var c, r' := l.device.conn.value, Handle(l.router, e);
            c in r'.outboxes && (At(r', c).mailbox.Some? ==> At(r', c).mailbox == Some(l.device.mailbox))
  {
    hide ListsOk, HandleReceived;
    ServerFollows(l, e);
    if Authenticates(l, e) {
      var c := e.client;
      assert e.command == Authenticate(Some(l.device.mailbox), e.command.lastSeq);
      AuthenticateAt(l.router, c, l.device.mailbox, e.command.lastSeq, e.up, c);
      SendAllQueue(At(l.router, c).(mailbox := Some(l.device.mailbox)),
                   AsDeliveries(Backlog(l.router.table.rows, l.device.mailbox, e.command.lastSeq)));
    }
  }

  /** The connection of a device that was passed by does not authenticate again. */
  lemma GapListens(l: Link, e: Event)
    requires MapsOk(l.router) && l.device.conn.Some? && l.device.conn.value in l.router.outboxes
    requires At(l.router, l.device.conn.value).live ==> At(l.router, l.device.conn.value).mailbox.Some?
    ensures !Authenticates(l, e)
  {
    hide ListsOk;
  }

  /** A listening connection, or one out of the maps, stays one or the other. */
  lemma PortKept(l: Link, e: Event)
    requires MapsOk(l.router) && OwnConnection(l) && EventMay(l, e)
    requires l.device.conn.Some? && l.device.conn.value in l.router.outboxes
    requires At(l.router, l.device.conn.value).live ==> At(l.router, l.device.conn.value).mailbox.Some?
    ensures var c, r' := l.device.conn.value, Handle(l.router, e);
            c in r'.outboxes && (At(r', c).live ==> At(r', c).mailbox.Some?)
  {
    hide ListsOk, Handle;
    ServerFollows(l, e);
    GapListens(l, e);
  }

  lemma LostByServer(l: Link, e: Event, number: nat)
    requires MapsOk(l.router) && TableOk(l.router.table) && OwnConnection(l) && EventMay(l, e) && Lost(l, number)
    ensures Lost(Effect(l, Server(e)), number)
  {
    hide ListsOk, Handle, TableOk, Backlog, Lost, InsertsFine, At, EventMay, OwnConnection;
    var l', fine := Effect(l, Server(e)), InsertsFine(l.router, e, l.device.mailbox);
    EventGrows(l, e);
    WaitingAfter(l, e, fine);
    LostKept(l, l'.device, l'.router, number, fine);
  }

  lemma WaitingAfter(l: Link, e: Event, fine: bool)
    requires MapsOk(l.router) && OwnConnection(l) && EventMay(l, e)
          && fine == InsertsFine(l.router, e, l.device.mailbox)
    ensures var frames, frames' := Waiting(l), Waiting(Effect(l, Server(e)));
            && frames <= frames'
            && forall i :: |frames| <= i < |frames'| ==>
                 NewFrame(frames'[i], l.router.table.lastSeq, Some(l.device.cursor), fine)
  {
    hide ListsOk, Handle, InsertsFine, OwnConnection, EventMay;
    if l.device.conn.Some? {
      if l.device.conn.value in l.router.outboxes {
        ServerFollows(l, e);
      } else {
        NoNewChannel(l, e);
      }
    }
  }

  lemma GapByServer(l: Link, e: Event, mark: nat)
    requires MapsOk(l.router) && TableOk(l.router.table) && OwnConnection(l) && EventMay(l, e)
    requires l.device.conn.Some? && l.device.conn.value in l.router.outboxes
    requires At(l.router, l.device.conn.value).live ==> At(l.router, l.device.conn.value).mailbox.Some?
    requires ReadPrefix(l.device, Log(l.router.table.rows, l.device.mailbox))
    requires Gapped(l.device, Waiting(l), Log(l.router.table.rows, l.device.mailbox), mark)
    ensures var l' := Effect(l, Server(e));
            var log' := Log(l'.router.table.rows, l'.device.mailbox);
            ReadPrefix(l'.device, log') && Gapped(l'.device, Waiting(l'), log', mark)
  {
    hide ListsOk, Handle, TableOk, Backlog, ReadPrefix, Gapped, InsertsFine, EventMay, OwnConnection, Follows, Grown;
    var c, r', fine := l.device.conn.value, Handle(l.router, e), InsertsFine(l.router, e, l.device.mailbox);
    EventGrows(l, e);
    ServerFollows(l, e);
    GapListens(l, e);
    GapKept(l.device, At(l.router, c), At(r', c), l.router.table, r'.table, mark, fine);
    GrownPrefix(l.router.table, r'.table, l.device);
    PrefixUncleaned(l.device, Log(r'.table.rows, l.device.mailbox), l.device.clean && fine);
  }

  lemma PrefixUncleaned(d: Reader, log: seq<Row>, clean: bool)
    requires ReadPrefix(d, log) && (clean ==> d.clean)
    ensures ReadPrefix(d.(clean := clean), log)
  {
  }

  lemma ServerKeeps(w: Watched, e: Event)
    requires WatchOk(w) && EventMay(w.link, e)
    ensures WatchOk(Observe(w, Server(e)))
  {
    hide ListsOk, Handle, Feeds, ReadPrefix, TableOk, Backlog, Follows, Gapped, Lost, InsertsFine, Misses, EventMay,
         Grown;
    var l := w.link;
    HandleKeeps(l.router, e);
    OwnKept(l, e);
    EventGrows(l, e);
    GrownTable(l, e);
    MissListens(l, e);
    if w.mark.Some? || Misses(l, e) {
      ListeningIf(l);
      PortKept(l, e);
    }
    if w.crossed {
      var number: nat :| Lost(l, number);
      LostByServer(l, e, number);
    } else if w.mark.Some? {
      GapByServer(l, e, w.mark.value);
    } else if Misses(l, e) {
      MissGaps(l, e);
    } else {
      TouchKeeps(l, Server(e));
    }
  }

  lemma GrownTable(l: Link, e: Event)
    requires ChannelsOk(l.router) && Grown(l.router.table, Handle(l.router, e).table, l.device.mailbox)
    ensures TableOk(Effect(l, Server(e)).router.table)
  {
    hide TableOk, Backlog, Handle;
  }

  lemma MissListens(l: Link, e: Event)
    ensures Misses(l, e) ==> Listening(l)
  {
  }

  lemma ListeningIf(l: Link)
    requires MapsOk(l.router)
    ensures Listening(l) ==> l.device.conn.value in l.router.outboxes && At(l.router, l.device.conn.value).mailbox.Some?
  {
  }

  lemma TakeKeepsWatch(w: Watched)
    requires WatchOk(w)
    ensures WatchOk(Observe(w, Take))
  {
    hide ListsOk, Feeds, ReadPrefix, TableOk, Backlog, Gapped, Lost;
    var l, q := w.link, Waiting(w.link);
    var t := l.router.table;
    if w.crossed {
      var number: nat :| Lost(l, number);
      LostTaken(l, number);
    } else if w.mark.None? {
      TakeKeeps(l);
    } else if l.device.taken < |q| {
      if Crosses(w) {
        TakeCrosses(l.device, q, t, w.mark.value);
        CrossedIsLost(l, q, Log(t.rows, l.device.mailbox)[Index(l.device)].seqNo);
      } else {
        TakeInGap(l.device, q, t, w.mark.value);
      }
    }
  }

  lemma CrossedIsLost(l: Link, q: seq<ServerMsg>, number: nat)
    requires ChannelsOk(l.router) && q == Waiting(l) && l.device.taken < |q|
    requires Index(l.device) < |Log(l.router.table.rows, l.device.mailbox)|
    requires number == Log(l.router.table.rows, l.device.mailbox)[Index(l.device)].seqNo
    requires var d' := TakeFrame(l.device, q[l.device.taken]);
             && 0 < number < d'.cursor
             && (forall i :: 0 <= i < |d'.processed| && d'.processed[i].Delivery? ==> d'.processed[i].seqNo != number)
             && (forall i :: d'.taken <= i < |q| && q[i].Delivery? ==> q[i].seqNo != number)
    ensures Lost(Effect(l, Take), number)
  {
    hide Backlog, Recorded;
    var l' := Effect(l, Take);
    assert l'.device == TakeFrame(l.device, q[l.device.taken]) && Waiting(l') == q;
    assert Log(l'.router.table.rows, l'.device.mailbox)[Index(l.device)].seqNo == number;
  }

  lemma OpenKeepsWatch(w: Watched, c: nat, closed: bool)
    requires WatchOk(w) && May(w.link, Open(c, closed))
    ensures WatchOk(Observe(w, Open(c, closed)))
  {
    hide ListsOk, Feeds, ReadPrefix, TableOk, Backlog, Gapped, Lost;
    var l := w.link;
    ConnectedKeeps(l.router, c, closed);
    if w.crossed {
      var number: nat :| Lost(l, number);
      LostOpened(l, c, closed, number);
    } else {
      assert w.mark.None?;
      OpenKeeps(l, c, closed);
    }
    assert c !in l.router.connectionToMailbox;
  }

  lemma LostOpened(l: Link, c: nat, closed: bool, number: nat)
    requires Lost(l, number) && MapsOk(l.router) && May(l, Open(c, closed))
    ensures Lost(Effect(l, Open(c, closed)), number)
  {
    hide Backlog, ListsOk;
    var l', log := Effect(l, Open(c, closed)), Log(l.router.table.rows, l.device.mailbox);
    var j :| 0 <= j < |log| && log[j].seqNo == number;
    assert Log(l'.router.table.rows, l'.device.mailbox)[j].seqNo == number;
    assert Waiting(l') == [Say(Welcome)] || Waiting(l') == [];
  }

  lemma DropKeepsWatch(w: Watched)
    requires WatchOk(w)
    ensures WatchOk(Observe(w, Drop))
  {
    hide ListsOk, Feeds, TableOk, Backlog, Gapped, Recorded;
    var l := w.link;
    var l' := Effect(l, Drop);
    assert Waiting(l') == [];
    if w.crossed {
      var number: nat :| Lost(l, number);
      assert Lost(l', number);
    }
  }

  lemma ObserveKeeps(w: Watched, s: Step)
    requires WatchOk(w)
    ensures WatchOk(Observe(w, s)) && Observe(w, s).link.device.mailbox == w.link.device.mailbox
  {
    hide WatchOk, EventMay;
    if May(w.link, s) {
      match s
      case Server(e) => ServerKeeps(w, e);
      case Open(c, closed) => OpenKeepsWatch(w, c, closed);
      case Take => TakeKeepsWatch(w);
      case Drop => DropKeepsWatch(w);
    }
  }

  ghost function Watch(w: Watched, steps: seq<Step>): (w': Watched)
    requires WatchOk(w)
    ensures WatchOk(w')
  {
    if steps == [] then w else
    var before := Watch(w, steps[..|steps| - 1]);
    ObserveKeeps(before, steps[|steps| - 1]);
    Observe(before, steps[|steps| - 1])
  }

  function StartWatch(serverId: nat, registry: map<nat, map<nat, nat>>, table: Table, mailbox: nat): Watched {
    Watched(StartLink(serverId, registry, table, mailbox), None, false)
  }

  /**
   Over every run, whatever happens to the registry and to Redis: the numbered deliveries the device
   has processed are a prefix of its log if and only if it never took a numbered delivery that was
   queued, on the same connection, after a frame had passed it by.
   */
  lemma PrefixUntilCrossed(serverId: nat, registry: map<nat, map<nat, nat>>, table: Table, mailbox: nat,
                           steps: seq<Step>)
    requires TableOk(table)
    ensures WatchOk(StartWatch(serverId, registry, table, mailbox))
    ensures var w := Watch(StartWatch(serverId, registry, table, mailbox), steps);
            ReadsPrefix(w.link) <==> !w.crossed
  {
    hide Backlog, Recorded, Gapped, Feeds, ListsOk, Lost;
    StartLinkOk(serverId, registry, table, mailbox);
    var w := Watch(StartWatch(serverId, registry, table, mailbox), steps);
    LogAscends(w.link.router.table, w.link.device.mailbox);
    if w.crossed {
      var number: nat :| Lost(w.link, number);
      LostNoPrefix(w.link, number);
    }
  }
}
