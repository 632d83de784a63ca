/**
 The delivery handler behind the server: what a client makes of the frames that one device of a server
 run processes. Module MailboxRuns follows the cursor of a reader; here it is the handler's own.
 */
module ClientRuns {
  import opened Wrappers
  import opened Router
  import opened Mailbox
  import opened MailboxRuns
  import opened Messaging
  import ChatClient
  import ClientHandlers

  /** One frame off the socket: deliveries go to the handler with the key its decryption may draw. */
  function HandleFrame(c: ChatClient.ChatState, msg: ServerMsg, parse: string -> Envelope, newPriv: nat)
    : ChatClient.ChatState
  {
    if msg.Delivery? then ChatClient.OnDelivery(c, msg.seqNo, parse(msg.payload), newPriv) else c
  }

  function HandleFrames(c: ChatClient.ChatState, frames: seq<ServerMsg>, parse: string -> Envelope, draws: seq<nat>)
    : ChatClient.ChatState
    requires |frames| <= |draws|
  {
    if frames == [] then c
    else HandleFrame(HandleFrames(c, frames[..|frames| - 1], parse, draws), frames[|frames| - 1], parse,
                     draws[|frames| - 1])
  }

  /** The cursor of the reader is the handler's: after any frame, from the same cursor, they agree again. */
  lemma CursorIsTheHandlers(c: ChatClient.ChatState, d: Reader, msg: ServerMsg, parse: string -> Envelope, newPriv: nat)
    requires d.cursor == c.lastSeq
    ensures HandleFrame(c, msg, parse, newPriv).lastSeq == TakeFrame(d, msg).cursor
  {
    hide ChatClient.OnDelivery;
    if msg.Delivery? {
      ClientHandlers.CursorIsLarger(c, msg.seqNo, parse(msg.payload), newPriv);
    }
  }

  /** The client has handled what the reader has processed, and stands at its cursor. */
  ghost predicate AtCursor(c: ChatClient.ChatState, d: Reader, parse: string -> Envelope, draws: seq<nat>) {
    |d.processed| <= |draws| ==> HandleFrames(c, d.processed, parse, draws).lastSeq == d.cursor
  }

  lemma EffectAtCursor(c: ChatClient.ChatState, l: Link, s: Step, parse: string -> Envelope, draws: seq<nat>)
    requires ChannelsOk(l.router) && AtCursor(c, l.device, parse, draws)
    ensures AtCursor(c, Effect(l, s).device, parse, draws)
  {
    hide HandleFrame, Handle;
    var d := Effect(l, s).device;
    if d.processed != l.device.processed && |d.processed| <= |draws| {
      var msg := l.router.outboxes[l.device.conn.value].queue[l.device.taken];
      assert d.processed[..|d.processed| - 1] == l.device.processed;
      CursorIsTheHandlers(HandleFrames(c, l.device.processed, parse, draws), l.device, msg, parse,
                          draws[|d.processed| - 1]);
    }
  }

  lemma {:induction false} RunAtCursor(c: ChatClient.ChatState, l: Link, steps: seq<Step>, parse: string -> Envelope,
                                       draws: seq<nat>)
    requires LinkOk(l) && AtCursor(c, l.device, parse, draws)
    ensures AtCursor(c, RunLink(l, steps).device, parse, draws)
  {
    hide LinkOk, AtCursor, Effect, Allowed;
    if steps != [] {
      var front := steps[..|steps| - 1];
      RunAtCursor(c, l, front, parse, draws);
      NextAtCursor(c, RunLink(l, front), steps[|front|], parse, draws);
    }
  }

  lemma NextAtCursor(c: ChatClient.ChatState, l: Link, s: Step, parse: string -> Envelope, draws: seq<nat>)
    requires LinkOk(l) && AtCursor(c, l.device, parse, draws)
    ensures AtCursor(c, Next(l, s).device, parse, draws)
  {
    hide Effect, Allowed, AtCursor;
    EffectAtCursor(c, l, s, parse, draws);
  }

  // ---------------------------------------------------------------- as if the log were handed over row by row

  /** The frames of a log handled in order, numbered 1, 2, .. as module Mesh numbers a mailbox. */
  function HandleLog(c: ChatClient.ChatState, log: seq<Row>, parse: string -> Envelope, draws: seq<nat>)
    : ChatClient.ChatState
    requires |log| <= |draws|
  {
    if log == [] then c else
    var before := HandleLog(c, log[..|log| - 1], parse, draws);
    ChatClient.OnDelivery(before, before.lastSeq + 1, parse(log[|log| - 1].payload), draws[|log| - 1])
  }

  lemma {:induction false} SameButTheCursor(c: ChatClient.ChatState, log: seq<Row>, parse: string -> Envelope,
                                            draws: seq<nat>)
    requires |log| <= |draws|
    ensures HandleFrames(c, AsDeliveries(log), parse, draws).(lastSeq := 0)
         == HandleLog(c, log, parse, draws).(lastSeq := 0)
    ensures HandleLog(c, log, parse, draws).lastSeq == c.lastSeq + |log|
  {
    hide ChatClient.OnDelivery;
    if log != [] {
      var front, last, newPriv := log[..|log| - 1], log[|log| - 1], draws[|log| - 1];
      SameButTheCursor(c, front, parse, draws);
      assert AsDeliveries(log)[..|log| - 1] == AsDeliveries(front);
      var framed, plain := HandleFrames(c, AsDeliveries(front), parse, draws), HandleLog(c, front, parse, draws);
      ClientHandlers.NumbersSteerTheCursorOnly(plain, framed.lastSeq, plain.lastSeq + 1, last.seqNo,
                                               parse(last.payload), newPriv);
      ClientHandlers.CursorIsLarger(plain, plain.lastSeq + 1, parse(last.payload), newPriv);
    }
  }

  /**
   In every run of MailboxRuns a client that handles what its device processes has the reader's cursor,
   and, if no insert failed, is in the state, the cursor's numbering aside, that handling the first so
   many rows of its log in order leads to. That is how module Mesh delivers.
   */
  lemma ClientFollowsLog(c: ChatClient.ChatState, serverId: nat, registry: map<nat, map<nat, nat>>, table: Table,
                         mailbox: nat, steps: seq<Step>, parse: string -> Envelope, draws: seq<nat>)
    requires TableOk(table) && c.lastSeq == 0
    ensures LinkOk(StartLink(serverId, registry, table, mailbox))
    ensures var l := RunLink(StartLink(serverId, registry, table, mailbox), steps);
            var log, k := Log(l.router.table.rows, mailbox), Index(l.device);
            |l.device.processed| <= |draws| ==>
              var d := HandleFrames(c, l.device.processed, parse, draws);
              && d.lastSeq == l.device.cursor
              && (l.device.clean ==>
                    k <= |log| && k <= |draws|
                    && d.(lastSeq := 0) == HandleLog(c, log[..k], parse, draws).(lastSeq := 0))
  {
    hide Backlog, Recorded, HandleFrames, HandleLog, RunLink;
    var start := StartLink(serverId, registry, table, mailbox);
    ReadsLogPrefix(serverId, registry, table, mailbox, steps);
    var l := RunLink(start, steps);
    var log, k := Log(l.router.table.rows, mailbox), Index(l.device);
    StartAtCursor(c, start, parse, draws);
    RunAtCursor(c, start, steps, parse, draws);
    if l.device.clean && |l.device.processed| <= |draws| {
      SameButTheCursor(c, log[..k], parse, draws);
    }
  }

  lemma StartAtCursor(c: ChatClient.ChatState, l: Link, parse: string -> Envelope, draws: seq<nat>)
    requires l.device.processed == [] && l.device.cursor == c.lastSeq
    ensures AtCursor(c, l.device, parse, draws)
  {
  }
}
