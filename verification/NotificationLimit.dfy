/** The separate notification queue, told from the stream alone: which streams it holds, and what
    becomes of a turn whose stream it does not hold when nothing is taken off it. */
module NotificationLimit {
  import opened Wrappers
  import opened Utf8
  import opened Json
  import opened AppServerProtocol
  import opened ByteBoundedQueue
  import opened OrderedAcquisition
  import opened AcquisitionRuns
  import opened Reasons
  import ProviderAdmission
  import AdmissionLog
  import CleanHistory
  import EndToEndCustody

  // ---- The notifications of a stream ----

  function LinesOf(stream: bytes): seq<bytes> {
    if stream == [] then [] else [FirstLine(stream)] + LinesOf(stream[|FirstLine(stream)|..])
  }

  /** The notification a line holds: an object with a method and without an id. */
  function Notice(setup: Setup, line: bytes): Option<ServerMessage> {
    match setup.parse(line)
    case Decoded(Obj(fields)) =>
      if "method" in fields && "id" !in fields then Some(ServerMessage(fields, Some(line))) else None
    case _ => None
  }

  function NoticeOf(setup: Setup, line: bytes): seq<ServerMessage> {
    if Notice(setup, line).Some? then [Notice(setup, line).value] else []
  }

  function Notices(setup: Setup, lines: seq<bytes>): seq<ServerMessage> {
    if lines == [] then [] else Notices(setup, lines[..|lines| - 1]) + NoticeOf(setup, lines[|lines| - 1])
  }

  /** The queue has places and bytes for all of these. */
  predicate Holds(setup: Setup, messages: seq<ServerMessage>) {
    && (setup.messageBound.items > 0 ==> |messages| <= setup.messageBound.items)
    && TotalBytes(MessageSize(setup), messages) <= setup.messageBound.bytes
  }

  /** The queue has places and bytes for every notification of the stream at once. */
  predicate StreamFits(setup: Setup, stream: bytes) {
    Holds(setup, Notices(setup, LinesOf(stream)))
  }

  lemma {:induction false} NoticesConcat(setup: Setup, a: seq<bytes>, b: seq<bytes>)
    ensures Notices(setup, a + b) == Notices(setup, a) + Notices(setup, b)
  {
    hide NoticeOf, Notice;
    if b == [] {
      assert a + b == a;
    } else {
      var init, last := b[..|b| - 1], b[|b| - 1];
      NoticesConcat(setup, a, init);
      assert (a + b)[..|a + b| - 1] == a + init && (a + b)[|a + b| - 1] == last;
      Rejoin(Notices(setup, a), Notices(setup, init), NoticeOf(setup, last));
    }
  }

  lemma Rejoin<T>(a: seq<T>, b: seq<T>, c: seq<T>)
    ensures (a + b) + c == a + (b + c)
  {
  }

  lemma NoticesOne(setup: Setup, line: bytes)
    ensures Notices(setup, [line]) == NoticeOf(setup, line)
  {
    assert Notices(setup, [line][..0]) == [];
  }

  lemma {:induction false} TotalConcat(setup: Setup, a: seq<ServerMessage>, b: seq<ServerMessage>)
    ensures TotalBytes(MessageSize(setup), a + b) == TotalBytes(MessageSize(setup), a) + TotalBytes(MessageSize(setup), b)
    ensures TotalBytes(MessageSize(setup), b) >= 0
  {
    if b == [] {
      assert a + b == a;
    } else {
      TotalConcat(setup, a, b[..|b| - 1]);
      assert (a + b)[..|a + b| - 1] == a + b[..|b| - 1];
    }
  }

  /** What the queue holds of a whole it holds of a part. */
  lemma PartHolds(setup: Setup, a: seq<ServerMessage>, b: seq<ServerMessage>)
    requires Holds(setup, a + b)
    ensures Holds(setup, a)
  {
    TotalConcat(setup, a, b);
  }

  // ---- Offering one ----

  /** Offering a notification is a loss exactly when its own queue has no place or too few bytes
      left for it, or the ordered queue refuses its envelope. */
  lemma OfferIsLossExactly(setup: Setup, c: Channels, message: ServerMessage)
    ensures var c' := OfferMessage(setup, c, message, false);
      var e := AcquisitionEnvelope(c.ordinal, NOTIFICATION, Some(message), None, None, None);
      && (c'.lossGeneration > c.lossGeneration <==>
            || (setup.messageBound.items > 0 && |c.notifications| >= setup.messageBound.items)
            || TotalBytes(MessageSize(setup), c.notifications) + MessageBytes(setup, message) > setup.messageBound.bytes
            || !OrderedFits(setup, c, e))
      && c'.lossGeneration <= c.lossGeneration + 1
  {
    assert MessageSize(setup)(message) == MessageBytes(setup, message);
  }

  /** It fits exactly when the queue holds it together with what is there. */
  lemma FitsIsHolds(setup: Setup, queue: seq<ServerMessage>, message: ServerMessage)
    requires Holds(setup, queue)
    ensures MessageFits(setup, queue, message) <==> Holds(setup, queue + [message])
  {
    assert (queue + [message])[..|queue|] == queue;
    assert MessageSize(setup)(message) == MessageBytes(setup, message);
  }

  // ---- Runs ----

  /** A frame offers the notification of its line, and no other frame has one to offer. */
  predicate Told(setup: Setup, held: Held) {
    match held.frame
    case Offer(message, serverRequest) =>
      Notice(setup, held.line) == if serverRequest then None else Some(message)
    case Respond(_, _, _) => Notice(setup, held.line).None?
    case _ => true
  }

  lemma ClassifyTells(setup: Setup, selection: Selection, routing: Routing, line: bytes)
    ensures Told(setup, Held(line, Classify(setup, selection, routing, line)))
  {
    hide SelectsFrame;
  }

  /** The lines that were fetched and delivered, in order. */
  function Delivered(m: Machine): seq<bytes> {
    if m.client.reader.held.Some? && m.lines != [] then m.lines[..|m.lines| - 1] else m.lines
  }

  /** What every run keeps: the lines are the stream's, the frame at hand tells its own line, the
      queue holds at most the notifications delivered, and exactly those as long as nothing was
      lost or taken. */
  ghost predicate Reading(setup: Setup, stream: bytes, m: Machine) {
    var delivered, queue := Notices(setup, Delivered(m)), m.client.channels.notifications;
    && LinesOf(stream) == m.lines + LinesOf(m.client.reader.stdout)
    && (m.client.reader.held.Some? ==>
          && m.lines != [] && m.lines[|m.lines| - 1] == m.client.reader.held.value.line
          && Told(setup, m.client.reader.held.value))
    && Holds(setup, queue)
    && |queue| <= |delivered| && TotalBytes(MessageSize(setup), queue) <= TotalBytes(MessageSize(setup), delivered)
    && (m.client.channels.lossGeneration == 0 && m.taken == 0 ==> queue == delivered)
  }

  /** A step that leaves lines, frame and queue alone keeps what was read. */
  lemma QuietStep(setup: Setup, stream: bytes, m: Machine, m': Machine)
    requires Reading(setup, stream, m)
    requires m'.lines == m.lines && m'.taken == m.taken
    requires m'.client.reader.(disposition := m.client.reader.disposition) == m.client.reader
    requires m'.client.channels.notifications == m.client.channels.notifications
    requires m'.client.channels.lossGeneration >= m.client.channels.lossGeneration
    ensures Reading(setup, stream, m')
  {
    hide Told, Holds, LinesOf, Notices;
    assert Delivered(m') == Delivered(m);
  }

  lemma FetchKeepsReading(setup: Setup, stream: bytes, m: Machine)
    requires Reading(setup, stream, m)
    ensures Reading(setup, stream, Next(setup, m, ReaderFetch))
  {
    hide Classify, Told, Holds, LearnTurn, Notices;
    var reader, m' := m.client.reader, Next(setup, m, ReaderFetch);
    if reader.disposition.READING? && reader.held.None? && reader.stdout != [] {
      var line := FirstLine(reader.stdout);
      ClassifyTells(setup, m.client.selection, m.client.routing, line);
      assert m'.lines == m.lines + [line] && Delivered(m') == m.lines;
      Rejoin(m.lines, [line], LinesOf(m'.client.reader.stdout));
    } else {
      QuietStep(setup, stream, m, m');
    }
  }

  /** A held line that is delivered joins the delivered ones. */
  lemma DeliveredGrows(setup: Setup, m: Machine, m': Machine)
    requires m.client.reader.held.Some? && m.lines != [] && m'.lines == m.lines && m'.client.reader.held.None?
    ensures Notices(setup, Delivered(m')) == Notices(setup, Delivered(m)) + NoticeOf(setup, m.lines[|m.lines| - 1])
  {
  }

  /** Queue and delivered notifications after a delivery that put these on the queue. */
  lemma QueueFollows(
    setup: Setup, delivered: seq<ServerMessage>, notice: seq<ServerMessage>, queue: seq<ServerMessage>,
    put: seq<ServerMessage>)
    requires Holds(setup, queue) && Holds(setup, queue + put) && (put == [] || put == notice)
    requires |queue| <= |delivered| && TotalBytes(MessageSize(setup), queue) <= TotalBytes(MessageSize(setup), delivered)
    ensures |queue + put| <= |delivered + notice|
    ensures TotalBytes(MessageSize(setup), queue + put) <= TotalBytes(MessageSize(setup), delivered + notice)
  {
    TotalConcat(setup, queue, put);
    TotalConcat(setup, delivered, notice);
  }

  /** What a delivery puts on the queue. */
  lemma DeliverPuts(setup: Setup, s: Client) returns (put: seq<ServerMessage>)
    requires s.reader.held.Some? && Told(setup, s.reader.held.value) && Holds(setup, s.channels.notifications)
    ensures var s' := Deliver(setup, s);
      var notice := NoticeOf(setup, s.reader.held.value.line);
      && s'.channels.notifications == s.channels.notifications + put && Holds(setup, s.channels.notifications + put)
      && (put == [] || put == notice) && s'.channels.lossGeneration >= s.channels.lossGeneration
      && (s'.reader.held.Some? ==> put == [] && s'.reader.held.value.line == s.reader.held.value.line
                                   && Told(setup, s'.reader.held.value))
      && (s'.reader.held.None? && s'.channels.lossGeneration == s.channels.lossGeneration ==> put == notice)
  {
    hide Holds, NextOrdered, OfferMessage;
    put := [];
    var c := s.channels;
    assert c.notifications + [] == c.notifications;
    match s.reader.held.value.frame
    case Lost(reason, raw) =>
      LossKeepsNotifications(setup, c, reason, raw);
      LossIsCounted(setup, c, reason, raw);
    case Offer(message, serverRequest) =>
      OfferPuts(setup, c, message, serverRequest);
      if !serverRequest && MessageFits(setup, c.notifications, message) {
        put := [message];
        FitsIsHolds(setup, c.notifications, message);
      }
    case Respond(id, name, response) =>
      ResponseKeepsNotifications(setup, c, s.routing.mailboxes, id, name, response);
      ResponseIsCounted(setup, c, s.routing.mailboxes, id, name, response);
    case Break(_) =>
  }

  lemma LossIsCounted(setup: Setup, c: Channels, reason: Reason, raw: Option<bytes>)
    ensures RecordLoss(setup, c, reason, raw).lossGeneration == c.lossGeneration + 1
  {
  }

  lemma ResponseIsCounted(
    setup: Setup, c: Channels, mailboxes: map<int, Option<Object>>, id: int, name: string, response: ServerMessage)
    ensures DeliverResponse(setup, c, mailboxes, id, name, response).0.lossGeneration >= c.lossGeneration
  {
  }

  lemma OfferPuts(setup: Setup, c: Channels, message: ServerMessage, serverRequest: bool)
    ensures var c' := OfferMessage(setup, c, message, serverRequest);
      && c'.lossGeneration >= c.lossGeneration
      && c'.notifications ==
           (if !serverRequest && MessageFits(setup, c.notifications, message)
            then c.notifications + [message] else c.notifications)
      && (!serverRequest && !MessageFits(setup, c.notifications, message) ==> c'.lossGeneration > c.lossGeneration)
  {
  }

  lemma DeliverKeepsReading(setup: Setup, stream: bytes, m: Machine)
    requires Reading(setup, stream, m)
    ensures Reading(setup, stream, Next(setup, m, ReaderDeliver))
  {
    hide Deliver, Told, Holds, NoticeOf, Notices;
    var m' := Next(setup, m, ReaderDeliver);
    DeliverKeepsStream(setup, m.client);
    if m.client.reader.held.Some? {
      var put := DeliverPuts(setup, m.client);
      if m'.client.reader.held.None? {
        DeliveredGrows(setup, m, m');
        QueueFollows(setup, Notices(setup, Delivered(m)), NoticeOf(setup, m.client.reader.held.value.line),
                     m.client.channels.notifications, put);
      } else {
        assert Delivered(m') == Delivered(m);
        assert m'.client.channels.notifications == m.client.channels.notifications;
      }
    }
  }

  lemma DeliverKeepsStream(setup: Setup, s: Client)
    ensures Deliver(setup, s).reader.stdout == s.reader.stdout
    ensures s.reader.held.None? ==> Deliver(setup, s) == s
  {
  }

  /** A notification taken gives its place and its bytes back. */
  lemma TakenStep(setup: Setup, stream: bytes, m: Machine)
    requires Reading(setup, stream, m) && m.client.channels.notifications != []
    ensures Reading(setup, stream, Next(setup, m, TakeNotification))
  {
    hide Told, LinesOf, Notices;
    var queue, m' := m.client.channels.notifications, Next(setup, m, TakeNotification);
    assert Delivered(m') == Delivered(m);
    assert queue == [queue[0]] + queue[1..];
    TotalConcat(setup, [queue[0]], queue[1..]);
    TotalConcat(setup, [], [queue[0]]);
  }

  lemma OtherKeepsReading(setup: Setup, stream: bytes, m: Machine, a: Action)
    requires Reading(setup, stream, m) && !a.ReaderFetch? && !a.ReaderDeliver?
    ensures Reading(setup, stream, Next(setup, m, a))
  {
    hide RecordLoss, EnqueueRequest, Reading, Steps, Grows;
    var c := m.client.channels;
    if a.TakeNotification? && c.notifications != [] {
      TakenStep(setup, stream, m);
    } else {
      match a {
        case ReaderRaise(error) =>
          LossKeepsNotifications(setup, c, error, None);
          LossIsCounted(setup, c, error, None);
        case SideLoss(reason, raw) =>
          LossKeepsNotifications(setup, c, reason, raw);
          LossIsCounted(setup, c, reason, raw);
        case WriterEnqueue(message, name) => EnqueueIsCounted(setup, c, message, name);
        case _ =>
      }
      QuietStep(setup, stream, m, Next(setup, m, a));
    }
  }

  lemma EnqueueIsCounted(setup: Setup, c: Channels, message: Object, name: string)
    ensures EnqueueRequest(setup, c, message, name).1.notifications == c.notifications
    ensures EnqueueRequest(setup, c, message, name).1.lossGeneration >= c.lossGeneration
  {
    var put := EnqueueGrows(setup, c, message, name);
  }

  lemma {:induction false} RunKeepsReading(setup: Setup, stream: bytes, actions: seq<Action>)
    ensures Reading(setup, stream, Execute(setup, stream, actions))
  {
    hide Next, Reading;
    if actions == [] {
      ReadingStarts(setup, stream);
    } else {
      var init, a := actions[..|actions| - 1], actions[|actions| - 1];
      RunKeepsReading(setup, stream, init);
      if a.ReaderFetch? {
        FetchKeepsReading(setup, stream, Execute(setup, stream, init));
      } else if a.ReaderDeliver? {
        DeliverKeepsReading(setup, stream, Execute(setup, stream, init));
      } else {
        OtherKeepsReading(setup, stream, Execute(setup, stream, init), a);
      }
    }
  }

  lemma ReadingStarts(setup: Setup, stream: bytes)
    ensures Reading(setup, stream, Execute(setup, stream, []))
  {
    assert [] + LinesOf(stream) == LinesOf(stream);
  }

  // ---- Which streams the queue holds ----

  /** Where the queue holds all of the stream's notifications, no interleaving makes it refuse
      one, whether or not anything is ever taken off it. */
  lemma FittingStreamIsNeverRefused(setup: Setup, stream: bytes, actions: seq<Action>)
    requires StreamFits(setup, stream)
    ensures var s := Execute(setup, stream, actions).client;
      s.reader.held.Some? && s.reader.held.value.frame.Offer? && !s.reader.held.value.frame.serverRequest ==>
        MessageFits(setup, s.channels.notifications, s.reader.held.value.frame.message)
  {
    hide Execute, Told, LinesOf;
    var m := Execute(setup, stream, actions);
    RunKeepsReading(setup, stream, actions);
    var reader, queue := m.client.reader, m.client.channels.notifications;
    if reader.held.Some? && reader.held.value.frame.Offer? && !reader.held.value.frame.serverRequest {
      var message := reader.held.value.frame.message;
      OfferTells(setup, reader.held.value);
      NoticesConcat(setup, m.lines, LinesOf(reader.stdout));
      PartHolds(setup, Notices(setup, m.lines), Notices(setup, LinesOf(reader.stdout)));
      assert Notices(setup, m.lines) == Notices(setup, Delivered(m)) + [message];
      TotalConcat(setup, Notices(setup, Delivered(m)), [message]);
      TotalConcat(setup, queue, [message]);
      FitsIsHolds(setup, queue, message);
    }
  }

  lemma OfferTells(setup: Setup, held: Held)
    requires Told(setup, held) && held.frame.Offer? && !held.frame.serverRequest
    ensures NoticeOf(setup, held.line) == [held.frame.message]
  {
  }

  /** Where it does not hold all of them and nothing is taken off it, some notification has been
      lost by the time the reader has seen the end of the stream. */
  lemma OverfullStreamIsLost(setup: Setup, stream: bytes, actions: seq<Action>)
    requires !StreamFits(setup, stream)
    requires var m := Execute(setup, stream, actions); m.taken == 0 && m.client.reader.disposition.CLEAN_EOF?
    ensures Execute(setup, stream, actions).client.channels.lossGeneration > 0
  {
    hide Execute, Holds, Told, Notices;
    var m := Execute(setup, stream, actions);
    RunKeepsReading(setup, stream, actions);
    RunKeepsCustody(setup, stream, actions);
    assert m.lines + [] == m.lines;
  }

  /** So a turn whose notifications exceed their queue, in number or in bytes, never closes
      cleanly unless something takes them off it: whatever the interleaving, whatever the
      mapper is fed of it, and wherever the cut falls. */
  lemma OverfullTurnIsUnclean(
    setup: Setup, stream: bytes, before: seq<Action>, after: seq<Action>,
    cfg: ProviderAdmission.Config, ops: seq<ProviderAdmission.Op>, cut: AcquisitionCut)
    requires !StreamFits(setup, stream) && Execute(setup, stream, before).taken == 0
    requires CutOf(Execute(setup, stream, before), cut)
    requires EndToEndCustody.FedFrom(ops, Execute(setup, stream, before + after), cut)
    ensures !CleanHistory.CleanlyCut(AdmissionLog.Run(cfg, ops))
  {
    hide Execute;
    if CleanHistory.CleanlyCut(AdmissionLog.Run(cfg, ops)) {
      CleanHistory.RunKeepsCut(cfg, ops);
      EndToEndCustody.RetainedCutFacts(cfg, ops, cut);
      OverfullStreamIsLost(setup, stream, before);
      assert false;
    }
  }

  // ---- A stream that is too long ----

  /** The same line over and over. */
  function Copies(line: bytes, n: nat): bytes {
    if n == 0 then [] else line + Copies(line, n - 1)
  }

  lemma NothingIsNoLine(setup: Setup)
    ensures LinesOf([]) == [] && Notices(setup, []) == []
  {
  }

  lemma LineComesFirst(line: bytes, rest: bytes)
    requires IsLine(line)
    ensures LinesOf(line + rest) == [line] + LinesOf(rest)
  {
    var stream := line + rest;
    assert forall i | 0 <= i < |line| - 1 :: stream[i] == line[..|line| - 1][i];
    assert stream[|line| - 1] == NEWLINE;
    LineLengthIs(stream, |line|);
    assert FirstLine(stream) == line && stream[|line|..] == rest;
  }

  lemma {:induction false} CopiesAreNotices(setup: Setup, line: bytes, n: nat)
    requires IsLine(line) && Notice(setup, line).Some?
    ensures |Notices(setup, LinesOf(Copies(line, n)))| == n
  {
    hide IsLine, LinesOf, Notices, Notice;
    if n == 0 {
      NothingIsNoLine(setup);
    } else {
      var rest := Copies(line, n - 1);
      LineComesFirst(line, rest);
      CopiesAreNotices(setup, line, n - 1);
      NoticesConcat(setup, [line], LinesOf(rest));
      NoticesOne(setup, line);
    }
  }

  /** One notification line, written once more often than the queue has places, is a stream that
      never closes cleanly: 257 lines under the default bound. */
  lemma OneTooManyIsUnclean(
    setup: Setup, line: bytes, before: seq<Action>, after: seq<Action>,
    cfg: ProviderAdmission.Config, ops: seq<ProviderAdmission.Op>, cut: AcquisitionCut)
    requires IsLine(line) && Notice(setup, line).Some? && setup.messageBound.items > 0
    requires var stream := Copies(line, setup.messageBound.items + 1);
      && Execute(setup, stream, before).taken == 0
      && CutOf(Execute(setup, stream, before), cut)
      && EndToEndCustody.FedFrom(ops, Execute(setup, stream, before + after), cut)
    ensures !CleanHistory.CleanlyCut(AdmissionLog.Run(cfg, ops))
  {
    CopiesAreNotices(setup, line, setup.messageBound.items + 1);
    OverfullTurnIsUnclean(setup, Copies(line, setup.messageBound.items + 1), before, after, cfg, ops, cut);
  }
}
