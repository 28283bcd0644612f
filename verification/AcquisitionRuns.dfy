/** Every interleaving of the reader's, the writers' and the consumers' lock sections, and what
    acquisition keeps over all of them. */
module AcquisitionRuns {
  import opened Wrappers
  import opened Utf8
  import opened Json
  import opened Reasons
  import opened AppServerProtocol
  import opened OrderedAcquisition

  /** One atomic step of one of the threads. */
  datatype Action =
    | ReaderFetch
    | ReaderDeliver
    | ReaderRaise(error: Reason)
    | WriterExpect(id: int, name: string)
    | WriterSelect(selection: Selection)
    | WriterEnqueue(message: Object, requestMethod: string)
    | WriterCollect(collectId: int)
    | WriterForget(forgetId: int)
    | SideLoss(reason: Reason, raw: Option<bytes>)
    | TakeOrdered
    | TakeNotification
    | TakeServerRequest
    | TakeDiagnostic

  /** The client with the history of what left it: envelopes drained and lines fetched. */
  datatype Machine = Machine(client: Client, drained: seq<AcquisitionEnvelope>, lines: seq<bytes>, taken: nat)

  function Tail<T>(items: seq<T>): seq<T> { if items == [] then [] else items[1..] }

  /** The client's own part of a step. */
  function Act(setup: Setup, s: Client, a: Action): Client {
    match a
    case ReaderFetch => Fetch(setup, s)
    case ReaderDeliver => Deliver(setup, s)
    case ReaderRaise(error) =>
      if s.reader.disposition.READING? && s.reader.held.None? then
        s.(channels := RecordLoss(setup, s.channels, error, None), reader := s.reader.(disposition := FAILURE))
      else s
    case WriterExpect(id, name) =>
      s.(routing := Routing(s.routing.pending[id := name], s.routing.mailboxes[id := None]))
    case WriterSelect(selection) => s.(selection := selection)
    case WriterEnqueue(message, name) => s.(channels := EnqueueRequest(setup, s.channels, message, name).1)
    case WriterCollect(id) => s.(routing := s.routing.(mailboxes := s.routing.mailboxes[id := None]))
    case WriterForget(id) => s.(routing := s.routing.(pending := s.routing.pending - {id}))
    case SideLoss(reason, raw) => s.(channels := RecordLoss(setup, s.channels, reason, raw))
    case TakeOrdered => s.(channels := s.channels.(ordered := Tail(s.channels.ordered)))
    case TakeNotification => s.(channels := s.channels.(notifications := Tail(s.channels.notifications)))
    case TakeServerRequest => s.(channels := s.channels.(serverRequests := Tail(s.channels.serverRequests)))
    case TakeDiagnostic => s.(channels := s.channels.(diagnostics := Tail(s.channels.diagnostics)))
  }

  /** A line is fetched exactly when the reader goes from idle to holding one. */
  function Next(setup: Setup, m: Machine, a: Action): Machine {
    var client := Act(setup, m.client, a);
    Machine(
      client,
      if a.TakeOrdered? && m.client.channels.ordered != [] then m.drained + [m.client.channels.ordered[0]] else m.drained,
      if a.ReaderFetch? && m.client.reader.held.None? && client.reader.held.Some?
      then m.lines + [client.reader.held.value.line] else m.lines,
      if a.TakeNotification? && m.client.channels.notifications != [] then m.taken + 1 else m.taken)
  }

  function Execute(setup: Setup, stream: bytes, actions: seq<Action>): Machine {
    if actions == [] then Machine(Started(stream), [], [], 0)
    else Next(setup, Execute(setup, stream, actions[..|actions| - 1]), actions[|actions| - 1])
  }

  /** Everything ever put on the ordered queue, oldest first. */
  function EverIssued(m: Machine): seq<AcquisitionEnvelope> {
    m.drained + m.client.channels.ordered
  }

  /** The client's cut at some moment of its run: quiesced only once the reader has seen the
      end of stdout, with the losses and the high-water mark of that moment. */
  predicate CutOf(m: Machine, cut: AcquisitionCut) {
    && cut.lossGeneration == m.client.channels.lossGeneration
    && cut.orderedHighWater == m.client.channels.ordinal
    && (cut.streamQuiesced ==> m.client.reader.disposition.CLEAN_EOF?)
  }

  // ---- Ordinals ----

  /** Ordinals only grow, and stay below the next one: a refused put leaves a visible gap. */
  ghost predicate Ascending(es: seq<AcquisitionEnvelope>, bound: int) {
    && (forall i | 0 <= i < |es| :: 0 <= es[i].ordinal < bound)
    && (forall i, j | 0 <= i < j < |es| :: es[i].ordinal < es[j].ordinal)
  }

  /** How the channels of one lock section grow: the put envelopes and the losses. */
  ghost predicate Grows(c: Channels, c': Channels, put: seq<AcquisitionEnvelope>) {
    c'.ordered == c.ordered + put && Spaced(c, c', put)
  }

  ghost predicate Spaced(c: Channels, c': Channels, put: seq<AcquisitionEnvelope>) {
    && c.ordinal <= c'.ordinal && c.lossGeneration <= c'.lossGeneration
    && (forall i | 0 <= i < |put| :: c.ordinal <= put[i].ordinal < c'.ordinal)
    && (forall i, j | 0 <= i < j < |put| :: put[i].ordinal < put[j].ordinal)
    && (c'.lossGeneration == c.lossGeneration ==> |put| == c'.ordinal - c.ordinal)
  }

  lemma GrowsThen(c: Channels, c1: Channels, c2: Channels, put1: seq<AcquisitionEnvelope>, put2: seq<AcquisitionEnvelope>)
    requires Grows(c, c1, put1) && Grows(c1, c2, put2)
    ensures Grows(c, c2, put1 + put2)
  {
    assert c2.ordered == c.ordered + (put1 + put2);
  }

  /** A loss is never silent: the generation moves on. */
  lemma RecordLossGrows(setup: Setup, c: Channels, reason: Reason, raw: Option<bytes>) returns (put: seq<AcquisitionEnvelope>)
    ensures Grows(c, RecordLoss(setup, c, reason, raw), put)
    ensures RecordLoss(setup, c, reason, raw).lossGeneration > c.lossGeneration
    ensures RecordLoss(setup, c, reason, raw).notifications == c.notifications
    ensures (forall i | 0 <= i < |put| :: put[i].kind.LOSS?) && Notifications(put) == 0
  {
    var c' := RecordLoss(setup, c, reason, raw);
    put := c'.ordered[|c.ordered|..];
    OneNotification(put);
  }

  /** Either the message is on the ordered queue, or the generation has moved on. */
  lemma OrderedOrLossGrows(
    setup: Setup, c: Channels, kind: EnvelopeKind, message: ServerMessage, requestMethod: Option<string>)
    returns (put: seq<AcquisitionEnvelope>)
    ensures var c' := OrderedOrLoss(setup, c, kind, message, requestMethod);
      && Grows(c, c', put) && c'.notifications == c.notifications
      && (c'.lossGeneration == c.lossGeneration ==>
            put == [AcquisitionEnvelope(c.ordinal, kind, Some(message), None, None, requestMethod)])
      && (forall i | 0 <= i < |put| :: put[i].kind.LOSS? || (put[i].kind == kind && put[i].message == Some(message)))
      && Notifications(put) <= if kind.NOTIFICATION? then 1 else 0
  {
    var (fits, c1) := NextOrdered(setup, c, kind, Some(message), None, None, requestMethod);
    if fits {
      put := [AcquisitionEnvelope(c.ordinal, kind, Some(message), None, None, requestMethod)];
    } else {
      put := RecordLossGrows(setup, c1, AppServerOrderedEnvelopeRefusedByBoundedQueue, None);
    }
    OneNotification(put);
  }

  /** How many of the envelopes are notifications. */
  function Notifications(es: seq<AcquisitionEnvelope>): nat {
    if es == [] then 0
    else Notifications(es[..|es| - 1]) + if es[|es| - 1].kind.NOTIFICATION? then 1 else 0
  }

  lemma OneNotification(put: seq<AcquisitionEnvelope>)
    ensures |put| == 0 ==> Notifications(put) == 0
    ensures |put| == 1 ==> Notifications(put) == if put[0].kind.NOTIFICATION? then 1 else 0
  {
    if |put| == 1 {
      assert Notifications(put[..0]) == 0;
    }
  }

  lemma {:induction false} NotificationsConcat(a: seq<AcquisitionEnvelope>, b: seq<AcquisitionEnvelope>)
    ensures Notifications(a + b) == Notifications(a) + Notifications(b)
  {
    if b == [] {
      assert a + b == a;
    } else {
      NotificationsConcat(a, b[..|b| - 1]);
      assert (a + b)[..|a + b| - 1] == a + b[..|b| - 1];
    }
  }

  // ---- Server-side custody ----

  predicate ServerKind(kind: EnvelopeKind) {
    kind.NOTIFICATION? || kind.SERVER_REQUEST? || kind.CLIENT_RESPONSE?
  }

  /** The exact bytes of the server's messages among these envelopes. */
  function ServerWires(es: seq<AcquisitionEnvelope>): seq<bytes> {
    if es == [] then []
    else
      var last := es[|es| - 1];
      ServerWires(es[..|es| - 1]) +
      if ServerKind(last.kind) && last.message.Some? && last.message.value.rawBytes.Some?
      then [last.message.value.rawBytes.value] else []
  }

  lemma ServerWiresEmpty()
    ensures ServerWires([]) == []
  {
  }

  lemma {:induction false} ServerWiresConcat(a: seq<AcquisitionEnvelope>, b: seq<AcquisitionEnvelope>)
    ensures ServerWires(a + b) == ServerWires(a) + ServerWires(b)
  {
    if b == [] {
      assert a + b == a;
    } else {
      ServerWiresConcat(a, b[..|b| - 1]);
      assert (a + b)[..|a + b| - 1] == a + b[..|b| - 1];
    }
  }

  function Concat(lines: seq<bytes>): bytes {
    if lines == [] then [] else Concat(lines[..|lines| - 1]) + lines[|lines| - 1]
  }

  predicate IsLine(line: bytes) {
    Terminated(line) && NEWLINE !in line[..|line| - 1]
  }

  /** A message the reader lets through has an absent or an object `params`. */
  predicate WellFormed(message: ServerMessage) {
    "params" in message.raw ==> message.raw["params"].Obj?
  }

  /** What a server envelope carries: one whole line, and a message with usable params. */
  predicate Exact(e: AcquisitionEnvelope) {
    ServerKind(e.kind) ==>
      && e.message.Some? && e.message.value.rawBytes.Some? && IsLine(e.message.value.rawBytes.value)
      && (!e.kind.CLIENT_RESPONSE? ==> WellFormed(e.message.value))
  }

  predicate AllExact(es: seq<AcquisitionEnvelope>) {
    forall i | 0 <= i < |es| :: Exact(es[i])
  }

  predicate HasExactBytes(message: ServerMessage, line: bytes) {
    message.rawBytes == Some(line)
  }

  /** The held frame carries the line it came from. */
  predicate HeldExact(held: Held) {
    match held.frame
    case Offer(message, _) => HasExactBytes(message, held.line) && WellFormed(message) && IsLine(held.line)
    case Respond(_, _, response) => HasExactBytes(response, held.line) && IsLine(held.line)
    case _ => true
  }

  lemma ClassifyExact(setup: Setup, selection: Selection, routing: Routing, stream: bytes)
    requires stream != []
    ensures HeldExact(Held(FirstLine(stream), Classify(setup, selection, routing, FirstLine(stream))))
  {
    var line := FirstLine(stream);
    assert EndsLine(stream, LineLength(stream)) && line == stream[..LineLength(stream)];
    assert Terminated(line) ==> IsLine(line);
  }

  function HeldLine(held: Option<Held>): seq<bytes> {
    if held.Some? then [held.value.line] else []
  }

  /** What one reader delivery adds while no loss is recorded: exactly the held line. */
  lemma DeliverGrows(setup: Setup, s: Client) returns (put: seq<AcquisitionEnvelope>)
    requires s.reader.held.Some? && HeldExact(s.reader.held.value)
    ensures var s' := Deliver(setup, s);
      && Grows(s.channels, s'.channels, put)
      && AllExact(put) && Notifications(put) + |s.channels.notifications| <= |s'.channels.notifications|
      && s'.reader.stdout == s.reader.stdout
      && (s'.reader.held.Some? ==> s'.reader.held.value.line == s.reader.held.value.line && HeldExact(s'.reader.held.value))
      && (s'.channels.lossGeneration == s.channels.lossGeneration ==>
            ServerWires(put) + HeldLine(s'.reader.held) == [s.reader.held.value.line])
  {
    match s.reader.held.value.frame
    case Lost(reason, raw) => put := RecordLossGrows(setup, s.channels, reason, raw);
    case Offer(message, serverRequest) => put := OfferGrows(setup, s.channels, message, serverRequest);
    case Respond(id, name, response) => put := ResponseGrows(setup, s.channels, s.routing.mailboxes, id, name, response);
    case Break(error) => put := [];
  }

  lemma OfferGrows(setup: Setup, c: Channels, message: ServerMessage, serverRequest: bool)
    returns (put: seq<AcquisitionEnvelope>)
    requires message.rawBytes.Some? && IsLine(message.rawBytes.value) && WellFormed(message)
    ensures var c' := OfferMessage(setup, c, message, serverRequest);
      && Grows(c, c', put)
      && AllExact(put) && Notifications(put) + |c.notifications| <= |c'.notifications|
      && (c'.lossGeneration == c.lossGeneration ==>
            ServerWires(put) == [message.rawBytes.value] && |put| == 1 && put[0].message == Some(message)
            && put[0].kind == (if serverRequest then SERVER_REQUEST else NOTIFICATION)
            && c'.notifications == if serverRequest then c.notifications else c.notifications + [message])
  {
    if serverRequest {
      if MessageFits(setup, c.serverRequests, message) {
        put := OrderedOrLossGrows(setup, c.(serverRequests := c.serverRequests + [message]), SERVER_REQUEST, message, None);
      } else {
        put := RecordLossGrows(setup, c, AppServerServerRequestRefusedByBoundedQueue, message.rawBytes);
      }
    } else {
      if MessageFits(setup, c.notifications, message) {
        put := OrderedOrLossGrows(setup, c.(notifications := c.notifications + [message]), NOTIFICATION, message, None);
      } else {
        put := RecordLossGrows(setup, c, AppServerNotificationRefusedByBoundedQueue, message.rawBytes);
      }
    }
    OneWire(put);
  }

  lemma OneWire(put: seq<AcquisitionEnvelope>)
    ensures |put| == 1 && ServerKind(put[0].kind) && put[0].message.Some? && put[0].message.value.rawBytes.Some?
      ==> ServerWires(put) == [put[0].message.value.rawBytes.value]
    ensures |put| == 1 && !ServerKind(put[0].kind) ==> ServerWires(put) == []
  {
    if |put| == 1 {
      assert ServerWires(put[..0]) == [];
    }
  }

  lemma ResponseGrows(
    setup: Setup, c: Channels, mailboxes: map<int, Option<Object>>, id: int, name: string, response: ServerMessage)
    returns (put: seq<AcquisitionEnvelope>)
    requires response.rawBytes.Some? && IsLine(response.rawBytes.value)
    ensures var c' := DeliverResponse(setup, c, mailboxes, id, name, response).0;
      && Grows(c, c', put)
      && AllExact(put) && Notifications(put) == 0 && c'.notifications == c.notifications
      && (c'.lossGeneration == c.lossGeneration ==>
            ServerWires(put) == [response.rawBytes.value] && |put| == 1 && put[0].kind.CLIENT_RESPONSE?)
  {
    var c1 := RetainResponse(setup, c, name, response);
    put := AnswerGrows(setup, c, name, response);
    if id in mailboxes && mailboxes[id].Some? {
      var more := RecordLossGrows(setup, c1, DuplicateAppServerResponseRefused, response.rawBytes);
      GrowsThen(c, c1, DeliverResponse(setup, c, mailboxes, id, name, response).0, put, more);
      NotificationsConcat(put, more);
      AllExactExtends(put, more);
      put := put + more;
    }
  }

  lemma AnswerGrows(setup: Setup, c: Channels, name: string, response: ServerMessage)
    returns (put: seq<AcquisitionEnvelope>)
    requires response.rawBytes.Some? && IsLine(response.rawBytes.value)
    ensures var c' := RetainResponse(setup, c, name, response);
      && Grows(c, c', put) && AllExact(put) && Notifications(put) == 0 && c'.notifications == c.notifications
      && (c'.lossGeneration == c.lossGeneration ==>
            ServerWires(put) == [response.rawBytes.value] && |put| == 1 && put[0].kind.CLIENT_RESPONSE?)
  {
    if MessageBytes(setup, response) > MAXIMUM_RETAINED_ADAPTER_EVENT_BYTES {
      put := RecordLossGrows(setup, c, AppServerResponseRefusedByRetainedEventByteBound, None);
    } else {
      put := OrderedOrLossGrows(setup, c, CLIENT_RESPONSE, response, Some(name));
      OneWire(put);
    }
  }

  lemma EnqueueGrows(setup: Setup, c: Channels, message: Object, name: string) returns (put: seq<AcquisitionEnvelope>)
    ensures var c' := EnqueueRequest(setup, c, message, name).1;
      && Grows(c, c', put) && c'.notifications == c.notifications
      && AllExact(put) && Notifications(put) == 0
      && (c'.lossGeneration == c.lossGeneration ==> |put| == 1 && put[0].kind.CLIENT_REQUEST? && ServerWires(put) == [])
  {
    var sent := ServerMessage(message, Some(RequestWire(setup, message)));
    var (fits, c1) := NextOrdered(setup, c, CLIENT_REQUEST, Some(sent), None, None, Some(name));
    if fits {
      put := [AcquisitionEnvelope(c.ordinal, CLIENT_REQUEST, Some(sent), None, None, Some(name))];
    } else {
      put := RecordLossGrows(setup, c1, AppServerOrderedClientRequestRefusedByBoundedQueue, None);
    }
    OneWire(put);
    OneNotification(put);
  }

  // ---- Runs ----

  /** How far one step of any thread takes the history: the envelopes it issues, the line it
      fetches and, unless it records a loss, the line it delivers. */
  ghost predicate Steps(m: Machine, m': Machine, put: seq<AcquisitionEnvelope>, fetched: seq<bytes>) {
    && EverIssued(m') == EverIssued(m) + put
    && Spaced(m.client.channels, m'.client.channels, put)
    && AllExact(put)
    && Notifications(put) + |m.client.channels.notifications| + m.taken <= |m'.client.channels.notifications| + m'.taken
    && m'.lines == m.lines + fetched
    && m.client.reader.stdout == Concat(fetched) + m'.client.reader.stdout
    && (m'.client.channels.lossGeneration == m.client.channels.lossGeneration ==>
          ServerWires(put) + HeldLine(m'.client.reader.held) == HeldLine(m.client.reader.held) + fetched)
  }

  ghost predicate HoldsExactly(reader: Reader) {
    && (reader.held.Some? ==> HeldExact(reader.held.value))
    && (reader.disposition.CLEAN_EOF? ==> reader.stdout == [] && reader.held.None?)
  }

  lemma FetchSteps(setup: Setup, m: Machine) returns (fetched: seq<bytes>)
    requires HoldsExactly(m.client.reader)
    ensures Steps(m, Next(setup, m, ReaderFetch), [], fetched)
    ensures HoldsExactly(Next(setup, m, ReaderFetch).client.reader)
  {
    hide Classify, Notifications, ServerWires, HeldExact, LearnTurn, Exact;
    var reader := m.client.reader;
    assert Notifications([]) == 0 && ServerWires([]) == [] by {
      OneNotification([]);
      ServerWiresEmpty();
    }
    if reader.disposition.READING? && reader.held.None? && reader.stdout != [] {
      var line := FirstLine(reader.stdout);
      ClassifyExact(setup, m.client.selection, m.client.routing, reader.stdout);
      fetched := [line];
      assert Concat(fetched[..0]) == [];
      assert reader.stdout == line + reader.stdout[|line|..];
    } else {
      fetched := [];
    }
  }

  lemma DeliveredStep(m: Machine, m': Machine, put: seq<AcquisitionEnvelope>)
    requires m'.drained == m.drained && m'.lines == m.lines && m'.client.reader.stdout == m.client.reader.stdout
    requires Grows(m.client.channels, m'.client.channels, put) && AllExact(put)
    requires Notifications(put) + |m.client.channels.notifications| + m.taken <= |m'.client.channels.notifications| + m'.taken
    requires m.client.reader.held.Some?
    requires m'.client.channels.lossGeneration == m.client.channels.lossGeneration ==>
      ServerWires(put) + HeldLine(m'.client.reader.held) == [m.client.reader.held.value.line]
    ensures Steps(m, m', put, [])
  {
    assert EverIssued(m') == EverIssued(m) + put;
    assert Concat([]) + m'.client.reader.stdout == m'.client.reader.stdout;
  }

  lemma DeliverSteps(setup: Setup, m: Machine) returns (put: seq<AcquisitionEnvelope>)
    requires HoldsExactly(m.client.reader)
    ensures Steps(m, Next(setup, m, ReaderDeliver), put, [])
    ensures HoldsExactly(Next(setup, m, ReaderDeliver).client.reader)
  {
    if m.client.reader.held.Some? {
      put := DeliverGrows(setup, m.client);
      DeliveredStep(m, Next(setup, m, ReaderDeliver), put);
    } else {
      put := [];
    }
  }

  lemma OtherSteps(setup: Setup, m: Machine, a: Action) returns (put: seq<AcquisitionEnvelope>)
    requires HoldsExactly(m.client.reader) && !a.ReaderFetch? && !a.ReaderDeliver?
    ensures Steps(m, Next(setup, m, a), put, [])
    ensures HoldsExactly(Next(setup, m, a).client.reader)
  {
    hide RecordLoss, EnqueueRequest, HeldExact;
    var c := m.client.channels;
    match a
    case ReaderRaise(error) =>
      if m.client.reader.disposition.READING? && m.client.reader.held.None? {
        put := RecordLossGrows(setup, c, error, None);
      } else {
        put := [];
      }
      ChannelStep(m, Next(setup, m, a), put);
    case WriterEnqueue(message, name) =>
      put := EnqueueGrows(setup, c, message, name);
      ChannelStep(m, Next(setup, m, a), put);
    case SideLoss(reason, raw) =>
      put := RecordLossGrows(setup, c, reason, raw);
      ChannelStep(m, Next(setup, m, a), put);
    case TakeOrdered =>
      put := [];
      assert EverIssued(Next(setup, m, a)) == EverIssued(m);
      assert Concat([]) + m.client.reader.stdout == m.client.reader.stdout;
    case TakeNotification =>
      put := [];
      assert Concat([]) + m.client.reader.stdout == m.client.reader.stdout;
    case _ =>
      put := [];
      ChannelStep(m, Next(setup, m, a), put);
  }

  lemma ChannelStep(m: Machine, m': Machine, put: seq<AcquisitionEnvelope>)
    requires m'.drained == m.drained && m'.lines == m.lines && m'.taken == m.taken
    requires m'.client.reader.(disposition := m.client.reader.disposition) == m.client.reader
    requires m'.client.channels.notifications == m.client.channels.notifications
    requires Grows(m.client.channels, m'.client.channels, put) && AllExact(put) && Notifications(put) == 0
    requires m'.client.channels.lossGeneration == m.client.channels.lossGeneration ==> ServerWires(put) == []
    ensures Steps(m, m', put, [])
  {
    assert EverIssued(m') == EverIssued(m) + put;
    assert Concat([]) + m'.client.reader.stdout == m'.client.reader.stdout;
  }

  lemma StepOf(setup: Setup, m: Machine, a: Action) returns (put: seq<AcquisitionEnvelope>, fetched: seq<bytes>)
    requires HoldsExactly(m.client.reader)
    ensures Steps(m, Next(setup, m, a), put, fetched)
    ensures HoldsExactly(Next(setup, m, a).client.reader)
  {
    put, fetched := [], [];
    if a.ReaderFetch? {
      fetched := FetchSteps(setup, m);
    } else if a.ReaderDeliver? {
      put := DeliverSteps(setup, m);
    } else {
      put := OtherSteps(setup, m, a);
    }
  }

  lemma {:induction false} ConcatConcat(a: seq<bytes>, b: seq<bytes>)
    ensures Concat(a + b) == Concat(a) + Concat(b)
  {
    if b == [] {
      assert a + b == a;
    } else {
      ConcatConcat(a, b[..|b| - 1]);
      assert (a + b)[..|a + b| - 1] == a + b[..|b| - 1];
    }
  }

  /** What acquisition has of the stream at any moment. Until the first loss, every ordinal has
      its envelope, and the server's wires are the lines read, in order. */
  ghost predicate Custody(stream: bytes, m: Machine) {
    && HoldsExactly(m.client.reader)
    && Ascending(EverIssued(m), m.client.channels.ordinal)
    && AllExact(EverIssued(m))
    && Notifications(EverIssued(m)) <= |m.client.channels.notifications| + m.taken
    && Concat(m.lines) + m.client.reader.stdout == stream
    && (m.client.channels.lossGeneration == 0 ==>
          && |EverIssued(m)| == m.client.channels.ordinal
          && ServerWires(EverIssued(m)) + HeldLine(m.client.reader.held) == m.lines)
  }

  lemma StepKeepsCustody(setup: Setup, stream: bytes, m: Machine, a: Action)
    requires Custody(stream, m)
    ensures Custody(stream, Next(setup, m, a))
  {
    var put, fetched := StepOf(setup, m, a);
    var m' := Next(setup, m, a);
    AscendingExtends(EverIssued(m), put, m.client.channels, m'.client.channels);
    NotificationsConcat(EverIssued(m), put);
    AllExactExtends(EverIssued(m), put);
    StreamExtends(stream, m.lines, fetched, m.client.reader.stdout, m'.client.reader.stdout);
    if m'.client.channels.lossGeneration == 0 {
      WiresExtend(EverIssued(m), put, HeldLine(m.client.reader.held), HeldLine(m'.client.reader.held), m.lines, fetched);
    }
  }

  lemma StreamExtends(stream: bytes, lines: seq<bytes>, fetched: seq<bytes>, rest: bytes, rest': bytes)
    requires Concat(lines) + rest == stream && rest == Concat(fetched) + rest'
    ensures Concat(lines + fetched) + rest' == stream
  {
    ConcatConcat(lines, fetched);
    assert Concat(lines) + Concat(fetched) + rest' == Concat(lines) + (Concat(fetched) + rest');
  }

  lemma WiresExtend(
    es: seq<AcquisitionEnvelope>, put: seq<AcquisitionEnvelope>, held: seq<bytes>, held': seq<bytes>,
    lines: seq<bytes>, fetched: seq<bytes>)
    requires ServerWires(es) + held == lines && ServerWires(put) + held' == held + fetched
    ensures ServerWires(es + put) + held' == lines + fetched
  {
    ServerWiresConcat(es, put);
    assert ServerWires(es) + ServerWires(put) + held' == ServerWires(es) + (ServerWires(put) + held');
    assert ServerWires(es) + (held + fetched) == ServerWires(es) + held + fetched;
  }

  lemma AscendingExtends(es: seq<AcquisitionEnvelope>, put: seq<AcquisitionEnvelope>, c: Channels, c': Channels)
    requires Ascending(es, c.ordinal) && Spaced(c, c', put)
    ensures Ascending(es + put, c'.ordinal)
  {
  }

  lemma AllExactExtends(es: seq<AcquisitionEnvelope>, put: seq<AcquisitionEnvelope>)
    requires AllExact(es) && AllExact(put)
    ensures AllExact(es + put)
  {
  }

  /** Over every interleaving, acquisition never holds anything but the stream's own lines,
      and until the first loss it holds all of them. */
  lemma {:induction false} RunKeepsCustody(setup: Setup, stream: bytes, actions: seq<Action>)
    ensures Custody(stream, Execute(setup, stream, actions))
  {
    if actions == [] {
      assert EverIssued(Execute(setup, stream, actions)) == [];
    } else {
      RunKeepsCustody(setup, stream, actions[..|actions| - 1]);
      StepKeepsCustody(setup, stream, Execute(setup, stream, actions[..|actions| - 1]), actions[|actions| - 1]);
    }
  }

  lemma ExecuteExtends(setup: Setup, stream: bytes, actions: seq<Action>, a: Action)
    ensures Execute(setup, stream, actions + [a]) == Next(setup, Execute(setup, stream, actions), a)
  {
    assert (actions + [a])[..|actions|] == actions;
  }

  lemma SnocAssociates<T>(a: seq<T>, b: seq<T>)
    requires b != []
    ensures a + b == (a + b[..|b| - 1]) + [b[|b| - 1]]
  {
  }

  /** What was issued stays issued. */
  lemma {:induction false} RunExtendsIssued(setup: Setup, stream: bytes, actions: seq<Action>, more: seq<Action>)
    ensures EverIssued(Execute(setup, stream, actions)) <= EverIssued(Execute(setup, stream, actions + more))
  {
    hide EverIssued, Next, Execute, Custody, HoldsExactly;
    if more == [] {
      assert actions + more == actions;
    } else {
      var init, last := more[..|more| - 1], more[|more| - 1];
      var m0, m1 := Execute(setup, stream, actions), Execute(setup, stream, actions + init);
      RunExtendsIssued(setup, stream, actions, init);
      SnocAssociates(actions, more);
      ExecuteExtends(setup, stream, actions + init, last);
      RunKeepsCustody(setup, stream, actions + init);
      CustodyHoldsExactly(stream, m1);
      StepExtendsIssued(setup, m1, last);
      PrefixTransitive(EverIssued(m0), EverIssued(m1), EverIssued(Next(setup, m1, last)));
    }
  }

  lemma CustodyHoldsExactly(stream: bytes, m: Machine)
    requires Custody(stream, m)
    ensures HoldsExactly(m.client.reader)
  {
  }

  lemma PrefixTransitive<T>(a: seq<T>, b: seq<T>, c: seq<T>)
    requires a <= b && b <= c
    ensures a <= c
  {
  }

  lemma StepExtendsIssued(setup: Setup, m: Machine, a: Action)
    requires HoldsExactly(m.client.reader)
    ensures EverIssued(m) <= EverIssued(Next(setup, m, a))
  {
    var put, fetched := StepOf(setup, m, a);
  }

  /** The notification queue is never longer than its bound. */
  lemma {:induction false} QueueStaysBounded(setup: Setup, stream: bytes, actions: seq<Action>)
    requires setup.messageBound.items > 0
    ensures |Execute(setup, stream, actions).client.channels.notifications| <= setup.messageBound.items
  {
    if actions != [] {
      QueueStaysBounded(setup, stream, actions[..|actions| - 1]);
      QueueStep(setup, Execute(setup, stream, actions[..|actions| - 1]), actions[|actions| - 1]);
    }
  }

  lemma QueueStep(setup: Setup, m: Machine, a: Action)
    requires setup.messageBound.items > 0 && |m.client.channels.notifications| <= setup.messageBound.items
    ensures |Next(setup, m, a).client.channels.notifications| <= setup.messageBound.items
  {
    hide NextOrdered, OfferMessage, Fetch;
    var c := m.client.channels;
    match a
    case ReaderFetch => FetchKeepsChannels(setup, m.client);
    case ReaderDeliver =>
      if m.client.reader.held.Some? {
        match m.client.reader.held.value.frame
        case Lost(reason, raw) => LossKeepsNotifications(setup, c, reason, raw);
        case Offer(message, serverRequest) => OfferStaysBounded(setup, c, message, serverRequest);
        case Respond(id, name, response) =>
          ResponseKeepsNotifications(setup, c, m.client.routing.mailboxes, id, name, response);
        case Break(_) =>
      }
    case ReaderRaise(error) => LossKeepsNotifications(setup, c, error, None);
    case SideLoss(reason, raw) => LossKeepsNotifications(setup, c, reason, raw);
    case WriterEnqueue(message, name) => var put := EnqueueGrows(setup, c, message, name);
    case _ =>
  }

  lemma FetchKeepsChannels(setup: Setup, s: Client)
    ensures Fetch(setup, s).channels == s.channels
  {
  }

  lemma LossKeepsNotifications(setup: Setup, c: Channels, reason: Reason, raw: Option<bytes>)
    ensures RecordLoss(setup, c, reason, raw).notifications == c.notifications
  {
  }

  lemma ResponseKeepsNotifications(
    setup: Setup, c: Channels, mailboxes: map<int, Option<Object>>, id: int, name: string, response: ServerMessage)
    ensures DeliverResponse(setup, c, mailboxes, id, name, response).0.notifications == c.notifications
  {
  }

  lemma OfferStaysBounded(setup: Setup, c: Channels, message: ServerMessage, serverRequest: bool)
    requires setup.messageBound.items > 0 && |c.notifications| <= setup.messageBound.items
    ensures |OfferMessage(setup, c, message, serverRequest).notifications| <= setup.messageBound.items
  {
  }

  /** Whoever never takes notifications off their own queue can acquire no more of them than
      that queue holds: the next one is a loss. */
  lemma NotificationsAreCapped(setup: Setup, stream: bytes, actions: seq<Action>)
    requires setup.messageBound.items > 0
    ensures var m := Execute(setup, stream, actions);
      Notifications(EverIssued(m)) <= setup.messageBound.items + m.taken
  {
    RunKeepsCustody(setup, stream, actions);
    QueueStaysBounded(setup, stream, actions);
  }
}
