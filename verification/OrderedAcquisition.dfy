/** Ordered acquisition in the App Server client, as a function of its state: what each lock
    section does to the queues, the ordinal and the loss generation, and how one stdout line
    is classified. AppServerClient.dfy has the object that does it in place. */
module OrderedAcquisition {
  import opened Wrappers
  import opened Utf8
  import opened Json
  import opened Reasons
  import opened AppServerProtocol
  import opened ByteBoundedQueue

  const MAXIMUM_DIAGNOSTIC_ITEMS: nat := 64
  const MAXIMUM_DIAGNOSTIC_BYTES: nat := 65536
  const ENVELOPE_OVERHEAD_BYTES: nat := 64

  /** What decoding one line gives: `Undecodable` is a UnicodeDecodeError, JSONDecodeError or
      ValueError, `Fatal` any other exception. */
  datatype LineParse = Decoded(value: Json) | Undecodable | Fatal(error: Reason)

  datatype Bound = Bound(items: nat, bytes: nat)

  /** The client's fixed parameters, and the library behaviour it rests on: decoding a line,
      compact JSON text of an object, and the text of a diagnostic. */
  datatype Setup = Setup(
    parse: bytes -> LineParse,
    dumps: Object -> string,
    text: Reason -> string,
    maximumLineBytes: nat,
    messageBound: Bound,
    orderedBound: Bound,
    contract: CaptureContract,
    adapterProcessOccurrenceId: string,
    appServerSessionIdentity: string)

  /** `request_wire`. */
  function RequestWire(setup: Setup, message: Object): bytes {
    Encode(setup.dumps(message)) + [NEWLINE]
  }

  /** `_message_bytes`. */
  function MessageBytes(setup: Setup, message: ServerMessage): nat {
    match message.rawBytes
    case Some(raw) => |raw|
    case None => |Encode(setup.dumps(message.raw))|
  }

  function MessageSize(setup: Setup): ServerMessage -> int {
    message => MessageBytes(setup, message)
  }

  /** `_envelope_bytes`. */
  function EnvelopeBytes(setup: Setup, e: AcquisitionEnvelope): nat {
    ENVELOPE_OVERHEAD_BYTES
    + (if e.message.Some? then MessageBytes(setup, e.message.value) else 0)
    + (if e.diagnostic.Some? then |Encode(setup.text(e.diagnostic.value))| else 0)
    + (if e.rawBytes.Some? then |e.rawBytes.value| else 0)
    + (if e.requestMethod.Some? then |Encode(e.requestMethod.value)| else 0)
  }

  function EnvelopeSize(setup: Setup): AcquisitionEnvelope -> int {
    e => EnvelopeBytes(setup, e)
  }

  function DiagnosticSize(setup: Setup): Reason -> int {
    reason => |Encode(setup.text(reason))|
  }

  // ---- State ----

  /** Everything the acquisition lock protects. */
  datatype Channels = Channels(
    ordered: seq<AcquisitionEnvelope>,
    notifications: seq<ServerMessage>,
    serverRequests: seq<ServerMessage>,
    diagnostics: seq<Reason>,
    ordinal: nat,
    lossGeneration: nat)

  /** The one selected input of the echo contract, and the turn it became. */
  datatype Selection = Selection(echo: Option<(string, Json)>, turnId: Option<string>)

  /** Requests awaiting an answer, and the one-place response queue of each. */
  datatype Routing = Routing(pending: map<int, string>, mailboxes: map<int, Option<Object>>)

  datatype ReaderDisposition = READING | FAILURE | CLEAN_EOF

  /** How one stdout line is to be delivered. */
  datatype Frame =
    | Lost(reason: Reason, raw: Option<bytes>)
    | Offer(message: ServerMessage, serverRequest: bool)
    | Respond(requestId: int, requestMethod: string, response: ServerMessage)
    | Break(error: Reason)

  /** A line that was read and classified but whose lock section has not run yet. */
  datatype Held = Held(line: bytes, frame: Frame)

  datatype Reader = Reader(stdout: bytes, held: Option<Held>, disposition: ReaderDisposition)

  datatype Client = Client(channels: Channels, selection: Selection, routing: Routing, reader: Reader)

  const IDLE: Channels := Channels([], [], [], [], 0, 0)

  function Started(stream: bytes): Client {
    Client(IDLE, Selection(None, None), Routing(map[], map[]), Reader(stream, None, READING))
  }

  // ---- Lock sections ----

  predicate OrderedFits(setup: Setup, c: Channels, e: AcquisitionEnvelope) {
    Fits(setup.orderedBound.items, setup.orderedBound.bytes, EnvelopeSize(setup), c.ordered, e)
  }

  predicate MessageFits(setup: Setup, queue: seq<ServerMessage>, message: ServerMessage) {
    Fits(setup.messageBound.items, setup.messageBound.bytes, MessageSize(setup), queue, message)
  }

  predicate DiagnosticFits(setup: Setup, c: Channels, reason: Reason) {
    Fits(MAXIMUM_DIAGNOSTIC_ITEMS, MAXIMUM_DIAGNOSTIC_BYTES, DiagnosticSize(setup), c.diagnostics, reason)
  }

  function RetainedRaw(raw: Option<bytes>): Option<bytes> {
    if raw.Some? && |raw.value| <= MAXIMUM_RETAINED_ADAPTER_EVENT_BYTES then raw else None
  }

  /** `_next_ordered_locked`: the ordinal is spent whether or not the envelope fits. */
  function NextOrdered(
    setup: Setup, c: Channels, kind: EnvelopeKind, message: Option<ServerMessage>, diagnostic: Option<Reason>,
    raw: Option<bytes>, requestMethod: Option<string>): (bool, Channels)
  {
    var e := AcquisitionEnvelope(c.ordinal, kind, message, diagnostic, RetainedRaw(raw), requestMethod);
    if OrderedFits(setup, c, e)
    then (true, c.(ordered := c.ordered + [e], ordinal := c.ordinal + 1))
    else (false, c.(ordinal := c.ordinal + 1))
  }

  /** `_record_loss_locked`. */
  function RecordLoss(setup: Setup, c: Channels, reason: Reason, raw: Option<bytes>): Channels {
    var diagnostics := if DiagnosticFits(setup, c, reason) then c.diagnostics + [reason] else c.diagnostics;
    var c1 := c.(lossGeneration := c.lossGeneration + 1, diagnostics := diagnostics);
    NextOrdered(setup, c1, LOSS, None, Some(Truncated(reason)), raw, None).1
  }

  /** An ordered message, or a loss in its place. */
  function OrderedOrLoss(
    setup: Setup, c: Channels, kind: EnvelopeKind, message: ServerMessage, requestMethod: Option<string>): Channels
  {
    var (put, c1) := NextOrdered(setup, c, kind, Some(message), None, None, requestMethod);
    if put then c1 else RecordLoss(setup, c1, AppServerOrderedEnvelopeRefusedByBoundedQueue, None)
  }

  /** `_offer_message`. */
  function OfferMessage(setup: Setup, c: Channels, message: ServerMessage, serverRequest: bool): Channels {
    if serverRequest then
      if MessageFits(setup, c.serverRequests, message)
      then OrderedOrLoss(setup, c.(serverRequests := c.serverRequests + [message]), SERVER_REQUEST, message, None)
      else RecordLoss(setup, c, AppServerServerRequestRefusedByBoundedQueue, message.rawBytes)
    else
      if MessageFits(setup, c.notifications, message)
      then OrderedOrLoss(setup, c.(notifications := c.notifications + [message]), NOTIFICATION, message, None)
      else RecordLoss(setup, c, AppServerNotificationRefusedByBoundedQueue, message.rawBytes)
  }

  /** Custody of a response, which never exceeds the retained-event bound. */
  function RetainResponse(setup: Setup, c: Channels, requestMethod: string, response: ServerMessage): Channels {
    if MessageBytes(setup, response) > MAXIMUM_RETAINED_ADAPTER_EVENT_BYTES
    then RecordLoss(setup, c, AppServerResponseRefusedByRetainedEventByteBound, None)
    else OrderedOrLoss(setup, c, CLIENT_RESPONSE, response, Some(requestMethod))
  }

  /** The reader's lock section for a routed response, whose response queue takes one answer. */
  function DeliverResponse(
    setup: Setup, c: Channels, mailboxes: map<int, Option<Object>>, requestId: int, requestMethod: string,
    response: ServerMessage): (Channels, map<int, Option<Object>>)
  {
    var c1 := RetainResponse(setup, c, requestMethod, response);
    if requestId in mailboxes && mailboxes[requestId].Some?
    then (RecordLoss(setup, c1, DuplicateAppServerResponseRefused, response.rawBytes), mailboxes)
    else (c1, mailboxes[requestId := Some(response.raw)])
  }

  // ---- Reading one line ----

  /** The first n bytes are one line: they run up to and including the first newline, or to
      the end of a stream without one. */
  predicate EndsLine(stream: bytes, n: int) {
    && 0 <= n <= |stream|
    && (stream != [] ==> n > 0)
    && (forall i | 0 <= i < n - 1 :: stream[i] != NEWLINE)
    && (n == |stream| || stream[n - 1] == NEWLINE)
  }

  function LineLength(stream: bytes): (n: nat)
    ensures EndsLine(stream, n)
  {
    if stream == [] then 0
    else if stream[0] == NEWLINE then 1
    else
      var n := LineLength(stream[1..]);
      assert forall i | 0 < i < n :: stream[i] == stream[1..][i - 1];
      n + 1
  }

  /** There is only one such length. */
  lemma LineLengthIs(stream: bytes, n: int)
    requires EndsLine(stream, n)
    ensures LineLength(stream) == n
  {
    assert EndsLine(stream, LineLength(stream));
  }

  function FirstLine(stream: bytes): (line: bytes)
    ensures line <= stream && (stream != [] ==> line != [])
  {
    stream[..LineLength(stream)]
  }

  predicate Terminated(line: bytes) {
    line != [] && line[|line| - 1] == NEWLINE
  }

  /** Whether the echo contract lets this frame exceed the retained-event bound; None is a
      TypeError. Without a known turn the agent form is still inspected, but never selects. */
  function SelectsFrame(setup: Setup, selection: Selection, message: ServerMessage, line: bytes): Option<bool> {
    if || !setup.contract.BoundedTurnEchoV1? || selection.echo.None? || |line| > MAXIMUM_USER_INPUT_ECHO_BYTES then
      Some(false)
    else
      var (threadId, input) := selection.echo.value;
      if IsBoundedTurnUserInputEcho(message, Some(input), threadId, None) then Some(true)
      else
        match IsBoundedTurnAgentOutput(message, threadId, selection.turnId)
        case None => None
        case Some(agent) => Some(agent && selection.turnId.Some?)
  }

  predicate MalformedMethodFrame(fields: Object)
    requires "method" in fields
  {
    || !fields["method"].Str? || fields["method"].s == ""
    || ("params" in fields && !fields["params"].Obj?)
    || ("id" in fields && !fields["id"].Int?)
  }

  function ClassifyMethod(setup: Setup, selection: Selection, fields: Object, line: bytes): Frame
    requires "method" in fields
  {
    var message := ServerMessage(fields, Some(line));
    if MalformedMethodFrame(fields) then Lost(AppServerMethodFrameMalformed, Some(line))
    else
      match SelectsFrame(setup, selection, message, line)
      case None => Break(UnhashablePhase)
      case Some(selected) =>
        if |line| > MAXIMUM_RETAINED_ADAPTER_EVENT_BYTES && !selected
        then Lost(MessageRefusedByRetainedEventByteBound, None)
        else Offer(message, "id" in fields)
  }

  function ClassifyResponse(routing: Routing, fields: Object, line: bytes): Frame
    requires "id" in fields
  {
    if !fields["id"].Int? then Lost(AppServerResponseRefusedWithNonintegerRequest, Some(line))
    else if fields["id"].n !in routing.pending then Lost(AppServerResponseRefusedForUnknownRequest, Some(line))
    else Respond(fields["id"].n, routing.pending[fields["id"].n], ServerMessage(fields, Some(line)))
  }

  /** What the loop body of `_read_stdout_loop` makes of one line. */
  function Classify(setup: Setup, selection: Selection, routing: Routing, line: bytes): Frame {
    if |line| > setup.maximumLineBytes || !Terminated(line) then
      Lost(AppServerStdoutFrameRefusedByBoundedAcquisition, None)
    else
      match setup.parse(line)
      case Undecodable => Lost(AppServerStdoutFrameRefusedAsInvalidJson, Some(line))
      case Fatal(error) => Break(error)
      case Decoded(value) =>
        if !value.Obj? then Lost(AppServerStdoutFrameRefusedAsNonObject, Some(line))
        else if "method" in value.fields then ClassifyMethod(setup, selection, value.fields, line)
        else if "id" in value.fields then ClassifyResponse(routing, value.fields, line)
        else Lost(AppServerStdoutFrameRefusedAsUnclassified, Some(line))
  }

  /** The turn identity becomes available at the response boundary. */
  function LearnTurn(setup: Setup, selection: Selection, frame: Frame): Selection {
    if frame.Respond? && frame.requestMethod == "turn/start" && setup.contract.BoundedTurnEchoV1? then
      var id := GetIn(GetIn(Get(frame.response.raw, "result"), "turn"), "id");
      if BoundedId(id) then selection.(turnId := Some(id.s)) else selection
    else selection
  }

  // ---- Reader steps ----

  /** Read and classify the next line, or see EOF. */
  function Fetch(setup: Setup, s: Client): Client {
    if !s.reader.disposition.READING? || s.reader.held.Some? then s
    else if s.reader.stdout == [] then s.(reader := s.reader.(disposition := CLEAN_EOF))
    else
      var line := FirstLine(s.reader.stdout);
      var frame := Classify(setup, s.selection, s.routing, line);
      s.(reader := s.reader.(stdout := s.reader.stdout[|line|..], held := Some(Held(line, frame))),
         selection := LearnTurn(setup, s.selection, frame))
  }

  /** The lock section of the held line. An exception first marks the reader failed, and is
      then recorded as a loss in a lock section of its own. */
  function Deliver(setup: Setup, s: Client): Client {
    match s.reader.held
    case None => s
    case Some(Held(line, frame)) =>
      var released := s.reader.(held := None);
      match frame
      case Lost(reason, raw) => s.(channels := RecordLoss(setup, s.channels, reason, raw), reader := released)
      case Offer(message, serverRequest) =>
        s.(channels := OfferMessage(setup, s.channels, message, serverRequest), reader := released)
      case Respond(id, name, response) =>
        var (channels, mailboxes) := DeliverResponse(setup, s.channels, s.routing.mailboxes, id, name, response);
        s.(channels := channels, routing := s.routing.(mailboxes := mailboxes), reader := released)
      case Break(error) =>
        s.(reader := s.reader.(disposition := FAILURE, held := Some(Held(line, Lost(error, None)))))
  }

  // ---- Writer steps ----

  /** The checks `_write` makes before it takes any lock, and the input it selects. */
  function CheckRequest(setup: Setup, selection: Selection, message: Object, name: string): Result<Selection, Reason> {
    var wire := RequestWire(setup, message);
    if Get(message, "method") != Str(name) || |wire| > ClientRequestByteBound(Some(name), setup.contract) then
      Err(ClientRequestExceedsExactPreSendCustodyBound)
    else if setup.contract.BoundedTurnEchoV1? && name == "turn/start" then
      var params := Get(message, "params");
      if !params.Obj? || !BoundedId(Get(params.fields, "threadId")) then Err(BoundedTurnEchoLacksExactThreadInput)
      else
        match NormalizedBoundedTurnInput(Get(params.fields, "input"))
        case None => Err(BoundedTurnEchoInputIsOutsideTheClosedShape)
        case Some(input) =>
          if selection.echo.Some? then Err(BoundedTurnEchoPermitsOnlyOneSelectedInput)
          else Ok(selection.(echo := Some((params.fields["threadId"].s, input))))
    else Ok(selection)
  }

  /** The lock section of `_write`: custody of the request, or a loss and no request. */
  function EnqueueRequest(setup: Setup, c: Channels, message: Object, name: string): (bool, Channels) {
    var sent := ServerMessage(message, Some(RequestWire(setup, message)));
    var (put, c1) := NextOrdered(setup, c, CLIENT_REQUEST, Some(sent), None, None, Some(name));
    if put then (true, c1)
    else (false, RecordLoss(setup, c1, AppServerOrderedClientRequestRefusedByBoundedQueue, None))
  }
}
