/** The acquiring side of the App Server client as an object: bounded queues, an ordinal and a
    loss generation updated in place, and the loop that reads stdout to its end. */
module AppServerClient {
  import opened Wrappers
  import opened Utf8
  import opened Json
  import opened Reasons
  import opened AppServerProtocol
  import opened ByteBoundedQueue
  import opened OrderedAcquisition
  import opened TerminalCut

  // ---- Reading to the end of the stream ----

  /** One line read, classified and delivered; a broken line takes two lock sections. */
  function ReadLine(setup: Setup, s: Client): Client {
    Deliver(setup, Deliver(setup, Fetch(setup, s)))
  }

  /** `_read_stdout` from here to EOF or to the first exception. */
  function ReadAll(setup: Setup, s: Client): Client
    requires s.reader.held.None?
    decreases |s.reader.stdout|, if s.reader.disposition.READING? then 1 else 0
  {
    if !s.reader.disposition.READING? then s else ReadAll(setup, ReadLine(setup, s))
  }

  /** All lock sections of a classified line, one after the other. */
  function Delivered(setup: Setup, s: Client, frame: Frame): Client {
    match frame
    case Lost(reason, raw) => s.(channels := RecordLoss(setup, s.channels, reason, raw))
    case Offer(message, serverRequest) => s.(channels := OfferMessage(setup, s.channels, message, serverRequest))
    case Respond(id, name, response) =>
      var (channels, mailboxes) := DeliverResponse(setup, s.channels, s.routing.mailboxes, id, name, response);
      s.(channels := channels, routing := s.routing.(mailboxes := mailboxes))
    case Break(error) =>
      s.(channels := RecordLoss(setup, s.channels, error, None), reader := s.reader.(disposition := FAILURE))
  }

  /** Without interference, a line is delivered whole. */
  lemma ReadLineDelivers(setup: Setup, s: Client)
    requires s.reader.held.None? && s.reader.disposition.READING?
    ensures ReadLine(setup, s) ==
      if s.reader.stdout == [] then s.(reader := s.reader.(disposition := CLEAN_EOF))
      else
        var line := FirstLine(s.reader.stdout);
        var frame := Classify(setup, s.selection, s.routing, line);
        Delivered(setup, s.(reader := s.reader.(stdout := s.reader.stdout[|line|..]),
                            selection := LearnTurn(setup, s.selection, frame)), frame)
  {
  }

  // ---- Chunks of a line ----

  function Shorter(a: nat, b: nat): nat { if a <= b then a else b }

  /** `readline(limit)`. */
  function Chunk(stream: bytes, limit: nat): (chunk: bytes)
    ensures chunk <= stream
  {
    stream[..Shorter(LineLength(stream), limit)]
  }

  /** A chunk has been read that ends at k, and no newline precedes its last byte. */
  ghost predicate ReadUpTo(all: bytes, raw: bytes, k: nat) {
    && |raw| <= k <= |all|
    && raw == all[k - |raw|..k]
    && (forall i | 0 <= i < k - 1 :: all[i] != NEWLINE)
  }

  /** The chunk after an unterminated one reads on in the same line. */
  lemma NextChunk(all: bytes, raw: bytes, k: nat, limit: nat)
    requires ReadUpTo(all, raw, k) && !Terminated(raw) && (raw == [] ==> k == 0) && limit > 0
    ensures ReadUpTo(all, Chunk(all[k..], limit), k + |Chunk(all[k..], limit)|)
    ensures Chunk(all[k..], limit) == [] ==> k == |all| && (k > 0 ==> all[k - 1] != NEWLINE)
  {
    var rest := all[k..];
    var chunk := Chunk(rest, limit);
    assert EndsLine(rest, LineLength(rest));
    assert k > 0 ==> all[k - 1] != NEWLINE by {
      if raw != [] {
        assert raw[|raw| - 1] == all[k - 1];
      }
    }
    forall i | 0 <= i < k + |chunk| - 1
      ensures all[i] != NEWLINE
    {
      if i >= k {
        assert rest[i - k] == all[i];
      }
    }
  }

  class AppServerClient {
    const setup: Setup
    const ordered: Queue<AcquisitionEnvelope>
    const notifications: Queue<ServerMessage>
    const serverRequests: Queue<ServerMessage>
    const diagnostics: Queue<Reason>

    var acquisitionOrdinal: nat
    var lossGeneration: nat
    var selection: Selection
    var routing: Routing
    var stdout: bytes
    var disposition: ReaderDisposition

    ghost const Repr: set<object>

    ghost predicate Distinct()
    {
      var o: object, n: object, s: object, d: object := ordered, notifications, serverRequests, diagnostics;
      && Repr == {this, o, n, s, d}
      && o != n && o != s && o != d && n != s && n != d && s != d
      && this !in {o, n, s, d}
    }

    ghost predicate Valid()
      reads Repr
    {
      && Distinct()
      && ordered.Valid() && notifications.Valid() && serverRequests.Valid() && diagnostics.Valid()
      && ordered.size == EnvelopeSize(setup)
      && notifications.size == serverRequests.size == MessageSize(setup)
      && diagnostics.size == DiagnosticSize(setup)
      && Bound(ordered.maxItems, ordered.maxBytes) == setup.orderedBound
      && Bound(notifications.maxItems, notifications.maxBytes) == setup.messageBound
      && Bound(serverRequests.maxItems, serverRequests.maxBytes) == setup.messageBound
      && Bound(diagnostics.maxItems, diagnostics.maxBytes)
           == Bound(MAXIMUM_DIAGNOSTIC_ITEMS, MAXIMUM_DIAGNOSTIC_BYTES)
    }

    ghost function Contents(): Channels
      requires Distinct()
      reads Repr
    {
      Channels(ordered.Items(), notifications.Items(), serverRequests.Items(), diagnostics.Items(),
               acquisitionOrdinal, lossGeneration)
    }

    ghost function Fields(): Client
      requires Distinct()
      reads Repr
    {
      Client(Contents(), selection, routing, Reader(stdout, None, disposition))
    }

    constructor (setup: Setup, stream: bytes)
      ensures Valid() && fresh(Repr)
      ensures this.setup == setup && Fields() == Started(stream)
    {
      var ordered := new Queue(setup.orderedBound.items, setup.orderedBound.bytes, EnvelopeSize(setup));
      var notifications := new Queue(setup.messageBound.items, setup.messageBound.bytes, MessageSize(setup));
      var serverRequests := new Queue(setup.messageBound.items, setup.messageBound.bytes, MessageSize(setup));
      var diagnostics := new Queue(MAXIMUM_DIAGNOSTIC_ITEMS, MAXIMUM_DIAGNOSTIC_BYTES, DiagnosticSize(setup));
      this.setup := setup;
      this.ordered, this.notifications := ordered, notifications;
      this.serverRequests, this.diagnostics := serverRequests, diagnostics;
      acquisitionOrdinal, lossGeneration := 0, 0;
      selection, routing := Selection(None, None), Routing(map[], map[]);
      stdout, disposition := stream, READING;
      Repr := {this, ordered, notifications, serverRequests, diagnostics};
      new;
    }

    // ---- Lock sections ----

    /** `_next_ordered_locked`. */
    method NextOrderedLocked(
      kind: EnvelopeKind, message: Option<ServerMessage>, diagnostic: Option<Reason>, raw: Option<bytes>,
      requestMethod: Option<string>) returns (put: bool)
      requires Valid()
      modifies this`acquisitionOrdinal, ordered
      ensures Valid()
      ensures (put, Contents()) == NextOrdered(setup, old(Contents()), kind, message, diagnostic, raw, requestMethod)
    {
      var ordinal := acquisitionOrdinal;
      acquisitionOrdinal := acquisitionOrdinal + 1;
      put := ordered.PutNowait(
        AcquisitionEnvelope(ordinal, kind, message, diagnostic, RetainedRaw(raw), requestMethod));
    }

    /** `_record_loss_locked`. */
    method RecordLossLocked(reason: Reason, raw: Option<bytes>)
      requires Valid()
      modifies this`acquisitionOrdinal, this`lossGeneration, ordered, diagnostics
      ensures Valid()
      ensures Contents() == RecordLoss(setup, old(Contents()), reason, raw)
    {
      lossGeneration := lossGeneration + 1;
      var retained := diagnostics.PutNowait(reason);
      var put := NextOrderedLocked(LOSS, None, Some(Truncated(reason)), raw, None);
    }

    method OrderedOrLossLocked(kind: EnvelopeKind, message: ServerMessage, requestMethod: Option<string>)
      requires Valid()
      modifies this`acquisitionOrdinal, this`lossGeneration, ordered, diagnostics
      ensures Valid()
      ensures Contents() == OrderedOrLoss(setup, old(Contents()), kind, message, requestMethod)
    {
      var put := NextOrderedLocked(kind, Some(message), None, None, requestMethod);
      if !put {
        RecordLossLocked(AppServerOrderedEnvelopeRefusedByBoundedQueue, None);
      }
    }

    /** `_offer_message`. */
    method Offer(message: ServerMessage, serverRequest: bool)
      requires Valid()
      modifies this`acquisitionOrdinal, this`lossGeneration, ordered, diagnostics, notifications, serverRequests
      ensures Valid()
      ensures Contents() == OfferMessage(setup, old(Contents()), message, serverRequest)
    {
      var target := if serverRequest then serverRequests else notifications;
      var put := target.PutNowait(message);
      if put {
        OrderedOrLossLocked(if serverRequest then SERVER_REQUEST else NOTIFICATION, message, None);
      } else {
        RecordLossLocked(
          if serverRequest then AppServerServerRequestRefusedByBoundedQueue
          else AppServerNotificationRefusedByBoundedQueue, message.rawBytes);
      }
    }

    /** The lock section of a routed response. */
    method Route(requestId: int, requestMethod: string, response: ServerMessage)
      requires Valid()
      modifies this`acquisitionOrdinal, this`lossGeneration, this`routing, ordered, diagnostics
      ensures Valid()
      ensures (Contents(), routing.mailboxes) ==
        DeliverResponse(setup, old(Contents()), old(routing.mailboxes), requestId, requestMethod, response)
      ensures routing.pending == old(routing.pending)
    {
      if MessageBytes(setup, response) > MAXIMUM_RETAINED_ADAPTER_EVENT_BYTES {
        RecordLossLocked(AppServerResponseRefusedByRetainedEventByteBound, None);
      } else {
        OrderedOrLossLocked(CLIENT_RESPONSE, response, Some(requestMethod));
      }
      if requestId in routing.mailboxes && routing.mailboxes[requestId].Some? {
        RecordLossLocked(DuplicateAppServerResponseRefused, response.rawBytes);
      } else {
        routing := routing.(mailboxes := routing.mailboxes[requestId := Some(response.raw)]);
      }
    }

    // ---- The stdout reader ----

    /** `readline` on the pipe. */
    method Readline(limit: nat) returns (chunk: bytes)
      modifies this`stdout
      ensures chunk == Chunk(old(stdout), limit)
      ensures stdout == old(stdout)[|chunk|..]
    {
      chunk := stdout[..Shorter(LineLength(stdout), limit)];
      stdout := stdout[|chunk|..];
    }

    /** One `readline`, and the rest of the line when it was refused: the line itself, or None
        once it is known to be oversized or unterminated. */
    method NextLine() returns (line: Option<bytes>)
      requires stdout != []
      modifies this`stdout
      ensures var all := FirstLine(old(stdout));
        && stdout == old(stdout)[|all|..]
        && line == if |all| > setup.maximumLineBytes || !Terminated(all) then None else Some(all)
    {
      hide LineLength;
      ghost var all := stdout;
      var limit := setup.maximumLineBytes + 1;
      NextChunk(all, [], 0, limit);
      var raw := Readline(limit);
      ghost var k: nat := |raw|;
      if |raw| <= setup.maximumLineBytes && Terminated(raw) {
        LineLengthIs(all, k);
        return Some(raw);
      }
      SkipLine(raw, all);
      line := None;
    }

    /** Reads and drops the rest of a line whose first chunk was refused. */
    method SkipLine(first: bytes, ghost all: bytes)
      requires first != [] && ReadUpTo(all, first, |first|) && stdout == all[|first|..]
      modifies this`stdout
      ensures stdout == all[LineLength(all)..]
    {
      var limit := setup.maximumLineBytes + 1;
      var raw := first;
      ghost var k: nat := |raw|;
      while raw != [] && !Terminated(raw)
        invariant ReadUpTo(all, raw, k) && stdout == all[k..] && k > 0
        invariant raw == [] ==> k == |all| && all[k - 1] != NEWLINE
        decreases |stdout|, |raw|
      {
        NextChunk(all, raw, k, limit);
        raw := Readline(limit);
        k := k + |raw|;
      }
      LineLengthIs(all, k);
    }

    /** The lock sections that deliver one classified line. */
    method DeliverFrame(frame: Frame)
      requires Valid() && disposition.READING?
      modifies this`acquisitionOrdinal, this`lossGeneration, this`routing, this`disposition
      modifies ordered, diagnostics, notifications, serverRequests
      ensures Valid()
      ensures Fields() == Delivered(setup, old(Fields()), frame)
    {
      match frame
      case Lost(reason, bytes) => RecordLossLocked(reason, bytes);
      case Offer(message, serverRequest) => Offer(message, serverRequest);
      case Respond(id, name, response) => Route(id, name, response);
      case Break(error) =>
        disposition := FAILURE;
        RecordLossLocked(error, None);
    }

    /** The body of the loop in `_read_stdout_loop`, and the handler around it. */
    method ReadOne()
      requires Valid() && disposition.READING?
      modifies Repr
      ensures Valid()
      ensures Fields() == ReadLine(setup, old(Fields()))
      ensures disposition.READING? ==> |stdout| < |old(stdout)|
      ensures |stdout| <= |old(stdout)|
    {
      ReadLineDelivers(setup, Fields());
      if stdout == [] {
        disposition := CLEAN_EOF;
        return;
      }
      var raw := NextLine();
      if raw.None? {
        DeliverFrame(Lost(AppServerStdoutFrameRefusedByBoundedAcquisition, None));
      } else {
        var frame := Classify(setup, selection, routing, raw.value);
        selection := LearnTurn(setup, selection, frame);
        DeliverFrame(frame);
      }
    }

    /** `_read_stdout`. */
    method ReadStdout()
      requires Valid()
      modifies Repr
      ensures Valid()
      ensures Fields() == ReadAll(setup, old(Fields()))
    {
      ghost var end := ReadAll(setup, Fields());
      while disposition.READING?
        invariant Valid()
        invariant ReadAll(setup, Fields()) == end
        decreases |stdout|, if disposition.READING? then 1 else 0
      {
        ReadOne();
      }
    }

    // ---- The writer ----

    /** `_write` of a client request, up to the bytes on the pipe. */
    method WriteRequest(message: Object, name: string) returns (r: Result<bytes, Reason>)
      requires Valid()
      modifies this`acquisitionOrdinal, this`lossGeneration, this`selection, ordered, diagnostics
      ensures Valid()
      ensures match CheckRequest(setup, old(selection), message, name)
        case Err(why) => r == Err(why) && Fields() == old(Fields())
        case Ok(selected) =>
          var (put, channels) := EnqueueRequest(setup, old(Contents()), message, name);
          && selection == selected && Contents() == channels
          && r == if put then Ok(RequestWire(setup, message)) else Err(ClientRequestCustodyQueueRefusedBeforeSend)
    {
      var checked := CheckRequest(setup, selection, message, name);
      if checked.Err? {
        return Err(checked.error);
      }
      selection := checked.value;
      var wire := RequestWire(setup, message);
      var put := NextOrderedLocked(CLIENT_REQUEST, Some(ServerMessage(message, Some(wire))), None, None, Some(name));
      if !put {
        RecordLossLocked(AppServerOrderedClientRequestRefusedByBoundedQueue, None);
        return Err(ClientRequestCustodyQueueRefusedBeforeSend);
      }
      return Ok(wire);
    }

    /** `drain_ordered_acquisition`. */
    method DrainOrderedAcquisition() returns (envelopes: seq<AcquisitionEnvelope>)
      requires Valid()
      modifies ordered
      ensures Valid()
      ensures envelopes == old(ordered.Items())
      ensures Contents() == old(Contents()).(ordered := [])
    {
      envelopes := ordered.DrainAll();
    }

    // ---- The terminal cut ----

    method RecordAwait(await: Await, late: Reason) returns (exited: bool)
      requires Valid()
      modifies this`acquisitionOrdinal, this`lossGeneration, ordered, diagnostics
      ensures Valid() && exited == await.Exited?
      ensures Contents() == RecordLosses(setup, old(Contents()), AwaitLosses(await, late))
    {
      OneLoss(setup, Contents(), late);
      match await
      case Exited => exited := true;
      case StillRunning => RecordLossLocked(late, None); exited := false;
      case AwaitRaised(error) =>
        OneLoss(setup, Contents(), Reported(error));
        RecordLossLocked(Reported(error), None);
        exited := false;
    }

    method RecordRaise(raised: Option<string>)
      requires Valid()
      modifies this`acquisitionOrdinal, this`lossGeneration, ordered, diagnostics
      ensures Valid() && Contents() == RecordLosses(setup, old(Contents()), RaiseLosses(raised))
    {
      if raised.Some? {
        OneLoss(setup, Contents(), Reported(raised.value));
        RecordLossLocked(Reported(raised.value), None);
      }
    }

    method RecordJoin(join: Join, disposition: ReaderDisposition) returns (clean: bool)
      requires Valid()
      modifies this`acquisitionOrdinal, this`lossGeneration, ordered, diagnostics
      ensures Valid() && clean == (JoinLosses(join, disposition) == [])
      ensures Contents() == RecordLosses(setup, old(Contents()), JoinLosses(join, disposition))
    {
      var losses := JoinLosses(join, disposition);
      clean := losses == [];
      if !clean {
        OneLoss(setup, Contents(), losses[0]);
        RecordLossLocked(losses[0], None);
      }
    }

    /** Waiting for the process, then terminating and killing it. */
    method StopProcess(shutdown: Shutdown) returns (orderly: bool, processDisposition: ProcessDisposition)
      requires Valid() && shutdown.processPresent
      modifies this`acquisitionOrdinal, this`lossGeneration, ordered, diagnostics
      ensures Valid() && processDisposition == shutdown.Disposition()
      ensures orderly == (shutdown.ExitLosses() == [])
      ensures Contents() == RecordLosses(setup, old(Contents()), shutdown.ExitLosses())
    {
      ghost var c := Contents();
      ghost var waited := AwaitLosses(shutdown.exit, AppServerDidNotQuiesce);
      var exited := RecordAwait(shutdown.exit, AppServerDidNotQuiesce);
      if exited {
        return true, EXITED;
      }
      RecordRaise(shutdown.terminate);
      LossesConcat(setup, c, waited, RaiseLosses(shutdown.terminate));
      exited := RecordAwait(shutdown.exitAfterTerminate, AppServerDidNotExitAfterTerminate);
      ghost var terminated := waited + RaiseLosses(shutdown.terminate);
      LossesConcat(
        setup, c, terminated, AwaitLosses(shutdown.exitAfterTerminate, AppServerDidNotExitAfterTerminate));
      if exited {
        assert shutdown.ExitLosses() == terminated;
        return false, EXITED_AFTER_TERMINATE;
      }
      terminated := terminated + AwaitLosses(shutdown.exitAfterTerminate, AppServerDidNotExitAfterTerminate);
      RecordRaise(shutdown.kill);
      LossesConcat(setup, c, terminated, RaiseLosses(shutdown.kill));
      exited := RecordAwait(shutdown.exitAfterKill, AppServerFinalWaitFailed);
      LossesConcat(setup, c, terminated + RaiseLosses(shutdown.kill),
                   AwaitLosses(shutdown.exitAfterKill, AppServerFinalWaitFailed));
      return false, if exited then EXITED_AFTER_KILL else EXIT_UNCONFIRMED;
    }

    method CloseWriter(writer: WriterClose) returns (closed: bool)
      requires Valid()
      modifies this`acquisitionOrdinal, this`lossGeneration, ordered, diagnostics
      ensures Valid() && closed == (WriterLosses(writer) == [])
      ensures Contents() == RecordLosses(setup, old(Contents()), WriterLosses(writer))
    {
      var losses := WriterLosses(writer);
      closed := losses == [];
      if !closed {
        OneLoss(setup, Contents(), losses[0]);
        RecordLossLocked(losses[0], None);
      }
    }

    method JoinReaders(shutdown: Shutdown) returns (clean: bool)
      requires Valid()
      modifies this`acquisitionOrdinal, this`lossGeneration, ordered, diagnostics
      ensures Valid() && clean == (shutdown.ReaderLosses(disposition) == [])
      ensures Contents() == RecordLosses(setup, old(Contents()), shutdown.ReaderLosses(disposition))
    {
      hide RecordLosses, JoinLosses;
      LossesConcat(setup, Contents(), JoinLosses(shutdown.stdoutJoin, disposition),
                   JoinLosses(shutdown.stderrJoin, shutdown.stderrDisposition));
      var stdoutClean := RecordJoin(shutdown.stdoutJoin, disposition);
      var stderrClean := RecordJoin(shutdown.stderrJoin, shutdown.stderrDisposition);
      return stdoutClean && stderrClean;
    }

    /** Everything that is waited for while a process is present. */
    method AwaitShutdown(shutdown: Shutdown) returns (orderly: bool, processDisposition: ProcessDisposition)
      requires Valid() && shutdown.processPresent
      modifies this`acquisitionOrdinal, this`lossGeneration, ordered, diagnostics
      ensures Valid() && processDisposition == shutdown.Disposition()
      ensures orderly == (shutdown.Losses(disposition) == [])
      ensures Contents() == RecordLosses(setup, old(Contents()), shutdown.Losses(disposition))
    {
      ghost var c, closing := Contents(), WriterLosses(shutdown.writer);
      var closed := CloseWriter(shutdown.writer);
      var exited, reached := StopProcess(shutdown);
      LossesConcat(setup, c, closing, shutdown.ExitLosses());
      var clean := JoinReaders(shutdown);
      LossesConcat(setup, c, closing + shutdown.ExitLosses(), shutdown.ReaderLosses(disposition));
      return closed && exited && clean, reached;
    }

    /** `quiesce_acquisition`: every failure on the way is one more loss, and the cut is quiesced
        exactly when there was none. */
    method QuiesceAcquisition(shutdown: Shutdown) returns (cut: AcquisitionCut)
      requires Valid()
      modifies this`acquisitionOrdinal, this`lossGeneration, ordered, diagnostics
      ensures Valid()
      ensures Fields() == Shut(setup, old(Fields()), shutdown)
      ensures cut == QuiescedCut(setup, old(Fields()), shutdown)
      ensures lossGeneration == old(lossGeneration) + |shutdown.Losses(disposition)|
      ensures cut.streamQuiesced ==>
        disposition.CLEAN_EOF? && ProcessClosed(cut.processDisposition) && Contents() == old(Contents())
    {
      var quiesced, processDisposition := false, ABSENT;
      LossesAreCounted(setup, Contents(), shutdown.Losses(disposition));
      if shutdown.processPresent {
        quiesced, processDisposition := AwaitShutdown(shutdown);
      } else {
        OneLoss(setup, Contents(), AppServerAbsentAtTerminalEvidenceBoundary);
        RecordLossLocked(AppServerAbsentAtTerminalEvidenceBoundary, None);
      }
      cut := AcquisitionCut(quiesced, lossGeneration, processDisposition, acquisitionOrdinal,
        Some(setup.adapterProcessOccurrenceId), Some(setup.appServerSessionIdentity));
    }
  }
}
