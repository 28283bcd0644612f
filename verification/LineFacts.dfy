/** What the client makes of each stdout line and of each request, told from the fields: which
    lines are notifications, server requests or answers, and what acquiring them takes. */
module LineFacts {
  import opened Wrappers
  import opened Utf8
  import opened Json
  import opened Reasons
  import opened AppServerProtocol
  import opened ByteBoundedQueue
  import opened OrderedAcquisition
  import opened AcquisitionRuns

  // ---- Lines ----

  /** A whole line within the bound that decodes to this object. */
  predicate ReadsAs(setup: Setup, line: bytes, fields: Object) {
    && 1 <= |line| <= setup.maximumLineBytes && line[|line| - 1] == 10
    && setup.parse(line) == Decoded(Obj(fields))
  }

  /** A usable method, and params that are an object if there are any. */
  predicate NamesMethod(fields: Object) {
    && "method" in fields && fields["method"].Str? && fields["method"].s != ""
    && ("params" in fields ==> fields["params"].Obj?)
  }

  /** An answer to a request that is awaited. */
  predicate AnswersPending(routing: Routing, fields: Object) {
    "method" !in fields && "id" in fields && fields["id"].Int? && fields["id"].n in routing.pending
  }

  /** A line within the bound is a notification exactly when it names a method and has no id, a
      server request exactly when it has an integer one, and an answer exactly when it has no
      method and a pending id. A line of more than 16 KiB needs to be selected for the first two.
      Everything else is lost. */
  lemma LineExactly(
    setup: Setup, selection: Selection, routing: Routing, line: bytes, fields: Object, selected: bool)
    requires ReadsAs(setup, line, fields)
    requires SelectsFrame(setup, selection, ServerMessage(fields, Some(line)), line) == Some(selected)
    ensures var frame, message := Classify(setup, selection, routing, line), ServerMessage(fields, Some(line));
      var offered := NamesMethod(fields) && (|line| <= 16384 || selected);
      && (frame == Offer(message, false) <==> offered && "id" !in fields)
      && (frame == Offer(message, true) <==> offered && "id" in fields && fields["id"].Int?)
      && (AnswersPending(routing, fields) ==> frame == Respond(fields["id"].n, routing.pending[fields["id"].n], message))
      && (!offered || ("id" in fields && !fields["id"].Int?) ==> !AnswersPending(routing, fields) ==> frame.Lost?)
      && (frame.Respond? ==> AnswersPending(routing, fields))
  {
    hide SelectsFrame;
  }

  /** Outside the echo contract nothing is selected. */
  lemma NothingSelected(setup: Setup, selection: Selection, message: ServerMessage, line: bytes)
    requires setup.contract != BoundedTurnEchoV1
    ensures SelectsFrame(setup, selection, message, line) == Some(false)
  {
  }

  /** A line that is too long, unterminated, undecodable or no object is lost. */
  lemma UnreadLineIsLost(setup: Setup, selection: Selection, routing: Routing, line: bytes)
    requires forall fields: Object :: !ReadsAs(setup, line, fields)
    ensures var frame := Classify(setup, selection, routing, line); frame.Lost? || frame.Break?
    ensures Classify(setup, selection, routing, line).Break? ==> setup.parse(line).Fatal?
  {
    if |line| <= setup.maximumLineBytes && Terminated(line) && setup.parse(line).Decoded? && setup.parse(line).value.Obj? {
      assert ReadsAs(setup, line, setup.parse(line).value.fields);
    }
  }

  // ---- Acquiring what was read ----

  function Acquired(c: Channels, kind: EnvelopeKind, message: ServerMessage, requestMethod: Option<string>)
    : AcquisitionEnvelope
  {
    AcquisitionEnvelope(c.ordinal, kind, Some(message), None, None, requestMethod)
  }

  /** A server request is acquired exactly when its own queue has a place and enough bytes left
      and the ordered queue takes its envelope; otherwise it is one loss. */
  lemma ServerRequestAcquiredExactly(setup: Setup, c: Channels, message: ServerMessage)
    ensures var c', e := OfferMessage(setup, c, message, true), Acquired(c, SERVER_REQUEST, message, None);
      if && (setup.messageBound.items == 0 || |c.serverRequests| < setup.messageBound.items)
         && TotalBytes(MessageSize(setup), c.serverRequests) + MessageBytes(setup, message) <= setup.messageBound.bytes
         && OrderedFits(setup, c, e)
      then c' == c.(serverRequests := c.serverRequests + [message], ordered := c.ordered + [e], ordinal := c.ordinal + 1)
      else c'.lossGeneration == c.lossGeneration + 1
  {
    assert MessageSize(setup)(message) == MessageBytes(setup, message);
  }

  /** The same for a notification. */
  lemma NotificationAcquiredExactly(setup: Setup, c: Channels, message: ServerMessage)
    ensures var c', e := OfferMessage(setup, c, message, false), Acquired(c, NOTIFICATION, message, None);
      if && (setup.messageBound.items == 0 || |c.notifications| < setup.messageBound.items)
         && TotalBytes(MessageSize(setup), c.notifications) + MessageBytes(setup, message) <= setup.messageBound.bytes
         && OrderedFits(setup, c, e)
      then c' == c.(notifications := c.notifications + [message], ordered := c.ordered + [e], ordinal := c.ordinal + 1)
      else c'.lossGeneration == c.lossGeneration + 1
  {
    assert MessageSize(setup)(message) == MessageBytes(setup, message);
  }

  /** An answer is acquired, and handed to its waiter, exactly when it is within 16 KiB, the ordered
      queue takes it and the waiter has no answer yet; otherwise it is at least one loss. */
  lemma AnswerAcquiredExactly(
    setup: Setup, c: Channels, mailboxes: map<int, Option<Object>>, id: int, name: string, response: ServerMessage)
    ensures var (c', mailboxes') := DeliverResponse(setup, c, mailboxes, id, name, response);
      var e := Acquired(c, CLIENT_RESPONSE, response, Some(name));
      if MessageBytes(setup, response) <= 16384 && OrderedFits(setup, c, e) && !(id in mailboxes && mailboxes[id].Some?)
      then c' == c.(ordered := c.ordered + [e], ordinal := c.ordinal + 1) && mailboxes' == mailboxes[id := Some(response.raw)]
      else c'.lossGeneration > c.lossGeneration
  {
  }

  /** What an envelope weighs on the ordered queue: 64 bytes and its parts. */
  lemma EnvelopeWeighs(setup: Setup, c: Channels, kind: EnvelopeKind, message: ServerMessage, requestMethod: Option<string>)
    ensures var e := Acquired(c, kind, message, requestMethod);
      && EnvelopeBytes(setup, e) == 64 + MessageBytes(setup, message) +
           (if requestMethod.Some? then |Encode(requestMethod.value)| else 0)
      && (OrderedFits(setup, c, e) <==>
            && (setup.orderedBound.items == 0 || |c.ordered| < setup.orderedBound.items)
            && TotalBytes(EnvelopeSize(setup), c.ordered) + EnvelopeBytes(setup, e) <= setup.orderedBound.bytes)
  {
    assert EnvelopeSize(setup)(Acquired(c, kind, message, requestMethod))
      == EnvelopeBytes(setup, Acquired(c, kind, message, requestMethod));
  }

  /** A loss moves the generation and spends an ordinal; its reason stays with the diagnostics while
      64 of them and 64 KiB are not full, and its envelope carries the reason and the lost bytes, up to
      16 KiB of them, if the ordered queue takes it. */
  lemma LossExactly(setup: Setup, c: Channels, reason: Reason, raw: Option<bytes>)
    ensures var size := |Encode(setup.text(reason))|;
      var kept := |c.diagnostics| < 64 && TotalBytes(DiagnosticSize(setup), c.diagnostics) + size <= 65536;
      var c1 := c.(lossGeneration := c.lossGeneration + 1, ordinal := c.ordinal + 1,
                   diagnostics := if kept then c.diagnostics + [reason] else c.diagnostics);
      var e := AcquisitionEnvelope(c.ordinal, LOSS, None, Some(Truncated(reason)),
                                   if raw.Some? && |raw.value| <= 16384 then raw else None, None);
      RecordLoss(setup, c, reason, raw) == if OrderedFits(setup, c, e) then c1.(ordered := c.ordered + [e]) else c1
  {
    assert DiagnosticSize(setup)(reason) == |Encode(setup.text(reason))|;
  }

  /** In any run: a server request at hand that fits is in the ordered queue after its delivery. */
  lemma FittingRequestIsIssued(setup: Setup, m: Machine, message: ServerMessage)
    requires m.client.reader.held.Some? && m.client.reader.held.value.frame == Offer(message, true)
    requires var c := m.client.channels;
      && (setup.messageBound.items == 0 || |c.serverRequests| < setup.messageBound.items)
      && TotalBytes(MessageSize(setup), c.serverRequests) + MessageBytes(setup, message) <= setup.messageBound.bytes
      && OrderedFits(setup, c, Acquired(c, SERVER_REQUEST, message, None))
    ensures var m', c := Next(setup, m, ReaderDeliver), m.client.channels;
      && EverIssued(m') == EverIssued(m) + [Acquired(c, SERVER_REQUEST, message, None)]
      && m'.client.reader.held.None? && m'.client.channels.lossGeneration == c.lossGeneration
  {
    hide OfferMessage;
    ServerRequestAcquiredExactly(setup, m.client.channels, message);
    assert m.drained + (m.client.channels.ordered + [Acquired(m.client.channels, SERVER_REQUEST, message, None)])
      == (m.drained + m.client.channels.ordered) + [Acquired(m.client.channels, SERVER_REQUEST, message, None)];
  }

  // ---- Requests and the turn they become ----

  /** Where the echo contract selects an input: a thread, one text, and no selection before. */
  predicate SelectsOnce(selection: Selection, message: Object, threadId: string, text: string) {
    && selection.echo.None? && "params" in message && message["params"].Obj?
    && var params := message["params"].fields;
    && "threadId" in params && params["threadId"] == Str(threadId) && 1 <= |threadId| <= 512
    && "input" in params && params["input"] == Arr([Obj(map["type" := Str("text"), "text" := Str(text)])])
  }

  /** A request other than an input selection is written exactly when it names its method and is
      within its bound. */
  lemma PlainRequestExactly(setup: Setup, selection: Selection, message: Object, name: string)
    requires setup.contract != BoundedTurnEchoV1 || name != "turn/start"
    ensures var maximum := if name == "turn/start" && setup.contract != LegacyV1 then 262144 else 16384;
      var r := CheckRequest(setup, selection, message, name);
      && (r.Ok? <==> "method" in message && message["method"] == Str(name) && |RequestWire(setup, message)| <= maximum)
      && (r.Ok? ==> r.value == selection)
  {
  }

  /** A turn's start under the echo contract is written exactly when it also selects the one input. */
  lemma SelectingRequestExactly(setup: Setup, selection: Selection, message: Object)
    requires setup.contract == BoundedTurnEchoV1
    ensures var r := CheckRequest(setup, selection, message, "turn/start");
      && (r.Ok? <==>
            && "method" in message && message["method"] == Str("turn/start") && |RequestWire(setup, message)| <= 262144
            && exists threadId, text :: SelectsOnce(selection, message, threadId, text))
      && forall threadId, text | r.Ok? && SelectsOnce(selection, message, threadId, text) ::
           r.value == selection.(echo := Some((threadId, Arr([Obj(map[
             "type" := Str("text"), "text" := Str(text), "text_elements" := Arr([])])]))))
  {
    hide RequestWire;
    var r := CheckRequest(setup, selection, message, "turn/start");
    if r.Ok? {
      var params := message["params"].fields;
      var item := params["input"].items[0].fields;
      assert item == map["type" := Str("text"), "text" := item["text"]];
      assert params["input"] == Arr([Obj(item)]);
      assert SelectsOnce(selection, message, params["threadId"].s, item["text"].s);
    }
    forall threadId, text | SelectsOnce(selection, message, threadId, text)
      ensures NormalizedBoundedTurnInput(Get(message["params"].fields, "input"))
        == Some(Arr([Obj(map["type" := Str("text"), "text" := Str(text), "text_elements" := Arr([])])]))
    {
      var item := map["type" := Str("text"), "text" := Str(text)];
      assert item.Keys == {"type", "text"};
    }
  }

  /** The turn is learned from the answer to its start, and from nothing else. */
  lemma TurnLearnedExactly(setup: Setup, selection: Selection, frame: Frame)
    ensures var selection' := LearnTurn(setup, selection, frame);
      if && setup.contract == BoundedTurnEchoV1 && frame.Respond? && frame.requestMethod == "turn/start"
         && "result" in frame.response.raw && frame.response.raw["result"].Obj?
         && var result := frame.response.raw["result"].fields;
         && "turn" in result && result["turn"].Obj? && "id" in result["turn"].fields
         && result["turn"].fields["id"].Str? && 1 <= |result["turn"].fields["id"].s| <= 512
      then selection' == selection.(turnId := Some(frame.response.raw["result"].fields["turn"].fields["id"].s))
      else selection' == selection
  {
  }
}
