/** What the mapper makes of client traffic, losses, local facts and the cut, told from the fields:
    which requests are issued, which responses retained, and which cuts are clean. */
module ClientFacts {
  import opened Wrappers
  import opened Utf8
  import opened Json
  import opened Reasons
  import opened AppServerProtocol
  import opened ProviderAdmission
  import opened ProviderFacts

  // ---- Requests ----

  function FeedClient(s: State, kind: EnvelopeKind, wire: bytes, fields: Object, name: string): Op {
    Envelope(AcquisitionEnvelope(
      s.expectedOrdinal, kind, Some(ServerMessage(fields, Some(wire))), None, None, Some(name)))
  }

  /** A whole line within the bound that decodes to this object. */
  predicate Decodes(w: World, wire: bytes, fields: Object, maximum: nat) {
    1 <= |wire| <= maximum && wire[|wire| - 1] == 10 && w.parse(wire) == Parsed(Obj(fields))
  }

  /** The mapper is open and next in line for this line. */
  predicate DeliveredWithin(cfg: Config, s: State, wire: bytes, fields: Object, maximum: nat) {
    && s.acquisitionCut.None? && 0 <= s.expectedOrdinal <= 9007199254740991
    && Decodes(cfg.world, wire, fields, maximum)
  }

  /** Only a turn's start may be longer than other requests, and not under the oldest contract. */
  function LongestRequest(contract: CaptureContract, name: string): nat {
    if name == "turn/start" && contract != LegacyV1 then 262144 else 16384
  }

  predicate SafeIdIn(fields: Object) {
    "id" in fields && fields["id"].Int? && 0 <= fields["id"].n <= 9007199254740991
  }

  function ParamsValue(fields: Object): Json {
    if "params" in fields then fields["params"] else Null
  }

  /** The methods a client may call; the fixture's own are for a deterministic fixture alone. */
  predicate MayCall(kind: ExecutableKind, name: string) {
    || name in {"initialize", "thread/start", "turn/start", "thread/read", "thread/resume"}
    || (kind == DETERMINISTIC_FIXTURE
        && name in {"fixture/provider-admission-positive", "fixture/provider-order-approval-before-created",
                    "fixture/provider-order-loss-before-created", "fixture/provider-order-duplicate-key",
                    "fixture/provider-order-nested-duplicate-key"})
  }

  /** The one input the echo contract admits: a single text item. */
  predicate SingleText(params: Json, text: string) {
    && params.Obj? && "input" in params.fields
    && params.fields["input"] == Arr([Obj(map["type" := Str("text"), "text" := Str(text)])])
  }

  function TextOf(params: Json): string {
    if && params.Obj? && "input" in params.fields && params.fields["input"].Arr? && |params.fields["input"].items| == 1
       && params.fields["input"].items[0].Obj? && "text" in params.fields["input"].items[0].fields
       && params.fields["input"].items[0].fields["text"].Str?
    then params.fields["input"].items[0].fields["text"].s else ""
  }

  /** A request in its closed shape, by a permitted method, of this thread. */
  predicate ClosedRequest(cfg: Config, name: string, fields: Object) {
    && SafeIdIn(fields)
    && (fields.Keys == {"id", "method"} || fields.Keys == {"id", "method", "params"})
    && fields["method"] == Str(name)
    && (ParamsValue(fields).Null? || ParamsValue(fields).Obj?)
    && MayCall(cfg.binding.executableKind, name)
    && (name in {"turn/start", "thread/read", "thread/resume"} ==>
          && ParamsValue(fields).Obj? && "threadId" in ParamsValue(fields).fields
          && ParamsValue(fields).fields["threadId"] == Str(cfg.binding.base.threadId))
  }

  /** The request selects the turn's input under the echo contract. */
  predicate SelectsInput(cfg: Config, name: string) {
    cfg.contract == BoundedTurnEchoV1 && name == "turn/start"
  }

  /** Where it selects an input, that is a single text and the first. */
  predicate Selectable(cfg: Config, s: State, name: string, fields: Object) {
    SelectsInput(cfg, name) ==>
      SingleText(ParamsValue(fields), TextOf(ParamsValue(fields))) && s.bounded.turnInput.None?
  }

  /** The echo bookkeeping after the selection. */
  function Selected(cfg: Config, s: State, name: string, fields: Object): Bounded {
    if SelectsInput(cfg, name) then
      s.bounded.(turnInput := Some(Arr([Obj(map[
        "type" := Str("text"), "text" := Str(TextOf(ParamsValue(fields))), "text_elements" := Arr([])])])))
    else s.bounded
  }

  lemma NormalizedMeans(value: Json, params: Json)
    requires value == GetIn(params, "input")
    ensures var n := NormalizedBoundedTurnInput(value);
      && (n.Some? <==> SingleText(params, TextOf(params)))
      && (n.Some? ==> n.value == Arr([Obj(map[
            "type" := Str("text"), "text" := Str(TextOf(params)), "text_elements" := Arr([])])]))
  {
    if NormalizedBoundedTurnInput(value).Some? {
      var item := value.items[0].fields;
      assert item == map["type" := Str("text"), "text" := item["text"]];
      assert value == Arr([Obj(item)]);
    }
    if SingleText(params, TextOf(params)) {
      var item := value.items[0].fields;
      assert item.Keys == {"type", "text"};
    }
  }

  lemma MayCallMeans(kind: ExecutableKind, name: string)
    ensures MayCall(kind, name) <==>
      !(FixtureMethod(name) && !kind.DETERMINISTIC_FIXTURE?) && (FixtureMethod(name) || OwnerMethod(name))
  {
    if name in {"initialize", "thread/start", "turn/start", "thread/read", "thread/resume"} {
      assert name[0] == 'i' || name[0] == 't';
      assert !FixtureMethod(name) by {
        FixturesStartWithF(name);
      }
    }
  }

  lemma FixturesStartWithF(name: string)
    ensures FixtureMethod(name) ==> name != "" && name[0] == 'f'
  {
    assert "fixture/provider-admission-positive"[0] == 'f';
    assert "fixture/provider-order-approval-before-created"[0] == 'f';
    assert "fixture/provider-order-loss-before-created"[0] == 'f';
    assert "fixture/provider-order-duplicate-key"[0] == 'f';
    assert "fixture/provider-order-nested-duplicate-key"[0] == 'f';
  }

  lemma RequestDecided(cfg: Config, s: State, wire: bytes, fields: Object, name: string)
    requires Decodes(cfg.world, wire, fields, LongestRequest(cfg.contract, name))
    ensures var v := DecideClientRequest(cfg, s, name, ServerMessage(fields, Some(wire)));
      var raw := CustodyOf(cfg.world, wire);
      if ClosedRequest(cfg, name, fields)
      then v == DecideSelectedInput(cfg, s, name, fields["id"].n, ParamsValue(fields), raw)
      else v.bounded == s.bounded && v.decision.Refuse?
           && v.decision.refusedMethod == "client-request/" + name && v.decision.refusedRaw == Some(raw)
  {
    hide FixtureMethod, OwnerMethod, MayCall, DecideSelectedInput;
    MayCallMeans(cfg.binding.executableKind, name);
    var message := ServerMessage(fields, Some(wire));
    assert WireCustody(cfg.world, message, ClientRequestByteBound(Some(name), cfg.contract)) == Ok(CustodyOf(cfg.world, wire));
    assert Get(fields, "params") == ParamsValue(fields);
    assert {"id", "method"} + {"params"} == {"id", "method", "params"} && {"id", "method"} + {} == {"id", "method"};
    assert "params" != "id" && "params" != "method";
  }

  lemma SelectionDecided(cfg: Config, s: State, wire: bytes, fields: Object, name: string)
    requires ClosedRequest(cfg, name, fields)
    ensures var raw, params, id := CustodyOf(cfg.world, wire), ParamsValue(fields), fields["id"].n;
      var v := DecideSelectedInput(cfg, s, name, id, params, raw);
      && v.bounded == (if Selectable(cfg, s, name, fields) then Selected(cfg, s, name, fields) else s.bounded)
      && (if Selectable(cfg, s, name, fields) && id !in s.clientRequests then
            if cfg.world.canonical(params).Some?
            then v.decision == Issue(id, name, cfg.world.sha256(cfg.world.canonical(params).value), raw)
            else v.decision.Crash?
          else v.decision.Refuse? && v.decision.refusedMethod == "client-request/" + name
               && v.decision.refusedRaw == Some(raw))
  {
    hide ClosedRequest, SingleText, TextOf, NormalizedBoundedTurnInput;
    NormalizedMeans(GetIn(ParamsValue(fields), "input"), ParamsValue(fields));
  }

  /** A client request in custody is issued exactly when it is closed, selects at most the first
      input, and its number is not outstanding. Where its params have no canonical form the call
      raises instead; anything else is distrusted. */
  lemma ClientRequestExactly(cfg: Config, s: State, wire: bytes, fields: Object, name: string)
    requires 1 <= |name| <= 512
    requires DeliveredWithin(cfg, s, wire, fields, LongestRequest(cfg.contract, name))
    ensures var out := Step(cfg, s, FeedClient(s, CLIENT_REQUEST, wire, fields, name));
      var at, raw := Origin(s, CLIENT_REQUEST), Some(CustodyOf(cfg.world, wire));
      var next := s.(expectedOrdinal := s.expectedOrdinal + 1);
      var tag := "client-request/" + name;
      if !ClosedRequest(cfg, name, fields) || !Selectable(cfg, s, name, fields) then
        Distrusts(cfg, s, out, at, next, tag, raw)
      else
        var id, chosen := fields["id"].n, next.(bounded := Selected(cfg, s, name, fields));
        if id in s.clientRequests then Distrusts(cfg, s, out, at, chosen, tag, raw)
        else
          var text := cfg.world.canonical(ParamsValue(fields));
          if text.None? then out.Raised?
          else
            var digest := cfg.world.sha256(text.value);
            Keeps(cfg, s, out, at, chosen.(clientRequests := s.clientRequests[id := ClientRequest(id, name, digest)]),
              CLIENT_REQUEST_ISSUED, tag, raw, ClientRequestFacts(id, name, digest))
  {
    hide Emit, Keeps, Distrusts, Mark, Atomic, DecideClientRequest, DecideSelectedInput, ClosedRequest, Selectable, Selected;
    var next, at, raw := s.(expectedOrdinal := s.expectedOrdinal + 1), Origin(s, CLIENT_REQUEST), CustodyOf(cfg.world, wire);
    RequestDecided(cfg, next, wire, fields, name);
    if ClosedRequest(cfg, name, fields) {
      SelectionDecided(cfg, next, wire, fields, name);
      SameSelection(cfg, s, next.expectedOrdinal, name, fields);
    }
    var v := DecideClientRequest(cfg, next, name, ServerMessage(fields, Some(wire)));
    ClientStep(cfg, s, CLIENT_REQUEST, wire, fields, name, v);
    var after := next.(bounded := v.bounded);
    match v.decision
    case Refuse(_, _, _) => RefuseDistrusts(cfg, s, after, at, v.decision);
    case Crash(_) => RaisesOnCrash(cfg, s, after, at, v.decision);
    case Issue(id, _, digest, _) =>
      EmitKeeps(cfg, s, after.(clientRequests := s.clientRequests[id := ClientRequest(id, name, digest)]), at,
        CLIENT_REQUEST_ISSUED, "client-request/" + name, Some(raw), ClientRequestFacts(id, name, digest));
  }

  lemma SameSelection(cfg: Config, s: State, expected: int, name: string, fields: Object)
    ensures Selectable(cfg, s.(expectedOrdinal := expected), name, fields) <==> Selectable(cfg, s, name, fields)
    ensures Selected(cfg, s.(expectedOrdinal := expected), name, fields) == Selected(cfg, s, name, fields)
  {
  }

  lemma RaisesOnCrash(cfg: Config, s: State, after: State, at: Acquisition, d: Decision)
    requires d.Crash?
    ensures Atomic(s, Apply(cfg, after, at, d)).Raised?
  {
  }

  /** Client traffic in order and in shape is decided by its own rule. */
  lemma ClientStep(
    cfg: Config, s: State, kind: EnvelopeKind, wire: bytes, fields: Object, name: string, v: Verdict)
    requires s.acquisitionCut.None? && 0 <= s.expectedOrdinal <= 9007199254740991 && 1 <= |name| <= 512
    requires var next, message := s.(expectedOrdinal := s.expectedOrdinal + 1), ServerMessage(fields, Some(wire));
      || (kind.CLIENT_REQUEST? && v == DecideClientRequest(cfg, next, name, message))
      || (kind.CLIENT_RESPONSE? && v == Verdict(DecideClientResponse(cfg, next, name, message), s.bounded))
    ensures Step(cfg, s, FeedClient(s, kind, wire, fields, name)) ==
      Atomic(s, Apply(cfg, s.(expectedOrdinal := s.expectedOrdinal + 1, bounded := v.bounded), Origin(s, kind), v.decision))
  {
    hide DecideClientRequest, DecideClientResponse, Apply;
  }

  // ---- Responses ----

  /** The response answers this outstanding request with a result of this thread and turn. */
  predicate AnswersRequest(base: BaseFields, s: State, name: string, fields: Object) {
    && SafeIdIn(fields) && fields["id"].n in s.clientRequests
    && s.clientRequests[fields["id"].n].methodName == name
    && fields.Keys == {"id", "result"} && fields["result"].Obj?
    && var result := fields["result"].fields;
    && (name in {"thread/start", "thread/read", "thread/resume"} ==> IdOf(result, "thread", base.threadId))
    && (name == "turn/start" ==> IdOf(result, "turn", base.turnId))
  }

  lemma ResponseDecided(cfg: Config, s: State, wire: bytes, fields: Object, name: string)
    requires Decodes(cfg.world, wire, fields, 16384)
    ensures var d, raw := DecideClientResponse(cfg, s, name, ServerMessage(fields, Some(wire))), CustodyOf(cfg.world, wire);
      if AnswersRequest(cfg.binding.base, s, name, fields) then
        var id, text := fields["id"].n, cfg.world.canonical(fields["result"]);
        if text.Some?
        then d == Retain(id, name, s.clientRequests[id].paramsDigest, cfg.world.sha256(text.value), raw)
        else d.Crash?
      else d.Refuse? && d.refusedMethod == "client-response/" + name && d.refusedRaw == Some(raw)
  {
    var message := ServerMessage(fields, Some(wire));
    assert WireCustody(cfg.world, message, MAXIMUM_RAW_EVIDENCE_BYTES) == Ok(CustodyOf(cfg.world, wire));
    assert "thread/start"[0] == 't' && |"thread/start"| == 12 && |"turn/start"| == 10;
    assert |"thread/read"| == 11 && |"thread/resume"| == 13;
  }

  /** A client response in custody is retained exactly when it answers an outstanding request, and
      that request is outstanding no more. */
  lemma ClientResponseExactly(cfg: Config, s: State, wire: bytes, fields: Object, name: string)
    requires 1 <= |name| <= 512 && DeliveredWithin(cfg, s, wire, fields, 16384)
    ensures var out := Step(cfg, s, FeedClient(s, CLIENT_RESPONSE, wire, fields, name));
      var at, raw := Origin(s, CLIENT_RESPONSE), Some(CustodyOf(cfg.world, wire));
      var next := s.(expectedOrdinal := s.expectedOrdinal + 1);
      var tag := "client-response/" + name;
      if !AnswersRequest(cfg.binding.base, s, name, fields) then Distrusts(cfg, s, out, at, next, tag, raw)
      else
        var id := fields["id"].n;
        var text := cfg.world.canonical(fields["result"]);
        if text.None? then out.Raised?
        else
          Keeps(cfg, s, out, at, next.(clientRequests := s.clientRequests - {id}), CLIENT_RESPONSE_RETAINED, tag, raw,
            ClientResponseFacts(id, name, s.clientRequests[id].paramsDigest, cfg.world.sha256(text.value)))
  {
    hide Emit, Keeps, Distrusts, Mark, Atomic, DecideClientResponse, AnswersRequest;
    var next, at, raw := s.(expectedOrdinal := s.expectedOrdinal + 1), Origin(s, CLIENT_RESPONSE), CustodyOf(cfg.world, wire);
    ResponseDecided(cfg, next, wire, fields, name);
    SameAnswer(cfg.binding.base, s, next.expectedOrdinal, name, fields);
    var d := DecideClientResponse(cfg, next, name, ServerMessage(fields, Some(wire)));
    ClientStep(cfg, s, CLIENT_RESPONSE, wire, fields, name, Verdict(d, s.bounded));
    assert next.(bounded := s.bounded) == next;
    match d
    case Refuse(_, _, _) => RefuseDistrusts(cfg, s, next, at, d);
    case Crash(_) => RaisesOnCrash(cfg, s, next, at, d);
    case Retain(id, _, digest, resultDigest, _) =>
      EmitKeeps(cfg, s, next.(clientRequests := s.clientRequests - {id}), at, CLIENT_RESPONSE_RETAINED,
        "client-response/" + name, Some(raw), ClientResponseFacts(id, name, digest, resultDigest));
  }

  lemma SameAnswer(base: BaseFields, s: State, expected: int, name: string, fields: Object)
    ensures AnswersRequest(base, s.(expectedOrdinal := expected), name, fields) <==> AnswersRequest(base, s, name, fields)
    ensures AnswersRequest(base, s, name, fields) ==>
      "id" in fields && fields["id"].Int? && "result" in fields && fields["id"].n in s.clientRequests
  {
  }

  // ---- Losses, legacy facts and the cut ----

  /** A reported loss is always distrusted while the mapper is open. */
  lemma LossExactly(cfg: Config, s: State, detail: Reason)
    ensures var out := Step(cfg, s, Loss(detail));
      if s.acquisitionCut.Some? then out.Raised?
      else Distrusts(cfg, s, out, UNORDERED, s, "adapter/acquisition", None)
  {
    hide Mark, Distrusts;
    if s.acquisitionCut.None? {
      MarkDistrusts(cfg, s, s, UNORDERED, detail, NO_METHOD, None);
    }
  }

  /** A legacy fact is kept exactly when it is one of the four known ones. */
  lemma LegacyExactly(cfg: Config, s: State, kind: string)
    ensures var out := Step(cfg, s, Legacy(kind));
      if s.acquisitionCut.Some? then out.Raised?
      else if kind in {"thread/start", "turn/start", "turn/started", "worker_started"}
      then Keeps(cfg, s, out, UNORDERED, s, LOCAL_TURN_FACT, kind, None, ProvesNothing)
      else Distrusts(cfg, s, out, UNORDERED, s, kind, None)
  {
    hide Mark, Emit, Distrusts, Keeps;
    if s.acquisitionCut.None? {
      MarkDistrusts(cfg, s, s, UNORDERED, UnknownLegacyLocalTurnFact, kind, None);
      EmitKeeps(cfg, s, s, UNORDERED, LOCAL_TURN_FACT, kind, None, ProvesNothing);
    }
  }

  /** All six facts a clean cut needs. */
  predicate AllWell(s: State, cut: AcquisitionCut) {
    && cut.streamQuiesced && cut.lossGeneration == 0
    && cut.processDisposition in {EXITED, EXITED_AFTER_TERMINATE, EXITED_AFTER_KILL}
    && cut.orderedHighWater == s.expectedOrdinal
    && s.clientRequests == map[]
    && s.mechanism in {M_PROVIDER_COMPLETED, M_PARKED_NOT_ADMITTED}
  }

  /** A cut of this very process and session, with facts in range. */
  predicate OwnCut(base: BaseFields, cut: AcquisitionCut) {
    && cut.adapterProcessOccurrenceId == Some(base.adapterProcessOccurrenceId)
    && cut.appServerSessionIdentity == Some(base.appServerSessionIdentity)
    && 0 <= cut.lossGeneration <= 9007199254740991 && 0 <= cut.orderedHighWater <= 9007199254740991
    && cut.processDisposition != FOREIGN
  }

  /** The first cut of its own closes the mapper, and closes it clean exactly when all is well;
      any other cut raises. */
  lemma CutExactly(cfg: Config, s: State, cut: AcquisitionCut)
    ensures var out := Step(cfg, s, Cut(cut));
      if s.acquisitionCut.Some? || !OwnCut(cfg.binding.base, cut) then out.Raised?
      else
        var facts := CutFacts(
          cfg.binding.base.adapterProcessOccurrenceId, cfg.binding.base.appServerSessionIdentity, cut.streamQuiesced,
          cut.lossGeneration, cut.processDisposition, cut.orderedHighWater, s.expectedOrdinal, |s.clientRequests|,
          AllWell(s, cut));
        var closed := s.(acquisitionCut := Some(facts));
        Keeps(cfg, s, out, UNORDERED,
          if AllWell(s, cut) then closed
          else if s.identity.None?
          then closed.(disposition := ADMISSION_INDETERMINATE, mechanism := M_ADMISSION_INDETERMINATE)
          else closed.(mechanism := M_POST_ADMISSION_INTERRUPTED),
          RecordKind.ACQUISITION_CUT, "adapter/acquisition-cut", None, CutNormalized(facts))
  {
    hide Emit, Keeps;
    if s.acquisitionCut.None? && OwnCut(cfg.binding.base, cut) {
      var d := DecideCut(cfg, s, cut);
      EmitKeeps(cfg, s, Closed(s, d.cutFacts), UNORDERED, RecordKind.ACQUISITION_CUT, "adapter/acquisition-cut", None,
        CutNormalized(d.cutFacts));
    }
  }

  // ---- Envelopes out of order or out of shape ----

  /** An envelope whose ordinal is not the expected one is distrusted, and what is expected next
      never goes back. */
  lemma OutOfOrderExactly(cfg: Config, s: State, e: AcquisitionEnvelope)
    requires e.ordinal != s.expectedOrdinal && s.acquisitionCut.None? && 0 <= e.ordinal <= 9007199254740991
    ensures var out := Step(cfg, s, Envelope(e));
      Distrusts(cfg, s, out, Acquisition(Some(e.ordinal), Some(e.kind)),
        s.(expectedOrdinal := if e.ordinal + 1 > s.expectedOrdinal then e.ordinal + 1 else s.expectedOrdinal),
        "adapter/acquisition", None)
  {
    hide Mark, Distrusts, DecideInOrder;
    MarkDistrusts(cfg, s, s.(expectedOrdinal := NextExpected(s.expectedOrdinal, e.ordinal)),
      Acquisition(Some(e.ordinal), Some(e.kind)), GAP, NO_METHOD, None);
  }
}
