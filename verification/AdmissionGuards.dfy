/** What each decision may rely on: the guards that the validation code has established by
    the time a decision is applied. */
module AdmissionGuards {
  import opened Wrappers
  import opened Json
  import opened AppServerProtocol
  import opened Reasons
  import opened ProviderAdmission

  /** Provider evidence is still admissible. */
  predicate Open(s: State) {
    && !s.disposition.ADMISSION_INDETERMINATE?
    && !s.mechanism.M_PROVIDER_COMPLETED?
    && !s.mechanism.M_POST_ADMISSION_INTERRUPTED?
  }

  predicate OpenForProvider(s: State) {
    Open(s) && !s.mechanism.M_WAITING_APPROVAL?
  }

  /** The guard of every decision that changes admission state. */
  predicate Enabled(cfg: Config, s: State, d: Decision) {
    match d
    case Crash(_) => true
    case Refuse(_, _, _) => true
    case Watermark(_, _) => true
    case LegacyFact(_) => true
    case LocalFact(_, _, completes) =>
      completes ==>
        Open(s) && s.identity.Some? && s.pending.None? && s.openResponseId.None? && !s.mechanism.M_WAITING_APPROVAL?
    case Issue(id, _, _, _) => id !in s.clientRequests
    case Retain(id, name, digest, _, _) =>
      id in s.clientRequests && s.clientRequests[id].methodName == name && s.clientRequests[id].paramsDigest == digest
    case BeginRequest(request, startedAtMs, _) =>
      && OpenForProvider(s)
      && !s.disposition.NOT_ADMITTED_MODEL_AT_CAPACITY?
      && s.pending.None? && s.openResponseId.None?
      && request.ordinal == request.order == |s.completedRequests|
      && request.occurrenceId !in s.completedRequests
      && (request.ordinal > 0 ==> s.identity.Some?)
      && (s.lastBoundaryMs.Some? ==> s.lastBoundaryMs.value <= startedAtMs)
    case BeginResponse(request, responseId, observedAtMs, _) =>
      && OpenForProvider(s)
      && s.pending == Some(request)
      && !PrecedesPending(s, observedAtMs)
      && !ResponseKnown(s.records, Str(responseId))
    case Park(request, _, _, observedAtMs, _) =>
      && OpenForProvider(s)
      && s.pending == Some(request)
      && s.identity.None?
      && !PrecedesPending(s, observedAtMs)
    case FinishResponse(responseId, _) =>
      && OpenForProvider(s)
      && s.identity.Some?
      && s.openResponseId == Some(responseId)
    case Surface(_, identity, _) =>
      && OpenForProvider(s)
      && s.identity == Some(identity)
      && s.openResponseId.None?
    case Close(facts) =>
      && s.acquisitionCut.None?
      && (facts.clean ==> s.clientRequests == map[] && s.mechanism in {M_PROVIDER_COMPLETED, M_PARKED_NOT_ADMITTED})
      && (facts.clean ==> facts.orderedHighWater == s.expectedOrdinal && facts.lossGeneration == 0 && facts.streamQuiesced)
  }

  /** Guards mention neither the expected ordinal nor the echo bookkeeping. */
  lemma GuardsIgnoreBookkeeping(cfg: Config, s: State, d: Decision, expected: int, b: Bounded)
    requires Enabled(cfg, s, d) && !d.Close?
    ensures Enabled(cfg, s.(expectedOrdinal := expected, bounded := b), d)
  {
  }

  lemma SelectedInputGuard(
    cfg: Config, s: State, requestMethod: string, requestId: int, params: Json, raw: RawCustody)
    ensures Enabled(cfg, s, DecideSelectedInput(cfg, s, requestMethod, requestId, params, raw).decision)
  {
    assert Enabled(cfg, s, DecideIssue(cfg, s, requestMethod, requestId, params, raw));
  }

  lemma ClientRequestGuard(cfg: Config, s: State, requestMethod: string, message: ServerMessage)
    ensures Enabled(cfg, s, DecideClientRequest(cfg, s, requestMethod, message).decision)
  {
    var custody := WireCustody(cfg.world, message, ClientRequestByteBound(Some(requestMethod), cfg.contract));
    if custody.Ok? && SafeId(Get(message.raw, "id")) {
      SelectedInputGuard(cfg, s, requestMethod, message.raw["id"].n, Get(message.raw, "params"), custody.value);
    }
  }

  lemma ClientResponseGuard(cfg: Config, s: State, requestMethod: string, message: ServerMessage)
    ensures Enabled(cfg, s, DecideClientResponse(cfg, s, requestMethod, message))
  {
  }

  predicate BoundaryNotification(name: string) {
    || name == "providerRequest/started" || name == "rawResponse/started"
    || name == "providerAdmission/refused" || name == "rawResponse/completed"
  }

  lemma BoundaryPrefix(name: string)
    requires BoundaryNotification(name)
    ensures ProviderBoundaryMethod(name)
  {
    assert "providerRequest/started"[..16] == "providerRequest/";
    assert "rawResponse/started"[..12] == "rawResponse/";
    assert "providerAdmission/refused"[..18] == "providerAdmission/";
    assert "rawResponse/completed"[..12] == "rawResponse/";
  }

  lemma BoundaryGuards(cfg: Config, s: State, params: Object, raw: RawCustody)
    requires OpenForProvider(s)
    ensures Enabled(cfg, s, DecideProviderRequest(cfg, s, params, raw))
    ensures Enabled(cfg, s, DecideResponseStarted(cfg, s, params, raw))
  {
  }

  lemma ClosingGuards(cfg: Config, s: State, params: Object, raw: RawCustody)
    requires OpenForProvider(s)
    ensures Enabled(cfg, s, DecideRefusal(cfg, s, params, raw))
    ensures Enabled(cfg, s, DecideResponseCompleted(cfg, s, params, raw))
  {
  }

  lemma TurnFactGuard(cfg: Config, s: State, name: string, message: ServerMessage, selected: bool, raw: RawCustody)
    requires Open(s)
    ensures Enabled(cfg, s, DecideTurnFact(cfg, s, name, message, selected, raw).decision)
  {
  }

  lemma NotificationGuard(
    cfg: Config, s: State, name: string, message: ServerMessage, selected: bool, raw: RawCustody)
    requires DecideClosed(s, name, false, raw).None?
    ensures Enabled(cfg, s, DecideNotification(cfg, s, name, message, selected, raw).decision)
  {
    if BoundaryNotification(name) {
      BoundaryPrefix(name);
      BoundaryGuards(cfg, s, message.Params(), raw);
      ClosingGuards(cfg, s, message.Params(), raw);
    }
    TurnFactGuard(cfg, s, name, message, selected, raw);
  }

  lemma CustodiedGuard(
    cfg: Config, s: State, message: ServerMessage, serverRequest: bool, selected: bool, raw: RawCustody)
    ensures Enabled(cfg, s, DecideCustodied(cfg, s, message, serverRequest, selected, raw).decision)
  {
    if message.MethodName().Some? {
      var name := message.MethodName().value;
      if DecideClosed(s, name, serverRequest, raw).None? && !serverRequest {
        NotificationGuard(cfg, s, name, message, selected, raw);
      }
    }
  }

  /** Every decision reached for a server message is guarded. */
  lemma MessageGuard(cfg: Config, s: State, message: ServerMessage, serverRequest: bool)
    ensures Enabled(cfg, s, DecideMessage(cfg, s, message, serverRequest).decision)
    ensures !DecideMessage(cfg, s, message, serverRequest).decision.Close?
  {
    var selected := SelectedEcho(cfg, s, message);
    if selected.Some? {
      var custody := WireCustody(cfg.world, message,
        if selected.value then MAXIMUM_USER_INPUT_ECHO_BYTES else MAXIMUM_RAW_EVIDENCE_BYTES);
      if custody.Ok? {
        CustodiedGuard(cfg, s, message, serverRequest, selected.value, custody.value);
      }
    }
  }

  lemma InOrderGuard(cfg: Config, s: State, e: AcquisitionEnvelope)
    ensures Enabled(cfg, s, DecideInOrder(cfg, s, e).decision)
    ensures !DecideInOrder(cfg, s, e).decision.Close?
  {
    if e.message.Some? {
      MessageGuard(cfg, s, e.message.value, e.kind.SERVER_REQUEST?);
      if e.requestMethod.Some? {
        ClientRequestGuard(cfg, s, e.requestMethod.value, e.message.value);
        ClientResponseGuard(cfg, s, e.requestMethod.value, e.message.value);
      }
    }
  }

  /** The state an operation's decision is applied to: only the expected ordinal and the echo
      bookkeeping have moved. */
  ghost predicate Prepared(s: State, s1: State) {
    s1 == s.(expectedOrdinal := s1.expectedOrdinal, bounded := s1.bounded)
  }

  /** Every successful operation is one guarded decision applied to an open mapper. */
  lemma Decompose(cfg: Config, s: State, op: Op) returns (s1: State, at: Acquisition, d: Decision)
    requires Step(cfg, s, op).Done?
    ensures s.acquisitionCut.None?
    ensures Prepared(s, s1) && Enabled(cfg, s1, d)
    ensures Step(cfg, s, op) == Apply(cfg, s1, at, d)
    ensures op.Cut? <==> d.Close?
    ensures op.Cut? ==> d == DecideCut(cfg, s, op.cut)
    ensures op.Envelope? ==>
      && at == Acquisition(Some(op.envelope.ordinal), Some(op.envelope.kind))
      && s1.expectedOrdinal == NextExpected(s.expectedOrdinal, op.envelope.ordinal)
      && (op.envelope.ordinal != s.expectedOrdinal ==> d == Refuse(GAP, NO_METHOD, None))
      && (op.envelope.ordinal == s.expectedOrdinal ==>
            Verdict(d, s1.bounded) == DecideInOrder(cfg, s.(expectedOrdinal := s1.expectedOrdinal), op.envelope))
    ensures !op.Envelope? ==> at == UNORDERED && s1.expectedOrdinal == s.expectedOrdinal
  {
    match op
    case Envelope(e) =>
      var sx := s.(expectedOrdinal := NextExpected(s.expectedOrdinal, e.ordinal));
      at := Acquisition(Some(e.ordinal), Some(e.kind));
      if e.ordinal != s.expectedOrdinal {
        s1, d := sx, Refuse(GAP, NO_METHOD, None);
      } else {
        var v := DecideInOrder(cfg, sx, e);
        InOrderGuard(cfg, sx, e);
        s1, d := sx.(bounded := v.bounded), v.decision;
        GuardsIgnoreBookkeeping(cfg, sx, d, s1.expectedOrdinal, s1.bounded);
      }
    case Unordered(message, serverRequest) =>
      var v := DecideMessage(cfg, s, message, serverRequest);
      MessageGuard(cfg, s, message, serverRequest);
      s1, at, d := s.(bounded := v.bounded), UNORDERED, v.decision;
      GuardsIgnoreBookkeeping(cfg, s, d, s1.expectedOrdinal, s1.bounded);
    case Loss(detail) => s1, at, d := s, UNORDERED, Refuse(detail, NO_METHOD, None);
    case Legacy(kind) =>
      s1, at := s, UNORDERED;
      d := if KnownLegacyFact(kind) then LegacyFact(kind) else Refuse(UnknownLegacyLocalTurnFact, kind, None);
    case Cut(cut) =>
      s1, at, d := s, UNORDERED, DecideCut(cfg, s, cut);
  }

  /** A call that raises leaves every field but the echo bookkeeping as it was. */
  lemma RaisedKeepsState(cfg: Config, s: State, op: Op)
    requires Step(cfg, s, op).Raised?
    ensures Prepared(s, Step(cfg, s, op).state)
    ensures Step(cfg, s, op).state.expectedOrdinal == s.expectedOrdinal
  {
  }
}
