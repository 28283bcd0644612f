/** Exactly when a raised call is a no-op: the checkpoint misses the echo bookkeeping, so
    rollback is complete under every capture contract but the echo one. */
module AdmissionRollback {
  import opened Wrappers
  import opened Utf8
  import opened Json
  import opened AppServerProtocol
  import opened Reasons
  import opened ProviderAdmission
  import opened AdmissionLog

  /** A raised call leaves the whole state unchanged, whatever the state and the call. */
  ghost predicate RollsBackCompletely(cfg: Config) {
    forall s: State, op: Op {:trigger Step(cfg, s, op)} :: Step(cfg, s, op).Raised? ==> Step(cfg, s, op).state == s
  }

  lemma ClientRequestTouchesEchoOnly(cfg: Config, s: State, requestMethod: string, message: ServerMessage)
    requires !cfg.contract.BoundedTurnEchoV1?
    ensures DecideClientRequest(cfg, s, requestMethod, message).bounded == s.bounded
  {
  }

  lemma MessageTouchesEchoOnly(cfg: Config, s: State, message: ServerMessage, serverRequest: bool)
    requires !cfg.contract.BoundedTurnEchoV1?
    ensures DecideMessage(cfg, s, message, serverRequest).bounded == s.bounded
  {
  }

  lemma ApplyKeepsEcho(cfg: Config, s: State, at: Acquisition, d: Decision)
    ensures Apply(cfg, s, at, d).state.bounded == s.bounded
  {
  }

  lemma InOrderTouchesEchoOnly(cfg: Config, s: State, e: AcquisitionEnvelope)
    requires !cfg.contract.BoundedTurnEchoV1?
    ensures DecideInOrder(cfg, s, e).bounded == s.bounded
  {
    if e.message.Some? {
      MessageTouchesEchoOnly(cfg, s, e.message.value, e.kind.SERVER_REQUEST?);
      if e.requestMethod.Some? {
        ClientRequestTouchesEchoOnly(cfg, s, e.requestMethod.value, e.message.value);
      }
    }
  }

  lemma StepTouchesEchoOnly(cfg: Config, s: State, op: Op)
    requires !cfg.contract.BoundedTurnEchoV1?
    ensures Step(cfg, s, op).state.bounded == s.bounded
  {
    match op
    case Envelope(e) =>
      var s1 := s.(expectedOrdinal := NextExpected(s.expectedOrdinal, e.ordinal));
      InOrderTouchesEchoOnly(cfg, s1, e);
      var at := Acquisition(Some(e.ordinal), Some(e.kind));
      ApplyKeepsEcho(cfg, s1, at, DecideInOrder(cfg, s1, e).decision);
      ApplyKeepsEcho(cfg, s1, at, Refuse(GAP, NO_METHOD, None));
    case Unordered(message, serverRequest) =>
      MessageTouchesEchoOnly(cfg, s, message, serverRequest);
      ApplyKeepsEcho(cfg, s, UNORDERED, DecideMessage(cfg, s, message, serverRequest).decision);
    case Loss(detail) =>
      ApplyKeepsEcho(cfg, s, UNORDERED, Refuse(detail, NO_METHOD, None));
    case Legacy(kind) =>
      ApplyKeepsEcho(cfg, s, UNORDERED, LegacyFact(kind));
      ApplyKeepsEcho(cfg, s, UNORDERED, Refuse(UnknownLegacyLocalTurnFact, kind, None));
    case Cut(cut) =>
      ApplyKeepsEcho(cfg, s, UNORDERED, DecideCut(cfg, s, cut));
  }

  // ---- What the echo contract leaves behind ----

  /** A well-formed turn/start request of this thread, with one text item as its input. */
  predicate Selects(base: BaseFields, request: Object) {
    && request.Keys == {"id", "method", "params"}
    && SafeId(request["id"]) && request["method"] == Str("turn/start")
    && request["params"].Obj? && Get(request["params"].fields, "threadId") == Str(base.threadId)
    && NormalizedBoundedTurnInput(GetIn(request["params"], "input")).Some?
  }

  function SelectedInput(request: Object): Option<Json> {
    NormalizedBoundedTurnInput(GetIn(Get(request, "params"), "input"))
  }

  /** A wire of one line, within its bound, that decodes to the request. */
  predicate Carried(w: World, wire: bytes, request: Object) {
    && 1 <= |wire| <= MAXIMUM_TURN_START_REQUEST_BYTES && wire[|wire| - 1] == NEWLINE
    && w.parse(wire) == Parsed(Obj(request))
  }

  /** Such a request whose params have no canonical form. */
  predicate SelectsUncanonically(cfg: Config, wire: bytes, request: Object) {
    && Selects(cfg.binding.base, request) && Carried(cfg.world, wire, request)
    && cfg.world.canonical(request["params"]).None?
  }

  function SelectingCall(ordinal: int, wire: bytes, request: Object): Op {
    Envelope(AcquisitionEnvelope(
      ordinal, CLIENT_REQUEST, Some(ServerMessage(request, Some(wire))), None, None, Some("turn/start")))
  }

  /** A state that would accept a first selected input. */
  predicate Unselected(s: State, request: Object)
    requires "id" in request && request["id"].Int?
  {
    && s.acquisitionCut.None? && 0 <= s.expectedOrdinal <= SAFE_INTEGER_MAX
    && s.bounded.turnInput.None? && request["id"].n !in s.clientRequests
  }

  lemma TurnStartIsOwned()
    ensures !FixtureMethod("turn/start") && OwnerMethod("turn/start")
  {
    assert "turn/start"[0] != "fixture/provider-admission-positive"[0];
    assert "turn/start"[0] != "fixture/provider-order-approval-before-created"[0];
    assert "turn/start"[0] != "fixture/provider-order-loss-before-created"[0];
    assert "turn/start"[0] != "fixture/provider-order-duplicate-key"[0];
    assert "turn/start"[0] != "fixture/provider-order-nested-duplicate-key"[0];
  }

  /** A well-formed request gets as far as the selection of its input. */
  lemma ReachesSelection(cfg: Config, s: State, wire: bytes, request: Object)
    requires cfg.contract.BoundedTurnEchoV1?
    requires Selects(cfg.binding.base, request) && Carried(cfg.world, wire, request)
    ensures var raw := RawCustody(EXACT_WIRE_BYTES, |wire|, cfg.world.sha256(wire), wire);
      DecideClientRequest(cfg, s, "turn/start", ServerMessage(request, Some(wire)))
        == DecideSelectedInput(cfg, s, "turn/start", request["id"].n, request["params"], raw)
  {
    TurnStartIsOwned();
    var message := ServerMessage(request, Some(wire));
    assert WireCustody(cfg.world, message, MAXIMUM_TURN_START_REQUEST_BYTES)
      == Ok(RawCustody(EXACT_WIRE_BYTES, |wire|, cfg.world.sha256(wire), wire));
  }

  /** In every world and from every state that could accept the input, a request whose params have
      no canonical form raises and leaves its input selected. */
  lemma EchoRollbackIsPartial(cfg: Config, s: State, wire: bytes, request: Object)
    requires cfg.contract.BoundedTurnEchoV1? && SelectsUncanonically(cfg, wire, request)
    requires Unselected(s, request)
    ensures Step(cfg, s, SelectingCall(s.expectedOrdinal, wire, request))
      == Raised(s.(bounded := s.bounded.(turnInput := SelectedInput(request))), ValueIsOutsideRFC8785JCS)
    ensures SelectedInput(request).Some?
  {
    hide DecideClientRequest;
    var s1 := s.(expectedOrdinal := s.expectedOrdinal + 1);
    ReachesSelection(cfg, s1, wire, request);
    assert DecideInOrder(cfg, s1, SelectingCall(s.expectedOrdinal, wire, request).envelope)
      == DecideClientRequest(cfg, s1, "turn/start", ServerMessage(request, Some(wire)));
  }

  /** A second selected input is a discrepancy. */
  lemma SecondInputIsRefused(cfg: Config, s: State, wire: bytes, request: Object)
    requires cfg.contract.BoundedTurnEchoV1? && Selects(cfg.binding.base, request) && Carried(cfg.world, wire, request)
    requires s.acquisitionCut.None? && 0 <= s.expectedOrdinal <= SAFE_INTEGER_MAX && s.bounded.turnInput.Some?
    ensures var out := Step(cfg, s, SelectingCall(s.expectedOrdinal, wire, request));
      out.Done? ==>
        && out.record.body.kind.ADMISSION_DISCREPANCY? && Distrusted(out.state)
        && out.record.body.normalized.Discrepancy?
        && out.record.body.normalized.detail == BoundedTurnEchoPermitsOnlyOneSelectedInput
  {
    hide DecideClientRequest;
    var s1 := s.(expectedOrdinal := s.expectedOrdinal + 1);
    ReachesSelection(cfg, s1, wire, request);
    assert DecideInOrder(cfg, s1, SelectingCall(s.expectedOrdinal, wire, request).envelope)
      == DecideClientRequest(cfg, s1, "turn/start", ServerMessage(request, Some(wire)));
  }

  /** What that costs: the corrected request, well formed and canonical, is then refused as a
      second input, and the dispatch is distrusted. */
  lemma CorrectedRequestIsRefused(cfg: Config, s: State, wire: bytes, request: Object, wire': bytes, request': Object)
    requires cfg.contract.BoundedTurnEchoV1? && SelectsUncanonically(cfg, wire, request)
    requires Unselected(s, request)
    requires Selects(cfg.binding.base, request') && Carried(cfg.world, wire', request')
    ensures var left := Step(cfg, s, SelectingCall(s.expectedOrdinal, wire, request)).state;
      var out := Step(cfg, left, SelectingCall(s.expectedOrdinal, wire', request'));
      out.Done? ==>
        && out.record.body.kind.ADMISSION_DISCREPANCY? && Distrusted(out.state)
        && out.record.body.normalized.Discrepancy?
        && out.record.body.normalized.detail == BoundedTurnEchoPermitsOnlyOneSelectedInput
  {
    hide Step, Selects, Carried;
    EchoRollbackIsPartial(cfg, s, wire, request);
    SecondInputIsRefused(cfg, Step(cfg, s, SelectingCall(s.expectedOrdinal, wire, request)).state, wire', request');
  }

  /** Rollback is complete exactly outside the echo contract, in every world in which some wire
      decodes to a turn/start request whose params have no canonical form. */
  lemma RollbackExactly(cfg: Config, wire: bytes, request: Object)
    requires SelectsUncanonically(cfg, wire, request)
    ensures RollsBackCompletely(cfg) <==> !cfg.contract.BoundedTurnEchoV1?
  {
    if cfg.contract.BoundedTurnEchoV1? {
      EchoRollbackIsPartial(cfg, INITIAL, wire, request);
    } else {
      RollsBackElsewhere(cfg);
    }
  }

  /** Outside the echo contract it is complete in every world. */
  lemma RollsBackElsewhere(cfg: Config)
    requires !cfg.contract.BoundedTurnEchoV1?
    ensures RollsBackCompletely(cfg)
  {
    forall s: State, op: Op | Step(cfg, s, op).Raised?
      ensures Step(cfg, s, op).state == s
    {
      StepTouchesEchoOnly(cfg, s, op);
      StepIsTransactional(cfg, s, op);
    }
  }
}
