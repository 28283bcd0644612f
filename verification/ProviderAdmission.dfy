/** Provider admission as a transition function. `Step` is what one public mapper operation
    does; the class in ProviderAdmissionMapper.dfy is proved to compute it. Every operation
    splits into a decision (the validation that reads state) and its application (the
    mutation and the one appended record). */
module ProviderAdmission {
  import opened Wrappers
  import opened Utf8
  import opened Json
  import opened AppServerProtocol
  import opened Reasons

  const MAXIMUM_RAW_EVIDENCE_BYTES: nat := 16 * 1024
  const MAXIMUM_RECORDS: nat := 4096
  const MAXIMUM_SNAPSHOT_BYTES: nat := 16 * 1024 * 1024
  const U32_MAX: int := 0xFFFF_FFFF

  // ---- Identity of the dispatch ----

  datatype ExecutableKind = CAMPAIGN_CODEX_BUILD | DETERMINISTIC_FIXTURE

  /** The identities copied into every record. */
  datatype BaseFields = BaseFields(
    bindingDigest: string,
    workAttemptId: string,
    dispatchOccurrenceId: string,
    adapterProcessOccurrenceId: string,
    appServerSessionIdentity: string,
    threadId: string,
    turnId: string,
    provider: string,
    model: string)

  datatype Binding = Binding(
    base: BaseFields,
    codexSourceHead: string,
    executableKind: ExecutableKind,
    executableIdentity: string,
    executableSha256: string)

  // ---- Evidence records ----

  datatype Representation = EXACT_WIRE_BYTES | EXACT_ACQUIRED_FRAME_BYTES

  datatype RawCustody = RawCustody(representation: Representation, byteLength: nat, sha256: string, content: bytes)

  datatype RecordKind =
    | ADMISSION_DISCREPANCY
    | ACQUISITION_WATERMARK
    | LOCAL_TURN_FACT
    | CLIENT_REQUEST_ISSUED
    | CLIENT_RESPONSE_RETAINED
    | PROVIDER_REQUEST_STARTED
    | PROVIDER_EXECUTION_STEP
    | PROVIDER_ADMISSION_REFUSED
    | PROVIDER_RESPONSE_COMPLETED
    | WAITING_APPROVAL_RECORD
    | ACQUISITION_CUT

  datatype ExecutionIdentity = ExecutionIdentity(
    provider: string, model: string, appServerSessionIdentity: string,
    threadId: string, turnId: string, firstResponseId: string)

  datatype StepIdentity = StepIdentity(
    provider: string, model: string, threadId: string, turnId: string,
    requestOccurrenceId: string, samplingOrdinal: int, requestOrder: int, responseId: string)

  datatype CutFacts = CutFacts(
    adapterProcessOccurrenceId: string,
    appServerSessionIdentity: string,
    streamQuiesced: bool,
    lossGeneration: int,
    processDisposition: ProcessDisposition,
    orderedHighWater: int,
    consumedOrdinalCount: int,
    outstandingClientRequestCount: int,
    clean: bool)

  /** The `normalized` member. The constant members (such as
      `proves_provider_admission: false`) are left implicit. */
  datatype Normalized =
    | Discrepancy(detail: Reason, executionIdentity: Option<ExecutionIdentity>, resumeSameAttemptOnly: bool)
    | ProvesNothing
    | ClientRequestFacts(requestId: int, requestMethod: string, paramsSha256: string)
    | ClientResponseFacts(responseRequestId: int, responseMethod: string, requestParamsSha256: string, resultSha256: string)
    | RequestStarted(requestOccurrenceId: string, samplingOrdinal: int, requestOrder: int, startedAtMs: int)
    | ExecutionStep(identity: ExecutionIdentity, step: StepIdentity, firstAdmissionBoundary: bool, stepObservedAtMs: int)
    | AdmissionRefused(
        refusedOccurrenceId: string, refusedOrdinal: int, refusedOrder: int,
        retryAfterMs: Option<int>, diagnostic: string, refusalObservedAtMs: int)
    | ResponseCompleted(completedResponseId: string)
    | ApprovalSurfaced(approvalIdentity: ExecutionIdentity)
    | CutNormalized(cut: CutFacts)

  /** Everything in a record except its own digest. */
  datatype RecordBody = RecordBody(
    sequence: nat,
    acquisitionOrdinal: Option<int>,
    acquisitionKind: Option<EnvelopeKind>,
    base: BaseFields,
    kind: RecordKind,
    methodName: string,
    normalized: Normalized,
    raw: Option<RawCustody>)

  datatype Record = Record(body: RecordBody, evidenceDigest: string)

  // ---- The world the mapper does not define ----

  datatype Parsed = Parsed(value: Json) | Refused(why: string)

  /** Library behaviour taken as given: strict JSON parsing (with its refusal text), RFC 8785
      bytes (None outside the JCS domain), SHA-256, and a record's digest and canonical size. */
  datatype World = World(
    parse: bytes -> Parsed,
    canonical: Json -> Option<bytes>,
    sha256: bytes -> string,
    evidenceDigest: RecordBody -> string,
    recordBytes: RecordBody -> nat)

  datatype Config = Config(world: World, binding: Binding, contract: CaptureContract)

  // ---- Mapper state ----

  datatype ClientRequest = ClientRequest(requestId: int, methodName: string, paramsDigest: string)

  datatype Request = Request(occurrenceId: string, ordinal: int, order: int, provider: string, model: string)

  datatype Disposition =
    | UNRESOLVED | EXECUTION_ADMITTED | NOT_ADMITTED_MODEL_AT_CAPACITY | ADMISSION_INDETERMINATE

  datatype Mechanism =
    | M_DISPATCHING | M_EXECUTION_ADMITTED | M_RUNNING | M_WAITING_APPROVAL | M_PARKED_NOT_ADMITTED
    | M_PROVIDER_COMPLETED | M_ADMISSION_INDETERMINATE | M_POST_ADMISSION_INTERRUPTED

  /** The `_bounded_*` fields of the echo contract. */
  datatype Bounded = Bounded(
    turnInput: Option<Json>,
    inputItemId: Option<string>,
    inputMethods: set<string>,
    agentItemId: Option<string>,
    agentText: Option<string>,
    completedAgentIds: set<string>,
    completedAgentBytes: nat,
    lastCompletedAgent: Option<(string, string)>)

  datatype State = State(
    pending: Option<Request>,
    pendingStartedAtMs: Option<int>,
    openResponseId: Option<string>,
    clientRequests: map<int, ClientRequest>,
    completedRequests: set<string>,
    acquisitionCut: Option<CutFacts>,
    expectedOrdinal: int,
    lastBoundaryMs: Option<int>,
    disposition: Disposition,
    mechanism: Mechanism,
    identity: Option<ExecutionIdentity>,
    records: seq<Record>,
    retainedRecordBytes: nat,
    bounded: Bounded)

  const INITIAL_BOUNDED: Bounded := Bounded(None, None, {}, None, None, {}, 0, None)

  const INITIAL: State := State(
    None, None, None, map[], {}, None, 0, None, UNRESOLVED, M_DISPATCHING, None, [], 0, INITIAL_BOUNDED)

  /** Where the current record comes from: both None outside an ordered envelope. */
  datatype Acquisition = Acquisition(ordinal: Option<int>, kind: Option<EnvelopeKind>)

  const UNORDERED: Acquisition := Acquisition(None, None)

  /** A public call either returns its one record or raises; the state is what it leaves. */
  datatype Outcome = Done(state: State, record: Record) | Raised(state: State, error: Reason)

  // ---- Custody of raw bytes ----

  function WireCustody(w: World, message: ServerMessage, maximum: nat): Result<RawCustody, Reason> {
    match message.rawBytes
    case None => Err(ExactAppServerWireBytesAreRequired)
    case Some(raw) =>
      if !(1 <= |raw| <= maximum) then Err(AppServerEvidenceExceedsExactByteBound)
      else if raw[|raw| - 1] != NEWLINE then Err(ExactAppServerWireBytesLackLineTerminator)
      else
        match w.parse(raw)
        case Refused(why) => Err(Reported(why))
        case Parsed(v) =>
          if v != Obj(message.raw) then Err(RetainedAppServerWireBytesDifferFromParsedMessage)
          else Ok(RawCustody(EXACT_WIRE_BYTES, |raw|, w.sha256(raw), raw))
  }

  function FrameCustody(w: World, raw: bytes): Result<RawCustody, Reason> {
    if !(1 <= |raw| <= MAXIMUM_RAW_EVIDENCE_BYTES) then Err(AppServerEvidenceExceedsExactByteBound)
    else if raw[|raw| - 1] != NEWLINE then Err(ExactAppServerEvidenceLacksLineTerminator)
    else Ok(RawCustody(EXACT_ACQUIRED_FRAME_BYTES, |raw|, w.sha256(raw), raw))
  }

  // ---- Decisions ----

  /** What an operation resolves to do once its validation has run. */
  datatype Decision =
    | Refuse(detail: Reason, refusedMethod: string, refusedRaw: Option<RawCustody>)
    | Crash(error: Reason)
    | Watermark(watermarkMethod: string, watermarkRaw: RawCustody)
    | LegacyFact(factKind: string)
    | LocalFact(localMethod: string, localRaw: RawCustody, completes: bool)
    | Issue(requestId: int, issueMethod: string, issueDigest: string, issueRaw: RawCustody)
    | Retain(responseId: int, retainMethod: string, retainDigest: string, resultDigest: string, retainRaw: RawCustody)
    | BeginRequest(beginRequest: Request, startedAtMs: int, beginRaw: RawCustody)
    | BeginResponse(responseRequest: Request, newResponseId: string, responseAtMs: int, responseRaw: RawCustody)
    | Park(parkRequest: Request, retryAfterMs: Option<int>, diagnostic: string, parkAtMs: int, parkRaw: RawCustody)
    | FinishResponse(finishedResponseId: string, finishRaw: RawCustody)
    | Surface(approvalMethod: string, approvalIdentity: ExecutionIdentity, approvalRaw: RawCustody)
    | Close(cutFacts: CutFacts)

  /** A decision together with the echo bookkeeping it leaves behind. */
  datatype Verdict = Verdict(decision: Decision, bounded: Bounded)

  /** The raw custody of a decision, when it has any. */
  function DecisionRaw(d: Decision): Option<RawCustody> {
    match d
    case Refuse(_, _, raw) => raw
    case Watermark(_, raw) => Some(raw)
    case LocalFact(_, raw, _) => Some(raw)
    case Issue(_, _, _, raw) => Some(raw)
    case Retain(_, _, _, _, raw) => Some(raw)
    case BeginRequest(_, _, raw) => Some(raw)
    case BeginResponse(_, _, _, raw) => Some(raw)
    case Park(_, _, _, _, raw) => Some(raw)
    case FinishResponse(_, raw) => Some(raw)
    case Surface(_, _, raw) => Some(raw)
    case _ => None
  }

  /** Unless it raises, the decision keeps the custody it was reached with. */
  predicate Carries(d: Decision, raw: RawCustody) {
    d.Crash? || DecisionRaw(d) == Some(raw)
  }

  const NO_METHOD: string := "adapter/acquisition"

  function ClientRequestMethod(requestMethod: string): string { "client-request/" + requestMethod }

  function ClientResponseMethod(requestMethod: string): string { "client-response/" + requestMethod }

  predicate FixtureMethod(requestMethod: string) {
    requestMethod in {
      "fixture/provider-admission-positive",
      "fixture/provider-order-approval-before-created",
      "fixture/provider-order-loss-before-created",
      "fixture/provider-order-duplicate-key",
      "fixture/provider-order-nested-duplicate-key" }
  }

  predicate OwnerMethod(requestMethod: string) {
    requestMethod in {"initialize", "thread/start", "turn/start", "thread/read", "thread/resume"}
  }

  predicate SafeId(v: Json) {
    v.Int? && 0 <= v.n <= SAFE_INTEGER_MAX
  }

  /** A decision about a client request names it, whatever it decides. */
  predicate NamesRequest(d: Decision, requestMethod: string) {
    match d
    case Crash(_) => true
    case Refuse(_, name, _) => name == ClientRequestMethod(requestMethod)
    case Issue(_, name, _, _) => name == requestMethod
    case _ => false
  }

  /** A decision about a client response names it, whatever it decides. */
  predicate NamesResponse(d: Decision, requestMethod: string) {
    match d
    case Crash(_) => true
    case Refuse(_, name, _) => name == ClientResponseMethod(requestMethod)
    case Retain(_, name, _, _, _) => name == requestMethod
    case _ => false
  }

  /** Unless it raises, the decision keeps the exact bytes of a custody-valid message. */
  predicate KeepsWire(w: World, d: Decision, message: ServerMessage, maximum: nat) {
    d.Crash? || (WireCustody(w, message, maximum).Ok? && Carries(d, WireCustody(w, message, maximum).value))
  }

  /** `_client_request`. */
  function DecideClientRequest(cfg: Config, s: State, requestMethod: string, message: ServerMessage): (v: Verdict)
    ensures NamesRequest(v.decision, requestMethod)
    ensures KeepsWire(cfg.world, v.decision, message, ClientRequestByteBound(Some(requestMethod), cfg.contract))
  {
    var threadId := Str(cfg.binding.base.threadId);
    match WireCustody(cfg.world, message, ClientRequestByteBound(Some(requestMethod), cfg.contract))
    case Err(why) => Verdict(Crash(why), s.bounded)
    case Ok(raw) =>
      var request := message.raw;
      var name := ClientRequestMethod(requestMethod);
      var params := Get(request, "params");
      if !SafeId(Get(request, "id")) then
        Verdict(Refuse(InvalidClientRequestId, name, Some(raw)), s.bounded)
      else if || request.Keys != {"id", "method"} + (if "params" in request then {"params"} else {})
              || Get(request, "method") != Str(requestMethod) then
        Verdict(Refuse(ClientRequestMethodOrClosedShapeSubstitution, name, Some(raw)), s.bounded)
      else if !params.Null? && !params.Obj? then
        Verdict(Refuse(ClientRequestParamsAreNotAnObject, name, Some(raw)), s.bounded)
      else if FixtureMethod(requestMethod) && !cfg.binding.executableKind.DETERMINISTIC_FIXTURE? then
        Verdict(Refuse(FixtureClientRequestIsNotPermittedForACampaignCodexBuild, name, Some(raw)), s.bounded)
      else if !FixtureMethod(requestMethod) && !OwnerMethod(requestMethod) then
        Verdict(Refuse(UnknownClientRequestMethod, name, Some(raw)), s.bounded)
      else if || !(requestMethod in {"turn/start", "thread/read", "thread/resume"})
              || (params.Obj? && Get(params.fields, "threadId") == threadId) then
        DecideSelectedInput(cfg, s, requestMethod, request["id"].n, params, raw)
      else
        Verdict(Refuse(ClientRequestThreadIdentitySubstitution, name, Some(raw)), s.bounded)
  }

  /** The tail of `_client_request`: the echo contract's one selected input, then the request itself. */
  function DecideSelectedInput(
    cfg: Config, s: State, requestMethod: string, requestId: int, params: Json, raw: RawCustody): (v: Verdict)
    ensures NamesRequest(v.decision, requestMethod)
    ensures Carries(v.decision, raw)
  {
    var name := ClientRequestMethod(requestMethod);
    if cfg.contract.BoundedTurnEchoV1? && requestMethod == "turn/start" then
      match NormalizedBoundedTurnInput(GetIn(params, "input"))
      case None =>
        Verdict(Refuse(BoundedTurnInputIsOutsideTheClosedEchoShape, name, Some(raw)), s.bounded)
      case Some(input) =>
        if s.bounded.turnInput.Some? then
          Verdict(Refuse(BoundedTurnEchoPermitsOnlyOneSelectedInput, name, Some(raw)), s.bounded)
        else
          Verdict(DecideIssue(cfg, s, requestMethod, requestId, params, raw), s.bounded.(turnInput := Some(input)))
    else
      Verdict(DecideIssue(cfg, s, requestMethod, requestId, params, raw), s.bounded)
  }

  function DecideIssue(
    cfg: Config, s: State, requestMethod: string, requestId: int, params: Json, raw: RawCustody): (d: Decision)
    ensures NamesRequest(d, requestMethod)
    ensures Carries(d, raw)
  {
    if requestId in s.clientRequests then
      Refuse(DuplicateClientRequestIdentity, ClientRequestMethod(requestMethod), Some(raw))
    else
      match cfg.world.canonical(params)
      case None => Crash(ValueIsOutsideRFC8785JCS)
      case Some(b) => Issue(requestId, requestMethod, cfg.world.sha256(b), raw)
  }

  /** `_client_response`. */
  function DecideClientResponse(cfg: Config, s: State, requestMethod: string, message: ServerMessage): (d: Decision)
    ensures NamesResponse(d, requestMethod)
    ensures KeepsWire(cfg.world, d, message, MAXIMUM_RAW_EVIDENCE_BYTES)
  {
    match WireCustody(cfg.world, message, MAXIMUM_RAW_EVIDENCE_BYTES)
    case Err(why) => Crash(why)
    case Ok(raw) =>
      var response := message.raw;
      var name := ClientResponseMethod(requestMethod);
      if !SafeId(Get(response, "id")) then Refuse(InvalidClientResponseId, name, Some(raw))
      else
        var id := response["id"].n;
        if id !in s.clientRequests || s.clientRequests[id].methodName != requestMethod then
          Refuse(ClientResponseRequestIdentityOrMethodSubstitution, name, Some(raw))
        else if ("result" in response) == ("error" in response)
                || response.Keys != (if "result" in response then {"id", "result"} else {"id", "error"}) then
          Refuse(ClientResponseHasNonClosedResultErrorShape, name, Some(raw))
        else if "error" in response then
          Refuse(ClientRequestReturnedAnAppServerError, name, Some(raw))
        else if !response["result"].Obj? then
          Refuse(ClientResponseResultIsNotAnObject, name, Some(raw))
        else
          DecideRetain(cfg, s, requestMethod, id, response["result"], raw)
  }

  /** The tail of `_client_response`: thread and turn identity, then retention. */
  function DecideRetain(
    cfg: Config, s: State, requestMethod: string, id: int, result: Json, raw: RawCustody): (d: Decision)
    requires id in s.clientRequests
    ensures NamesResponse(d, requestMethod)
    ensures Carries(d, raw)
  {
    var base := cfg.binding.base;
    if requestMethod in {"thread/start", "thread/read", "thread/resume"}
       && GetIn(GetIn(result, "thread"), "id") != Str(base.threadId) then
      Refuse(ResponseThreadIdentitySubstitution(requestMethod), ClientResponseMethod(requestMethod), Some(raw))
    else if requestMethod == "turn/start" && GetIn(GetIn(result, "turn"), "id") != Str(base.turnId) then
      Refuse(TurnStartResponseTurnIdentitySubstitution, ClientResponseMethod(requestMethod), Some(raw))
    else
      match cfg.world.canonical(result)
      case None => Crash(ValueIsOutsideRFC8785JCS)
      case Some(b) => Retain(id, requestMethod, s.clientRequests[id].paramsDigest, cfg.world.sha256(b), raw)
  }

  // ---- Provider boundary notifications ----

  const REQUEST_FIELDS: set<string> := {
    "threadId", "turnId", "requestOccurrenceId", "samplingOrdinal", "requestOrder", "provider", "model", "startedAtMs" }
  const RESPONSE_FIELDS: set<string> := {
    "threadId", "turnId", "requestOccurrenceId", "samplingOrdinal", "requestOrder", "provider", "model",
    "responseId", "observedAtMs" }
  const REFUSAL_FIELDS: set<string> := {
    "threadId", "turnId", "requestOccurrenceId", "samplingOrdinal", "requestOrder", "provider", "model",
    "responseCreated", "willRetry", "refusalKind", "codexErrorInfo", "retryAfterMs", "diagnostic", "observedAtMs" }
  const COMPLETED_FIELDS: set<string> := {"threadId", "turnId", "responseId", "usage"}

  /** `_identity`. */
  function Identity(field: string, value: Json): Result<string, Reason> {
    if BoundedId(value) then Ok(value.s) else Err(Invalid(field))
  }

  /** `_bounded_int`. */
  function BoundedInt(field: string, value: Json, minimum: int, maximum: int): Result<int, Reason> {
    if value.Int? && minimum <= value.n <= maximum then Ok(value.n) else Err(Invalid(field))
  }

  /** One of the four identities a provider notification must repeat exactly. */
  function ExactIdentity(params: Object, field: string, expected: string): Result<(), Reason> {
    match Identity(field, Get(params, field))
    case Err(why) => Err(why)
    case Ok(value) =>
      if value != expected then Err(NotificationSubstitution(field)) else Ok(())
  }

  function FirstError(a: Result<(), Reason>, b: Result<(), Reason>): Result<(), Reason> {
    if a.Err? then a else b
  }

  /** `_common_request`. */
  function CommonRequest(base: BaseFields, params: Object, fields: set<string>): Result<Request, Reason> {
    if params.Keys != fields then Err(ClosedProviderNotificationFieldsDoNotMatch)
    else
      var identities :=
        FirstError(ExactIdentity(params, "threadId", base.threadId),
        FirstError(ExactIdentity(params, "turnId", base.turnId),
        FirstError(ExactIdentity(params, "provider", base.provider),
                   ExactIdentity(params, "model", base.model))));
      if identities.Err? then Err(identities.error)
      else
        match Identity("requestOccurrenceId", Get(params, "requestOccurrenceId"))
        case Err(why) => Err(why)
        case Ok(occurrence) =>
          match BoundedInt("samplingOrdinal", Get(params, "samplingOrdinal"), 0, U32_MAX)
          case Err(why) => Err(why)
          case Ok(ordinal) =>
            match BoundedInt("requestOrder", Get(params, "requestOrder"), 0, U32_MAX)
            case Err(why) => Err(why)
            case Ok(order) => Ok(Request(occurrence, ordinal, order, base.provider, base.model))
  }

  /** The response id a PROVIDER_EXECUTION_STEP record carries. */
  predicate StepsResponse(r: Record, responseId: Json) {
    && r.body.kind.PROVIDER_EXECUTION_STEP?
    && r.body.normalized.ExecutionStep?
    && Str(r.body.normalized.step.responseId) == responseId
  }

  predicate ResponseKnown(records: seq<Record>, responseId: Json) {
    exists i :: 0 <= i < |records| && StepsResponse(records[i], responseId)
  }

  /** The validation block of `_provider_request`. */
  function CheckProviderRequest(cfg: Config, s: State, params: Object): Result<(Request, int), Reason> {
    match CommonRequest(cfg.binding.base, params, REQUEST_FIELDS)
    case Err(why) => Err(why)
    case Ok(request) =>
      match BoundedInt("startedAtMs", Get(params, "startedAtMs"), -SAFE_INTEGER_MAX, SAFE_INTEGER_MAX)
      case Err(why) => Err(why)
      case Ok(startedAtMs) =>
        if s.lastBoundaryMs.Some? && startedAtMs < s.lastBoundaryMs.value then
          Err(ProviderRequestTimePrecedesRetainedBoundary)
        else if s.disposition in {NOT_ADMITTED_MODEL_AT_CAPACITY, ADMISSION_INDETERMINATE} then
          Err(ProviderRequestFollowsClosedDispatchDisposition)
        else if s.pending.Some? then Err(NewProviderRequestHidesAnUnresolvedRequestOccurrence)
        else if s.openResponseId.Some? then Err(NewProviderRequestPrecedesExactResponseCompletion)
        else if request.ordinal != |s.completedRequests| || request.order != |s.completedRequests| then
          Err(ProviderRequestOrderingOrHiddenRetryDiscrepancy)
        else if request.occurrenceId in s.completedRequests then
          Err(DuplicateProviderRequestOccurrenceIdentity)
        else if request.ordinal > 0 && s.identity.None? then
          Err(MultiplePreAdmissionSamplingRequestsAreNotAllowed)
        else Ok((request, startedAtMs))
  }

  /** `_match_pending` and the time comparison against the pending request. */
  predicate PrecedesPending(s: State, observedAtMs: int) {
    s.pendingStartedAtMs.None? || observedAtMs < s.pendingStartedAtMs.value
  }

  /** The validation block of `_response_started`. */
  function CheckResponseStarted(cfg: Config, s: State, params: Object): Result<(Request, string, int), Reason> {
    match CommonRequest(cfg.binding.base, params, RESPONSE_FIELDS)
    case Err(why) => Err(why)
    case Ok(request) =>
      if s.pending != Some(request) then Err(ProviderBoundaryHasNoExactPendingRequest)
      else
        match Identity("responseId", Get(params, "responseId"))
        case Err(why) => Err(why)
        case Ok(responseId) =>
          match BoundedInt("observedAtMs", Get(params, "observedAtMs"), -SAFE_INTEGER_MAX, SAFE_INTEGER_MAX)
          case Err(why) => Err(why)
          case Ok(observedAtMs) =>
            if PrecedesPending(s, observedAtMs) then Err(ResponseCreatedTimePrecedesRequestStart)
            else if ResponseKnown(s.records, Str(responseId)) then Err(DuplicateUpstreamResponseIdentity)
            else Ok((request, responseId, observedAtMs))
  }

  /** The validation block of `_provider_refused`. */
  function CheckRefusal(cfg: Config, s: State, params: Object): Result<(Request, Option<int>, string, int), Reason> {
    match CommonRequest(cfg.binding.base, params, REFUSAL_FIELDS)
    case Err(why) => Err(why)
    case Ok(request) =>
      if s.pending != Some(request) then Err(ProviderBoundaryHasNoExactPendingRequest)
      else if s.identity.Some? then Err(ProviderRefusalFollowsAdmittedExecution)
      else if Get(params, "responseCreated") != Json.Bool(false) || Get(params, "willRetry") != Json.Bool(false) then
        Err(ProviderRefusalDoesNotProveTerminalPreCreatedState)
      else if Get(params, "refusalKind") != Str("modelAtCapacity") then Err(UnknownProviderRefusalKind)
      else if Get(params, "codexErrorInfo") != Str("serverOverloaded") then Err(ProviderRefusalTypedErrorMismatch)
      else if !Get(params, "retryAfterMs").Null? && !SafeId(Get(params, "retryAfterMs")) then Err(Invalid("retryAfterMs"))
      else if !Get(params, "diagnostic").Str? || |Get(params, "diagnostic").s| > MAXIMUM_DIAGNOSTIC_CODEPOINTS then
        Err(ProviderRefusalDiagnosticExceedsBound)
      else
        match BoundedInt("observedAtMs", Get(params, "observedAtMs"), -SAFE_INTEGER_MAX, SAFE_INTEGER_MAX)
        case Err(why) => Err(why)
        case Ok(observedAtMs) =>
          if PrecedesPending(s, observedAtMs) then Err(ProviderRefusalTimePrecedesRequestStart)
          else
            var retryAfter := Get(params, "retryAfterMs");
            Ok((request, if retryAfter.Int? then Some(retryAfter.n) else None, Get(params, "diagnostic").s, observedAtMs))
  }

  function DecideProviderRequest(cfg: Config, s: State, params: Object, raw: RawCustody): (d: Decision)
    ensures Carries(d, raw)
  {
    match CheckProviderRequest(cfg, s, params)
    case Err(why) => Refuse(why, "providerRequest/started", Some(raw))
    case Ok((request, startedAtMs)) => BeginRequest(request, startedAtMs, raw)
  }

  function DecideResponseStarted(cfg: Config, s: State, params: Object, raw: RawCustody): (d: Decision)
    ensures Carries(d, raw)
  {
    match CheckResponseStarted(cfg, s, params)
    case Err(why) => Refuse(why, "rawResponse/started", Some(raw))
    case Ok((request, responseId, observedAtMs)) => BeginResponse(request, responseId, observedAtMs, raw)
  }

  function DecideRefusal(cfg: Config, s: State, params: Object, raw: RawCustody): (d: Decision)
    ensures Carries(d, raw)
  {
    match CheckRefusal(cfg, s, params)
    case Err(why) => Refuse(why, "providerAdmission/refused", Some(raw))
    case Ok((request, retryAfterMs, diagnostic, observedAtMs)) =>
      Park(request, retryAfterMs, diagnostic, observedAtMs, raw)
  }

  /** `_response_completed`. */
  function DecideResponseCompleted(cfg: Config, s: State, params: Object, raw: RawCustody): (d: Decision)
    ensures d.Refuse? || d.FinishResponse?
    ensures Carries(d, raw)
  {
    var base := cfg.binding.base;
    var name := "rawResponse/completed";
    if params.Keys != COMPLETED_FIELDS then
      Refuse(ClosedResponseCompletedFieldsDoNotMatch, name, Some(raw))
    else if s.identity.None? then
      Refuse(ResponseCompletionLacksAnExactResponseCreatedBoundary, name, Some(raw))
    else if Get(params, "threadId") != Str(base.threadId) || Get(params, "turnId") != Str(base.turnId) then
      Refuse(ResponseCompletionIdentitySubstitution, name, Some(raw))
    else
      // A null response id never matches: no step record carries one.
      if || s.openResponseId.None? || Get(params, "responseId") != Str(s.openResponseId.value)
         || !ResponseKnown(s.records, Get(params, "responseId")) then
        Refuse(ResponseCompletionHasNoExactAdmittedResponseIdentity, name, Some(raw))
      else FinishResponse(s.openResponseId.value, raw)
  }

  /** `_local_fact`. */
  function DecideLocalFact(cfg: Config, s: State, name: string, params: Object, raw: RawCustody): (d: Decision)
    ensures d.Refuse? || d.LocalFact?
    ensures Carries(d, raw)
  {
    var base := cfg.binding.base;
    var threadId := if name == "thread/started" then GetIn(Get(params, "thread"), "id") else Get(params, "threadId");
    var turnId := if name == "thread/started" then Null else GetIn(Get(params, "turn"), "id");
    if threadId != Str(base.threadId) then Refuse(LocalFactThreadIdentitySubstitution, name, Some(raw))
    else if name != "thread/started" && turnId != Str(base.turnId) then
      Refuse(LocalFactTurnIdentitySubstitution, name, Some(raw))
    else if name != "turn/completed" then LocalFact(name, raw, false)
    else if s.identity.None? then
      if && s.disposition.NOT_ADMITTED_MODEL_AT_CAPACITY? && s.mechanism.M_PARKED_NOT_ADMITTED?
         && s.pending.None? && s.openResponseId.None?
      then LocalFact(name, raw, false)
      else Refuse(TurnCompletedWithoutExactProviderExecutionIdentity, name, Some(raw))
    else if s.pending.Some? || s.openResponseId.Some? || s.mechanism.M_WAITING_APPROVAL? then
      Refuse(TurnCompletedBeforeExactResponseApprovalSequenceClosed, name, Some(raw))
    else LocalFact(name, raw, true)
  }

  /** `_approval_or_discrepancy`. */
  function DecideApproval(cfg: Config, s: State, name: string, params: Object, raw: RawCustody): (d: Decision)
    ensures d.Refuse? || d.Surface?
    ensures Carries(d, raw)
  {
    var base := cfg.binding.base;
    if name !in {"item/commandExecution/requestApproval", "item/fileChange/requestApproval"} then
      Refuse(UnknownAppServerServerRequest, name, Some(raw))
    else if Get(params, "threadId") != Str(base.threadId) || Get(params, "turnId") != Str(base.turnId) then
      Refuse(ApprovalIdentitySubstitution, name, Some(raw))
    else if s.identity.None? then Refuse(ApprovalRequestPrecededProviderAdmission, name, Some(raw))
    else if s.openResponseId.Some? then
      Refuse(ApprovalRequestPrecededExactResponseCompletion, name, Some(raw))
    else Surface(name, s.identity.value, raw)
  }

  // ---- Echo-contract bookkeeping ----

  /** `_count_bounded_completed_agent`: the new total and whether it is still within the bound. */
  function CountCompletedAgent(b: Bounded, text: string): Bounded {
    b.(completedAgentBytes := b.completedAgentBytes + |Encode(text)|)
  }

  predicate WithinAgentBound(b: Bounded) {
    b.completedAgentBytes <= MAXIMUM_BOUNDED_AGENT_OUTPUT_BYTES
  }

  /** `_bounded_turn_agent_output`. A None decision passes the summary on to the local-fact rule. */
  function DecideBoundedOutput(
    cfg: Config, s: State, name: string, message: ServerMessage, raw: RawCustody): (r: (Option<Decision>, Bounded))
    ensures r.0.Some? ==> r.0.value.Crash? || r.0.value.Refuse? || r.0.value.Watermark?
    ensures r.0.Some? ==> Carries(r.0.value, raw)
  {
    var base := cfg.binding.base;
    var b := s.bounded;
    if IsBoundedTurnUserInputEcho(message, b.turnInput, base.threadId, Some(base.turnId)) then
      DecideInputEcho(b, name, GetIn(Get(message.Params(), "item"), "id"), raw)
    else
      match IsBoundedTurnAgentOutput(message, base.threadId, Some(base.turnId))
      case None => (Some(Crash(UnhashablePhase)), b)
      case Some(false) =>
        (Some(Refuse(LargeItemLifecycleIsOutsideTheSelectedBoundedTurnContract, name, Some(raw))), b)
      case Some(true) =>
        if name in {"item/started", "item/completed"} then
          DecideAgentItem(b, name, Get(message.Params(), "item"), raw)
        else if name == "item/agentMessage/delta" then
          if b.agentItemId.None? || Get(message.Params(), "itemId") != Str(b.agentItemId.value) then
            (Some(Refuse(BoundedAgentDeltaLacksExactItemStart, name, Some(raw))), b)
          else (Some(Watermark(name, raw)), b)
        else
          var items := GetIn(Get(message.Params(), "turn"), "items");
          var item := if items.Arr? && |items.items| > 0 then items.items[0] else Null;
          if b.agentItemId.Some? || b.lastCompletedAgent.None?
             || Str(b.lastCompletedAgent.value.0) != GetIn(item, "id")
             || Str(b.lastCompletedAgent.value.1) != GetIn(item, "text") then
            (Some(Refuse(BoundedTurnSummaryLacksExactCompletedAgentItem, name, Some(raw))), b)
          else (None, b)
  }

  function DecideInputEcho(b: Bounded, name: string, id: Json, raw: RawCustody): (r: (Option<Decision>, Bounded))
    ensures r.0.Some? && (r.0.value.Refuse? || r.0.value.Watermark?)
    ensures r.0.Some? ==> Carries(r.0.value, raw)
  {
    var itemId := if id.Str? then id.s else "";
    if name == "item/started" && b.inputItemId.Some? then
      (Some(Refuse(DuplicateBoundedUserInputStart, name, Some(raw))), b)
    else if name != "item/started" && (b.inputItemId != Some(itemId) || "item/started" !in b.inputMethods) then
      (Some(Refuse(BoundedUserInputCompletionLacksExactStart, name, Some(raw))), b)
    else
      var b1 := if name == "item/started" then b.(inputItemId := Some(itemId)) else b;
      if name in b1.inputMethods then
        (Some(Refuse(DuplicateBoundedUserInputLifecycleEvent, name, Some(raw))), b1)
      else (Some(Watermark(name, raw)), b1.(inputMethods := b1.inputMethods + {name}))
  }

  function DecideAgentItem(b: Bounded, name: string, item: Json, raw: RawCustody): (r: (Option<Decision>, Bounded))
    ensures r.0.Some? && (r.0.value.Refuse? || r.0.value.Watermark?)
    ensures r.0.Some? ==> Carries(r.0.value, raw)
  {
    var itemId := if GetIn(item, "id").Str? then GetIn(item, "id").s else "";
    var text := if GetIn(item, "text").Str? then GetIn(item, "text").s else "";
    if name == "item/started" then
      if b.agentItemId.Some? || itemId in b.completedAgentIds then
        (Some(Refuse(DuplicateBoundedAgentOutputStart, name, Some(raw))), b)
      else (Some(Watermark(name, raw)), b.(agentItemId := Some(itemId), agentText := Some(text)))
    else if b.agentItemId != Some(itemId) || itemId in b.completedAgentIds then
      (Some(Refuse(BoundedAgentOutputCompletionLacksExactStart, name, Some(raw))), b)
    else
      var b1 := CountCompletedAgent(b.(agentText := Some(text)), text);
      if !WithinAgentBound(b1) then
        (Some(Refuse(BoundedCompletedAgentOutputExceedsDecodedByteBound, name, Some(raw))), b1)
      else
        (Some(Watermark(name, raw)),
         b1.(completedAgentIds := b1.completedAgentIds + {itemId},
             lastCompletedAgent := Some((itemId, text)),
             agentItemId := None, agentText := None))
  }

  // ---- Server notifications and server requests ----

  predicate ProviderBoundaryMethod(name: string) {
    "providerAdmission/" <= name || "providerRequest/" <= name || "rawResponse/" <= name
  }

  predicate LocalFactMethod(name: string) {
    name in {"thread/started", "turn/started", "turn/completed"}
  }

  /** Whether the echo contract lets this frame use the larger byte bound. */
  function SelectedEcho(cfg: Config, s: State, message: ServerMessage): Option<bool> {
    if cfg.contract.BoundedTurnEchoV1?
    then SelectedFrame(message, s.bounded.turnInput, cfg.binding.base.threadId, Some(cfg.binding.base.turnId))
    else Some(false)
  }

  /** `_consume_impl`. */
  function DecideMessage(cfg: Config, s: State, message: ServerMessage, serverRequest: bool): Verdict {
    match SelectedEcho(cfg, s, message)
    case None => Verdict(Crash(UnhashablePhase), s.bounded)
    case Some(selected) =>
      match WireCustody(cfg.world, message,
                        if selected then MAXIMUM_USER_INPUT_ECHO_BYTES else MAXIMUM_RAW_EVIDENCE_BYTES)
      case Err(why) =>
        var name := message.MethodName();
        Verdict(Refuse(why, if name.Some? && name.value != "" then name.value else "unknown", None), s.bounded)
      case Ok(raw) => DecideCustodied(cfg, s, message, serverRequest, selected, raw)
  }

  /** `_consume_impl` once the exact bytes are in custody. */
  function DecideCustodied(
    cfg: Config, s: State, message: ServerMessage, serverRequest: bool, selected: bool, raw: RawCustody): (v: Verdict)
    ensures Carries(v.decision, raw)
  {
    match message.MethodName()
    case None => Verdict(Refuse(AppServerMethodIsNotAString, "unknown", Some(raw)), s.bounded)
    case Some(name) =>
      if !(1 <= |name| <= MAXIMUM_ID_CODEPOINTS) then
        Verdict(Refuse(AppServerMethodExceedsIdentityBound, "unknown", Some(raw)), s.bounded)
      else match DecideClosed(s, name, serverRequest, raw)
      case Some(refusal) => Verdict(refusal, s.bounded)
      case None =>
        if serverRequest then Verdict(DecideApproval(cfg, s, name, message.Params(), raw), s.bounded)
        else DecideNotification(cfg, s, name, message, selected, raw)
  }

  /** States in which provider evidence can no longer be admitted. */
  function DecideClosed(s: State, name: string, serverRequest: bool, raw: RawCustody): (d: Option<Decision>)
    ensures d.Some? ==> d.value.Refuse? && Carries(d.value, raw)
  {
    if s.disposition.ADMISSION_INDETERMINATE? then
      Some(Refuse(ProviderEvidenceFollowedAnIndeterminateDispatch, name, Some(raw)))
    else if s.mechanism.M_PROVIDER_COMPLETED? then
      Some(Refuse(AppServerActivityFollowedCompletedTurn, name, Some(raw)))
    else if s.mechanism.M_POST_ADMISSION_INTERRUPTED? then
      Some(Refuse(ProviderEvidenceFollowedAPostAdmissionInterruption, name, Some(raw)))
    else if s.mechanism.M_WAITING_APPROVAL? && (serverRequest || ProviderBoundaryMethod(name)) then
      Some(Refuse(ProviderActivityFollowedUnansweredApproval, name, Some(raw)))
    else None
  }

  function DecideNotification(
    cfg: Config, s: State, name: string, message: ServerMessage, selected: bool, raw: RawCustody): (v: Verdict)
    ensures Carries(v.decision, raw)
  {
    var params := message.Params();
    if name == "providerRequest/started" then Verdict(DecideProviderRequest(cfg, s, params, raw), s.bounded)
    else if name == "rawResponse/started" then Verdict(DecideResponseStarted(cfg, s, params, raw), s.bounded)
    else if name == "providerAdmission/refused" then Verdict(DecideRefusal(cfg, s, params, raw), s.bounded)
    else if name == "rawResponse/completed" then Verdict(DecideResponseCompleted(cfg, s, params, raw), s.bounded)
    else if name == "error" then
      Verdict(Refuse(CoarseOrUnclassifiedAppServerErrorCannotEstablishAdmission, name, Some(raw)), s.bounded)
    else if LocalFactMethod(name) then DecideTurnFact(cfg, s, name, message, selected, raw)
    else if name in {"item/started", "item/completed", "item/agentMessage/delta"}
            && cfg.contract.BoundedTurnEchoV1? && selected then
      var (checked, b) := DecideBoundedOutput(cfg, s, name, message, raw);
      // Only the turn summary is passed on, so an item frame always has a decision here.
      assert checked.Some?;
      Verdict(checked.value, b)
    else if ProviderBoundaryMethod(name) then
      Verdict(Refuse(UnknownProviderBoundaryNotification, name, Some(raw)), s.bounded)
    else DecideWatermark(cfg, s, name, params, raw)
  }

  /** The thread and turn facts; a selected summary must first agree with the agent bookkeeping. */
  function DecideTurnFact(
    cfg: Config, s: State, name: string, message: ServerMessage, selected: bool, raw: RawCustody): (v: Verdict)
    ensures Carries(v.decision, raw)
  {
    var (checked, b) :=
      if name == "turn/completed" && cfg.contract.BoundedTurnEchoV1? && selected
      then DecideBoundedOutput(cfg, s, name, message, raw)
      else (None, s.bounded);
    match checked
    case Some(decision) => Verdict(decision, b)
    case None => Verdict(DecideLocalFact(cfg, s.(bounded := b), name, message.Params(), raw), b)
  }

  /** The last branch of `_consume_impl`, with its unselected agent-output accounting. */
  function DecideWatermark(cfg: Config, s: State, name: string, params: Object, raw: RawCustody): (v: Verdict)
    ensures v.decision.Refuse? || v.decision.Watermark?
    ensures Carries(v.decision, raw)
  {
    var base := cfg.binding.base;
    var item := Get(params, "item");
    if && name == "item/completed" && cfg.contract.BoundedTurnEchoV1?
       && Get(params, "threadId") == Str(base.threadId) && Get(params, "turnId") == Str(base.turnId)
       && GetIn(item, "type") == Str("agentMessage") && GetIn(item, "text").Str? then
      var b := CountCompletedAgent(s.bounded, GetIn(item, "text").s);
      if !WithinAgentBound(b) then
        Verdict(Refuse(BoundedCompletedAgentOutputExceedsDecodedByteBound, name, Some(raw)), b)
      else Verdict(Watermark(name, raw), b)
    else Verdict(Watermark(name, raw), s.bounded)
  }

  // ---- Envelopes and cuts ----

  predicate BoundedMethodName(requestMethod: Option<string>) {
    requestMethod.Some? && 1 <= |requestMethod.value| <= MAXIMUM_ID_CODEPOINTS
  }

  /** The body of `_consume_envelope_impl` once the ordinal is the expected one. */
  function DecideInOrder(cfg: Config, s: State, e: AcquisitionEnvelope): Verdict {
    if e.kind.LOSS? then Verdict(DecideLoss(cfg, e), s.bounded)
    else if e.kind.UNKNOWN? then
      Verdict(Refuse(UnknownOrderedAcquisitionEnvelopeKind, NO_METHOD, None), s.bounded)
    else if e.message.None? || e.diagnostic.Some? || e.rawBytes.Some? then
      Verdict(Refuse(OrderedMessageEnvelopeShapeMismatch, NO_METHOD, None), s.bounded)
    else if e.kind.CLIENT_REQUEST? then
      if !BoundedMethodName(e.requestMethod) then
        Verdict(Refuse(ClientRequestLacksExactBoundedRequestMethod, NO_METHOD, None), s.bounded)
      else DecideClientRequest(cfg, s, e.requestMethod.value, e.message.value)
    else if e.kind.CLIENT_RESPONSE? then
      if !BoundedMethodName(e.requestMethod) then
        Verdict(Refuse(ClientResponseLacksExactBoundedRequestMethod, NO_METHOD, None), s.bounded)
      else Verdict(DecideClientResponse(cfg, s, e.requestMethod.value, e.message.value), s.bounded)
    else if e.requestMethod.Some? then
      Verdict(Refuse(OrderedProviderMessageUnexpectedlyCarriesARequestMethod, NO_METHOD, None), s.bounded)
    else DecideMessage(cfg, s, e.message.value, e.kind.SERVER_REQUEST?)
  }

  predicate DiagnosticWithinBound(diagnostic: Option<Reason>) {
    diagnostic.Some? && (diagnostic.value.Reported? ==> 1 <= |diagnostic.value.text| <= MAXIMUM_DIAGNOSTIC_CODEPOINTS)
  }

  function DecideLoss(cfg: Config, e: AcquisitionEnvelope): (d: Decision)
    ensures d.Crash? || d.Refuse?
  {
    if e.message.Some? then Refuse(LossEnvelopeUnexpectedlyContainsADecodedMessage, NO_METHOD, None)
    else if !DiagnosticWithinBound(e.diagnostic) then
      Crash(InvalidAcquisitionLossDiagnostic)
    else
      match e.rawBytes
      case None => Refuse(e.diagnostic.value, NO_METHOD, None)
      case Some(b) =>
        match FrameCustody(cfg.world, b)
        case Err(why) => Crash(why)
        case Ok(raw) => Refuse(e.diagnostic.value, NO_METHOD, Some(raw))
  }

  /** The six facts a clean terminal cut needs. */
  predicate CleanCut(s: State, cut: AcquisitionCut) {
    && cut.streamQuiesced
    && ProcessClosed(cut.processDisposition)
    && cut.lossGeneration == 0
    && cut.orderedHighWater == s.expectedOrdinal
    && s.clientRequests == map[]
    && s.mechanism in {M_PROVIDER_COMPLETED, M_PARKED_NOT_ADMITTED}
  }

  /** `_consume_cut_impl` up to its record. */
  function DecideCut(cfg: Config, s: State, cut: AcquisitionCut): (d: Decision)
    ensures d.Crash? || d.Close?
  {
    var base := cfg.binding.base;
    if s.acquisitionCut.Some? then Crash(TerminalAcquisitionCutIsAlreadyRetained)
    else if || cut.adapterProcessOccurrenceId != Some(base.adapterProcessOccurrenceId)
            || cut.appServerSessionIdentity != Some(base.appServerSessionIdentity) then
      Crash(AcquisitionCutOccurrenceIdentitySubstitution)
    else if !(0 <= cut.lossGeneration <= SAFE_INTEGER_MAX) then Crash(InvalidAcquisitionCutLossGeneration)
    else if !(0 <= cut.orderedHighWater <= SAFE_INTEGER_MAX) then Crash(InvalidAcquisitionCutOrderedHighWater)
    else if cut.processDisposition.FOREIGN? then Crash(UnknownAcquisitionCutProcessDisposition)
    else Close(CutFacts(
      base.adapterProcessOccurrenceId, base.appServerSessionIdentity, cut.streamQuiesced, cut.lossGeneration,
      cut.processDisposition, cut.orderedHighWater, s.expectedOrdinal, |s.clientRequests|, CleanCut(s, cut)))
  }

  // ---- Applying a decision ----

  function Body(
    cfg: Config, s: State, at: Acquisition, kind: RecordKind, name: string,
    raw: Option<RawCustody>, normalized: Normalized): RecordBody
  {
    RecordBody(|s.records|, at.ordinal, at.kind, cfg.binding.base, kind, name, normalized, raw)
  }

  /** `_record`: append one record, or raise when a bound is reached. */
  function Emit(
    cfg: Config, s: State, at: Acquisition, kind: RecordKind, name: string,
    raw: Option<RawCustody>, normalized: Normalized): Outcome
  {
    var body := Body(cfg, s, at, kind, name, raw, normalized);
    var size := cfg.world.recordBytes(body);
    if |s.records| >= MAXIMUM_RECORDS then
      Raised(s, ProviderAdmissionEvidenceRecordBoundExceeded)
    else if size > MAXIMUM_SNAPSHOT_BYTES - s.retainedRecordBytes then
      Raised(s, ProviderAdmissionEvidenceExceedsCumulativeByteBound)
    else
      var record := Record(body, cfg.world.evidenceDigest(body));
      Done(s.(records := s.records + [record], retainedRecordBytes := s.retainedRecordBytes + size), record)
  }

  /** The state change every discrepancy and every unclean cut makes. */
  function Distrust(s: State): State {
    if s.identity.None?
    then s.(disposition := ADMISSION_INDETERMINATE, mechanism := M_ADMISSION_INDETERMINATE)
    else s.(mechanism := M_POST_ADMISSION_INTERRUPTED)
  }

  /** `_mark_discrepancy`. */
  function Mark(
    cfg: Config, s: State, at: Acquisition, detail: Reason, name: string, raw: Option<RawCustody>): Outcome
  {
    Emit(cfg, Distrust(s), at, RecordKind.ADMISSION_DISCREPANCY, name, raw,
         Discrepancy(Truncated(detail), s.identity, s.identity.Some?))
  }

  function StepIdentityOf(base: BaseFields, request: Request, responseId: string): StepIdentity {
    StepIdentity(request.provider, request.model, base.threadId, base.turnId,
                 request.occurrenceId, request.ordinal, request.order, responseId)
  }

  function FirstIdentity(base: BaseFields, request: Request, responseId: string): ExecutionIdentity {
    ExecutionIdentity(request.provider, request.model, base.appServerSessionIdentity,
                      base.threadId, base.turnId, responseId)
  }

  /** The state after `_response_started` has mutated it and before its record. */
  function Respond(cfg: Config, s: State, request: Request, responseId: string, observedAtMs: int): State {
    var s1 := s.(
      pending := None, pendingStartedAtMs := None, lastBoundaryMs := Some(observedAtMs),
      openResponseId := Some(responseId),
      completedRequests := s.completedRequests + {request.occurrenceId});
    if s.identity.None?
    then s1.(identity := Some(FirstIdentity(cfg.binding.base, request, responseId)),
             disposition := EXECUTION_ADMITTED, mechanism := M_EXECUTION_ADMITTED)
    else s1.(mechanism := M_RUNNING)
  }

  function Parked(s: State, request: Request, observedAtMs: int): State {
    s.(pending := None, pendingStartedAtMs := None, lastBoundaryMs := Some(observedAtMs),
       completedRequests := s.completedRequests + {request.occurrenceId},
       disposition := NOT_ADMITTED_MODEL_AT_CAPACITY, mechanism := M_PARKED_NOT_ADMITTED)
  }

  function Closed(s: State, facts: CutFacts): State {
    var s1 := s.(acquisitionCut := Some(facts));
    if facts.clean then s1 else Distrust(s1)
  }

  /** The mutation and the one record each decision leads to. */
  function Apply(cfg: Config, s: State, at: Acquisition, d: Decision): Outcome {
    var base := cfg.binding.base;
    match d
    case Crash(error) => Raised(s, error)
    case Refuse(detail, name, raw) => Mark(cfg, s, at, detail, name, raw)
    case Watermark(name, raw) => Emit(cfg, s, at, ACQUISITION_WATERMARK, name, Some(raw), ProvesNothing)
    case LegacyFact(kind) => Emit(cfg, s, at, LOCAL_TURN_FACT, kind, None, ProvesNothing)
    case LocalFact(name, raw, completes) =>
      Emit(cfg, if completes then s.(mechanism := M_PROVIDER_COMPLETED) else s, at,
           LOCAL_TURN_FACT, name, Some(raw), ProvesNothing)
    case Issue(id, name, digest, raw) =>
      Emit(cfg, s.(clientRequests := s.clientRequests[id := ClientRequest(id, name, digest)]), at,
           CLIENT_REQUEST_ISSUED, ClientRequestMethod(name), Some(raw), ClientRequestFacts(id, name, digest))
    case Retain(id, name, digest, resultDigest, raw) =>
      Emit(cfg, s.(clientRequests := s.clientRequests - {id}), at,
           CLIENT_RESPONSE_RETAINED, ClientResponseMethod(name), Some(raw),
           ClientResponseFacts(id, name, digest, resultDigest))
    case BeginRequest(request, startedAtMs, raw) =>
      Emit(cfg, s.(pending := Some(request), pendingStartedAtMs := Some(startedAtMs)), at,
           PROVIDER_REQUEST_STARTED, "providerRequest/started", Some(raw),
           RequestStarted(request.occurrenceId, request.ordinal, request.order, startedAtMs))
    case BeginResponse(request, responseId, observedAtMs, raw) =>
      var s1 := Respond(cfg, s, request, responseId, observedAtMs);
      Emit(cfg, s1, at, PROVIDER_EXECUTION_STEP, "rawResponse/started", Some(raw),
           ExecutionStep(s1.identity.value, StepIdentityOf(base, request, responseId), s.identity.None?, observedAtMs))
    case Park(request, retryAfterMs, diagnostic, observedAtMs, raw) =>
      Emit(cfg, Parked(s, request, observedAtMs), at,
           PROVIDER_ADMISSION_REFUSED, "providerAdmission/refused", Some(raw),
           AdmissionRefused(request.occurrenceId, request.ordinal, request.order, retryAfterMs, diagnostic, observedAtMs))
    case FinishResponse(responseId, raw) =>
      Emit(cfg, s.(openResponseId := None, mechanism := M_RUNNING), at,
           PROVIDER_RESPONSE_COMPLETED, "rawResponse/completed", Some(raw), ResponseCompleted(responseId))
    case Surface(name, identity, raw) =>
      Emit(cfg, s.(mechanism := M_WAITING_APPROVAL), at,
           WAITING_APPROVAL_RECORD, name, Some(raw), ApprovalSurfaced(identity))
    case Close(facts) =>
      Emit(cfg, Closed(s, facts), at, RecordKind.ACQUISITION_CUT, "adapter/acquisition-cut", None, CutNormalized(facts))
  }

  // ---- Public operations ----

  /** One public call on the mapper. */
  datatype Op =
    | Envelope(envelope: AcquisitionEnvelope)
    | Unordered(message: ServerMessage, serverRequest: bool)
    | Loss(detail: Reason)
    | Legacy(legacyKind: string)
    | Cut(cut: AcquisitionCut)

  predicate KnownLegacyFact(kind: string) {
    kind in {"thread/start", "turn/start", "turn/started", "worker_started"}
  }

  const CUT_RETAINED: Reason := TerminalAcquisitionCutIsAlreadyRetained

  const GAP: Reason := OrderedAcquisitionOrdinalGapDuplicateOrReorder

  /** The expected ordinal after an envelope with this ordinal has been seen. */
  function NextExpected(expected: int, ordinal: int): int {
    if ordinal != expected then (if expected >= ordinal + 1 then expected else ordinal + 1) else expected + 1
  }

  /** `_consume_envelope_impl`. */
  function AttemptEnvelope(cfg: Config, s: State, e: AcquisitionEnvelope): Outcome {
    if s.acquisitionCut.Some? then Raised(s, CUT_RETAINED)
    else if !(0 <= e.ordinal <= SAFE_INTEGER_MAX) then Raised(s, InvalidAcquisitionOrdinal)
    else
      var s1 := s.(expectedOrdinal := NextExpected(s.expectedOrdinal, e.ordinal));
      var v := if e.ordinal != s.expectedOrdinal then Verdict(Refuse(GAP, NO_METHOD, None), s.bounded)
               else DecideInOrder(cfg, s1, e);
      Apply(cfg, s1.(bounded := v.bounded), Acquisition(Some(e.ordinal), Some(e.kind)), v.decision)
  }

  /** `consume` on a mapper that permits the unordered fixture path. */
  function AttemptUnordered(cfg: Config, s: State, message: ServerMessage, serverRequest: bool): Outcome {
    if s.acquisitionCut.Some? then Raised(s, CUT_RETAINED)
    else
      var v := DecideMessage(cfg, s, message, serverRequest);
      Apply(cfg, s.(bounded := v.bounded), UNORDERED, v.decision)
  }

  /** `mark_acquisition_loss`. */
  function AttemptLoss(cfg: Config, s: State, detail: Reason): Outcome {
    if s.acquisitionCut.Some? then Raised(s, CUT_RETAINED)
    else Apply(cfg, s, UNORDERED, Refuse(detail, NO_METHOD, None))
  }

  /** `record_legacy_local_fact`. */
  function AttemptLegacy(cfg: Config, s: State, kind: string): Outcome {
    if s.acquisitionCut.Some? then Raised(s, CUT_RETAINED)
    else Apply(cfg, s, UNORDERED,
      if KnownLegacyFact(kind) then LegacyFact(kind) else Refuse(UnknownLegacyLocalTurnFact, kind, None))
  }

  /** `_consume_cut_impl`. */
  function AttemptCut(cfg: Config, s: State, cut: AcquisitionCut): Outcome {
    Apply(cfg, s, UNORDERED, DecideCut(cfg, s, cut))
  }

  /** What the body of an operation does, before `_atomic` rolls a failure back. */
  function Attempt(cfg: Config, s: State, op: Op): Outcome {
    match op
    case Envelope(e) => AttemptEnvelope(cfg, s, e)
    case Unordered(message, serverRequest) => AttemptUnordered(cfg, s, message, serverRequest)
    case Loss(detail) => AttemptLoss(cfg, s, detail)
    case Legacy(kind) => AttemptLegacy(cfg, s, kind)
    case Cut(cut) => AttemptCut(cfg, s, cut)
  }

  /** `_atomic`: a failed operation gets its checkpointed fields back. The `_bounded_*` fields
      are not part of the checkpoint, so they keep whatever the failed operation wrote. */
  function Atomic(s: State, attempt: Outcome): Outcome {
    match attempt
    case Done(s', r) => Done(s', r)
    case Raised(s', error) => Raised(s.(bounded := s'.bounded), error)
  }

  /** One public operation. */
  function Step(cfg: Config, s: State, op: Op): Outcome {
    Atomic(s, Attempt(cfg, s, op))
  }

  datatype Snapshot = Snapshot(
    binding: Binding,
    disposition: Disposition,
    mechanism: Mechanism,
    identity: Option<ExecutionIdentity>,
    acquisitionCut: Option<CutFacts>,
    records: seq<Record>)

  /** `snapshot()`, without the digest of the whole. */
  function SnapshotOf(cfg: Config, s: State): Snapshot {
    Snapshot(cfg.binding, s.disposition, s.mechanism, s.identity, s.acquisitionCut, s.records)
  }
}
