/** What the mapper makes of each server message, told from the JSON fields: which notifications
    move admission, which only leave a trace, and which end in distrust. */
module ProviderFacts {
  import opened Wrappers
  import opened Utf8
  import opened Json
  import opened Reasons
  import opened AppServerProtocol
  import opened ProviderAdmission

  // ---- A message delivered ----

  /** The mapper is open and next in line for this object, which is in custody as this line. */
  predicate Delivered(cfg: Config, s: State, wire: bytes, fields: Object) {
    && s.acquisitionCut.None? && 0 <= s.expectedOrdinal <= 9007199254740991
    && 1 <= |wire| <= 16384 && wire[|wire| - 1] == 10
    && cfg.world.parse(wire) == Parsed(Obj(fields))
  }

  predicate Names(fields: Object, name: string) {
    "method" in fields && fields["method"] == Str(name) && 1 <= |name| <= 512
  }

  function ParamsOf(fields: Object): Object {
    if "params" in fields && fields["params"].Obj? then fields["params"].fields else map[]
  }

  function Feed(s: State, kind: EnvelopeKind, wire: bytes, fields: Object): Op {
    Envelope(AcquisitionEnvelope(s.expectedOrdinal, kind, Some(ServerMessage(fields, Some(wire))), None, None, None))
  }

  function Origin(s: State, kind: EnvelopeKind): Acquisition {
    Acquisition(Some(s.expectedOrdinal), Some(kind))
  }

  function CustodyOf(w: World, wire: bytes): RawCustody {
    RawCustody(EXACT_WIRE_BYTES, |wire|, w.sha256(wire), wire)
  }

  // ---- What a call leaves ----

  /** The call leaves this state and one record more, or raises because the log is full. */
  ghost predicate Keeps(
    cfg: Config, s: State, out: Outcome, at: Acquisition, after: State, kind: RecordKind, name: string,
    raw: Option<RawCustody>, n: Normalized)
  {
    var body := RecordBody(|s.records|, at.ordinal, at.kind, cfg.binding.base, kind, name, n, raw);
    var size := cfg.world.recordBytes(body);
    if |s.records| >= 4096 || size > 16777216 - s.retainedRecordBytes then out.Raised?
    else
      var record := Record(body, cfg.world.evidenceDigest(body));
      out == Done(after.(records := s.records + [record], retainedRecordBytes := s.retainedRecordBytes + size), record)
  }

  /** The call leaves a discrepancy, and a dispatch that is trusted no more. */
  ghost predicate Distrusts(
    cfg: Config, s: State, out: Outcome, at: Acquisition, after: State, name: string, raw: Option<RawCustody>)
  {
    exists detail: Reason ::
      Keeps(cfg, s, out, at,
        if s.identity.None?
        then after.(disposition := ADMISSION_INDETERMINATE, mechanism := M_ADMISSION_INDETERMINATE)
        else after.(mechanism := M_POST_ADMISSION_INTERRUPTED),
        RecordKind.ADMISSION_DISCREPANCY, name, raw, Discrepancy(detail, s.identity, s.identity.Some?))
  }

  lemma EmitKeeps(
    cfg: Config, s: State, after: State, at: Acquisition, kind: RecordKind, name: string,
    raw: Option<RawCustody>, n: Normalized)
    requires after.records == s.records && after.retainedRecordBytes == s.retainedRecordBytes
    ensures Keeps(cfg, s, Atomic(s, Emit(cfg, after, at, kind, name, raw, n)), at, after, kind, name, raw, n)
  {
  }

  lemma MarkDistrusts(
    cfg: Config, s: State, after: State, at: Acquisition, detail: Reason, name: string, raw: Option<RawCustody>)
    requires after.records == s.records && after.retainedRecordBytes == s.retainedRecordBytes
    requires after.identity == s.identity
    ensures Distrusts(cfg, s, Atomic(s, Mark(cfg, after, at, detail, name, raw)), at, after, name, raw)
  {
    hide Emit, Keeps;
    EmitKeeps(cfg, s, Distrust(after), at, RecordKind.ADMISSION_DISCREPANCY, name, raw,
              Discrepancy(Truncated(detail), s.identity, s.identity.Some?));
  }

  // ---- Reaching the decision ----

  /** A message that the echo contract does not select is decided by kind and method. */
  lemma MessageStep(cfg: Config, s: State, kind: EnvelopeKind, wire: bytes, fields: Object, name: string)
    requires Delivered(cfg, s, wire, fields) && Names(fields, name) && (kind.NOTIFICATION? || kind.SERVER_REQUEST?)
    requires SelectedEcho(cfg, s, ServerMessage(fields, Some(wire))) == Some(false)
    ensures var s1 := s.(expectedOrdinal := s.expectedOrdinal + 1);
      var v := DecideCustodied(cfg, s1, ServerMessage(fields, Some(wire)), kind.SERVER_REQUEST?, false,
                               CustodyOf(cfg.world, wire));
      Step(cfg, s, Feed(s, kind, wire, fields))
        == Atomic(s, Apply(cfg, s1.(bounded := v.bounded), Origin(s, kind), v.decision))
  {
    hide DecideCustodied, Apply;
    var message := ServerMessage(fields, Some(wire));
    assert WireCustody(cfg.world, message, MAXIMUM_RAW_EVIDENCE_BYTES) == Ok(CustodyOf(cfg.world, wire));
  }

  /** Only item frames and turn summaries are ever selected. */
  lemma Unselected(cfg: Config, s: State, message: ServerMessage, name: string)
    requires Names(message.raw, name)
    requires name !in {"item/started", "item/completed", "item/agentMessage/delta", "turn/completed"}
    ensures SelectedEcho(cfg, s, message) == Some(false)
  {
  }

  /** Provider evidence can still be admitted. */
  predicate Admits(s: State) {
    && s.disposition != ADMISSION_INDETERMINATE
    && s.mechanism !in {M_PROVIDER_COMPLETED, M_POST_ADMISSION_INTERRUPTED, M_WAITING_APPROVAL}
  }

  /** The four identities every provider notification repeats. */
  predicate OfTurn(base: BaseFields, p: Object) {
    && "threadId" in p && p["threadId"] == Str(base.threadId) && 1 <= |base.threadId| <= 512
    && "turnId" in p && p["turnId"] == Str(base.turnId) && 1 <= |base.turnId| <= 512
    && "provider" in p && p["provider"] == Str(base.provider) && 1 <= |base.provider| <= 512
    && "model" in p && p["model"] == Str(base.model) && 1 <= |base.model| <= 512
  }

  /** The message names this request. */
  predicate OfRequest(p: Object, occurrence: string, ordinal: int, order: int) {
    && "requestOccurrenceId" in p && p["requestOccurrenceId"] == Str(occurrence) && 1 <= |occurrence| <= 512
    && "samplingOrdinal" in p && p["samplingOrdinal"] == Json.Int(ordinal) && 0 <= ordinal <= 4294967295
    && "requestOrder" in p && p["requestOrder"] == Json.Int(order) && 0 <= order <= 4294967295
  }

  predicate TimeIn(p: Object, key: string) {
    key in p && p[key].Int? && -9007199254740991 <= p[key].n <= 9007199254740991
  }

  predicate IdIn(p: Object, key: string) {
    key in p && p[key].Str? && 1 <= |p[key].s| <= 512
  }

  /** The message names the pending request, no earlier than it began. */
  predicate OfPending(base: BaseFields, s: State, p: Object) {
    && s.pending.Some? && s.pendingStartedAtMs.Some?
    && s.pending.value.provider == base.provider && s.pending.value.model == base.model
    && OfTurn(base, p) && OfRequest(p, s.pending.value.occurrenceId, s.pending.value.ordinal, s.pending.value.order)
    && TimeIn(p, "observedAtMs") && s.pendingStartedAtMs.value <= p["observedAtMs"].n
  }

  lemma CommonMeans(base: BaseFields, p: Object, fields: set<string>)
    requires fields >= {"threadId", "turnId", "requestOccurrenceId", "samplingOrdinal", "requestOrder", "provider", "model"}
    ensures var r := CommonRequest(base, p, fields);
      && (r.Ok? <==> p.Keys == fields && OfTurn(base, p) && IdIn(p, "requestOccurrenceId")
                     && p["samplingOrdinal"].Int? && 0 <= p["samplingOrdinal"].n <= 4294967295
                     && p["requestOrder"].Int? && 0 <= p["requestOrder"].n <= 4294967295)
      && (r.Ok? ==> OfRequest(p, r.value.occurrenceId, r.value.ordinal, r.value.order)
                    && r.value.provider == base.provider && r.value.model == base.model)
  {
  }

  /** A refusal is a discrepancy under the message's own name. */
  lemma RefuseDistrusts(cfg: Config, s: State, next: State, at: Acquisition, d: Decision)
    requires d.Refuse? && next == s.(expectedOrdinal := next.expectedOrdinal, bounded := next.bounded)
    ensures Distrusts(cfg, s, Atomic(s, Apply(cfg, next, at, d)), at, next, d.refusedMethod, d.refusedRaw)
  {
    hide Mark, Distrusts, Atomic;
    MarkDistrusts(cfg, s, next, at, d.detail, d.refusedMethod, d.refusedRaw);
  }

  predicate BoundaryName(name: string) {
    name in {"providerRequest/started", "rawResponse/started", "providerAdmission/refused", "rawResponse/completed"}
  }

  /** How one of the four boundary notifications is decided. */
  function Boundary(cfg: Config, s: State, name: string, p: Object, raw: RawCustody): Decision
    requires BoundaryName(name)
  {
    if name == "providerRequest/started" then DecideProviderRequest(cfg, s, p, raw)
    else if name == "rawResponse/started" then DecideResponseStarted(cfg, s, p, raw)
    else if name == "providerAdmission/refused" then DecideRefusal(cfg, s, p, raw)
    else DecideResponseCompleted(cfg, s, p, raw)
  }

  lemma BoundaryNames(name: string)
    requires BoundaryName(name)
    ensures ProviderBoundaryMethod(name)
    ensures 1 <= |name| <= 512 && name !in {"item/started", "item/completed", "item/agentMessage/delta", "turn/completed"}
  {
    assert "providerRequest/started"[..16] == "providerRequest/";
    assert "rawResponse/started"[..12] == "rawResponse/";
    assert "providerAdmission/refused"[..18] == "providerAdmission/";
    assert "rawResponse/completed"[..12] == "rawResponse/";
    assert name[0] == 'p' || name[0] == 'r';
    assert "item/started"[0] == 'i' && "item/completed"[0] == 'i' && "item/agentMessage/delta"[0] == 'i';
    assert "turn/completed"[0] == 't';
  }

  lemma BoundaryDecided(cfg: Config, s: State, message: ServerMessage, name: string, raw: RawCustody)
    requires BoundaryName(name) && Names(message.raw, name)
    ensures var v := DecideCustodied(cfg, s, message, false, false, raw);
      && v.bounded == s.bounded
      && (Admits(s) ==> v.decision == Boundary(cfg, s, name, ParamsOf(message.raw), raw))
      && (!Admits(s) ==> v.decision.Refuse? && v.decision.refusedMethod == name && v.decision.refusedRaw == Some(raw))
  {
    hide DecideProviderRequest, DecideResponseStarted, DecideRefusal, DecideResponseCompleted;
    BoundaryNames(name);
    assert message.MethodName() == Some(name) && message.Params() == ParamsOf(message.raw);
  }

  /** A boundary notification in custody: distrusted outside an open dispatch, decided within. */
  lemma BoundaryStep(cfg: Config, s: State, wire: bytes, fields: Object, name: string)
    requires BoundaryName(name) && Delivered(cfg, s, wire, fields) && Names(fields, name)
    ensures var out, next := Step(cfg, s, Feed(s, NOTIFICATION, wire, fields)), s.(expectedOrdinal := s.expectedOrdinal + 1);
      var at, raw := Origin(s, NOTIFICATION), CustodyOf(cfg.world, wire);
      && (Admits(s) ==> out == Atomic(s, Apply(cfg, next, at, Boundary(cfg, next, name, ParamsOf(fields), raw))))
      && (!Admits(s) ==> Distrusts(cfg, s, out, at, next, name, Some(raw)))
  {
    hide DecideCustodied, Step, Apply, Boundary, Distrusts, Atomic;
    var message, next := ServerMessage(fields, Some(wire)), s.(expectedOrdinal := s.expectedOrdinal + 1);
    var raw := CustodyOf(cfg.world, wire);
    BoundaryNames(name);
    Unselected(cfg, s, message, name);
    MessageStep(cfg, s, NOTIFICATION, wire, fields, name);
    BoundaryDecided(cfg, next, message, name, raw);
    var d := DecideCustodied(cfg, next, message, false, false, raw).decision;
    assert next.(bounded := next.bounded) == next;
    if !Admits(s) {
      RefuseDistrusts(cfg, s, next, Origin(s, NOTIFICATION), d);
    }
  }

  // ---- A sampling request begins ----

  /** The next sampling request of an open dispatch, with nothing unresolved before it. */
  predicate BeginsRequest(base: BaseFields, s: State, p: Object) {
    && Admits(s) && s.disposition != NOT_ADMITTED_MODEL_AT_CAPACITY
    && s.pending.None? && s.openResponseId.None?
    && p.Keys == {"threadId", "turnId", "requestOccurrenceId", "samplingOrdinal", "requestOrder", "provider", "model",
                  "startedAtMs"}
    && OfTurn(base, p) && IdIn(p, "requestOccurrenceId")
    && OfRequest(p, p["requestOccurrenceId"].s, |s.completedRequests|, |s.completedRequests|)
    && p["requestOccurrenceId"].s !in s.completedRequests
    && (|s.completedRequests| > 0 ==> s.identity.Some?)
    && TimeIn(p, "startedAtMs") && (s.lastBoundaryMs.Some? ==> s.lastBoundaryMs.value <= p["startedAtMs"].n)
  }

  lemma RequestMeans(cfg: Config, s: State, p: Object, raw: RawCustody)
    requires Admits(s)
    ensures var d, base, n := DecideProviderRequest(cfg, s, p, raw), cfg.binding.base, |s.completedRequests|;
      if BeginsRequest(base, s, p)
      then d == BeginRequest(Request(p["requestOccurrenceId"].s, n, n, base.provider, base.model), p["startedAtMs"].n, raw)
      else d.Refuse? && d.refusedMethod == "providerRequest/started" && d.refusedRaw == Some(raw)
  {
    hide CommonRequest;
    CommonMeans(cfg.binding.base, p, REQUEST_FIELDS);
  }

  /** A `providerRequest/started` in custody begins a sampling request exactly when it is the next
      one; any other is distrusted. */
  lemma RequestStartedExactly(cfg: Config, s: State, wire: bytes, fields: Object)
    requires Delivered(cfg, s, wire, fields) && Names(fields, "providerRequest/started")
    ensures var out, p := Step(cfg, s, Feed(s, NOTIFICATION, wire, fields)), ParamsOf(fields);
      var at, raw := Origin(s, NOTIFICATION), CustodyOf(cfg.world, wire);
      var next, base, n := s.(expectedOrdinal := s.expectedOrdinal + 1), cfg.binding.base, |s.completedRequests|;
      if BeginsRequest(base, s, p) then
        Keeps(cfg, s, out, at,
          next.(pending := Some(Request(p["requestOccurrenceId"].s, n, n, base.provider, base.model)),
                pendingStartedAtMs := Some(p["startedAtMs"].n)),
          PROVIDER_REQUEST_STARTED, "providerRequest/started", Some(raw),
          RequestStarted(p["requestOccurrenceId"].s, n, n, p["startedAtMs"].n))
      else Distrusts(cfg, s, out, at, next, "providerRequest/started", Some(raw))
  {
    hide Step, Emit, Keeps, Distrusts, Mark, DecideProviderRequest, Atomic;
    var name, next, p := "providerRequest/started", s.(expectedOrdinal := s.expectedOrdinal + 1), ParamsOf(fields);
    var at, raw := Origin(s, NOTIFICATION), CustodyOf(cfg.world, wire);
    BoundaryStep(cfg, s, wire, fields, name);
    if Admits(s) {
      RequestMeans(cfg, next, p, raw);
      var d := DecideProviderRequest(cfg, next, p, raw);
      if d.BeginRequest? {
        EmitKeeps(cfg, s, next.(pending := Some(d.beginRequest), pendingStartedAtMs := Some(d.startedAtMs)), at,
          PROVIDER_REQUEST_STARTED, name, Some(raw),
          RequestStarted(d.beginRequest.occurrenceId, d.beginRequest.ordinal, d.beginRequest.order, d.startedAtMs));
      } else {
        RefuseDistrusts(cfg, s, next, at, d);
      }
    }
  }

  // ---- A response begins ----

  /** The first sight of a response to the pending request. */
  predicate BeginsResponse(base: BaseFields, s: State, p: Object) {
    && Admits(s) && OfPending(base, s, p)
    && p.Keys == {"threadId", "turnId", "requestOccurrenceId", "samplingOrdinal", "requestOrder", "provider", "model",
                  "responseId", "observedAtMs"}
    && IdIn(p, "responseId") && !Stepped(s.records, p["responseId"].s)
  }

  /** A step with this response is on record. */
  predicate Stepped(records: seq<Record>, responseId: string) {
    exists i :: 0 <= i < |records| && IsStep(records[i], responseId)
  }

  predicate IsStep(r: Record, responseId: string) {
    r.body.kind == PROVIDER_EXECUTION_STEP && r.body.normalized.ExecutionStep?
    && r.body.normalized.step.responseId == responseId
  }

  lemma SteppedIsKnown(records: seq<Record>, responseId: string)
    ensures ResponseKnown(records, Str(responseId)) <==> Stepped(records, responseId)
  {
    forall i | 0 <= i < |records|
      ensures StepsResponse(records[i], Str(responseId)) <==> IsStep(records[i], responseId)
    {
    }
  }

  lemma ResponseMeans(cfg: Config, s: State, p: Object, raw: RawCustody)
    requires Admits(s)
    ensures var d := DecideResponseStarted(cfg, s, p, raw);
      if BeginsResponse(cfg.binding.base, s, p)
      then d == BeginResponse(s.pending.value, p["responseId"].s, p["observedAtMs"].n, raw)
      else d.Refuse? && d.refusedMethod == "rawResponse/started" && d.refusedRaw == Some(raw)
  {
    hide CommonRequest, ResponseKnown, Stepped;
    CommonMeans(cfg.binding.base, p, RESPONSE_FIELDS);
    if IdIn(p, "responseId") {
      SteppedIsKnown(s.records, p["responseId"].s);
    }
  }

  /** The state a response's first sight leaves, and its record. */
  function Responding(base: BaseFields, s: State, responseId: string, at: int): State
    requires s.pending.Some?
  {
    s.(expectedOrdinal := s.expectedOrdinal + 1, pending := None, pendingStartedAtMs := None, lastBoundaryMs := Some(at),
       openResponseId := Some(responseId), completedRequests := s.completedRequests + {s.pending.value.occurrenceId},
       identity := if s.identity.Some? then s.identity
                   else Some(ExecutionIdentity(base.provider, base.model, base.appServerSessionIdentity, base.threadId,
                                               base.turnId, responseId)),
       disposition := if s.identity.Some? then s.disposition else EXECUTION_ADMITTED,
       mechanism := if s.identity.Some? then M_RUNNING else M_EXECUTION_ADMITTED)
  }

  /** A `rawResponse/started` in custody admits the execution, or carries it on, exactly when it is
      the first sight of a response to the pending request. */
  lemma ResponseStartedExactly(cfg: Config, s: State, wire: bytes, fields: Object)
    requires Delivered(cfg, s, wire, fields) && Names(fields, "rawResponse/started")
    ensures var out, p := Step(cfg, s, Feed(s, NOTIFICATION, wire, fields)), ParamsOf(fields);
      var at, raw, base := Origin(s, NOTIFICATION), CustodyOf(cfg.world, wire), cfg.binding.base;
      if BeginsResponse(base, s, p) then
        var after, q := Responding(base, s, p["responseId"].s, p["observedAtMs"].n), s.pending.value;
        Keeps(cfg, s, out, at, after, PROVIDER_EXECUTION_STEP, "rawResponse/started", Some(raw),
          ExecutionStep(after.identity.value,
            StepIdentity(base.provider, base.model, base.threadId, base.turnId, q.occurrenceId, q.ordinal, q.order,
                         p["responseId"].s),
            s.identity.None?, p["observedAtMs"].n))
      else Distrusts(cfg, s, out, at, s.(expectedOrdinal := s.expectedOrdinal + 1), "rawResponse/started", Some(raw))
  {
    hide Step, Emit, Keeps, Distrusts, Mark, DecideResponseStarted, Atomic, Stepped;
    var name, next, p := "rawResponse/started", s.(expectedOrdinal := s.expectedOrdinal + 1), ParamsOf(fields);
    var at, raw, base := Origin(s, NOTIFICATION), CustodyOf(cfg.world, wire), cfg.binding.base;
    BoundaryStep(cfg, s, wire, fields, name);
    if Admits(s) {
      ResponseMeans(cfg, next, p, raw);
      var d := DecideResponseStarted(cfg, next, p, raw);
      if d.BeginResponse? {
        var after := Responding(base, s, d.newResponseId, d.responseAtMs);
        assert Respond(cfg, next, d.responseRequest, d.newResponseId, d.responseAtMs) == after;
        EmitKeeps(cfg, s, after, at, PROVIDER_EXECUTION_STEP, name, Some(raw),
          ExecutionStep(after.identity.value, StepIdentityOf(base, d.responseRequest, d.newResponseId),
                        s.identity.None?, d.responseAtMs));
      } else {
        RefuseDistrusts(cfg, s, next, at, d);
      }
    }
  }

  // ---- A refusal parks ----

  /** The typed capacity refusal of the pending request, before any execution. */
  predicate RefusesForCapacity(base: BaseFields, s: State, p: Object) {
    && Admits(s) && s.identity.None? && OfPending(base, s, p)
    && p.Keys == {"threadId", "turnId", "requestOccurrenceId", "samplingOrdinal", "requestOrder", "provider", "model",
                  "responseCreated", "willRetry", "refusalKind", "codexErrorInfo", "retryAfterMs", "diagnostic",
                  "observedAtMs"}
    && p["responseCreated"] == Json.Bool(false) && p["willRetry"] == Json.Bool(false)
    && p["refusalKind"] == Str("modelAtCapacity") && p["codexErrorInfo"] == Str("serverOverloaded")
    && (p["retryAfterMs"] == Null || (p["retryAfterMs"].Int? && 0 <= p["retryAfterMs"].n <= 9007199254740991))
    && p["diagnostic"].Str? && |p["diagnostic"].s| <= 4096
  }

  function RetryAfter(p: Object): Option<int> {
    if "retryAfterMs" in p && p["retryAfterMs"].Int? then Some(p["retryAfterMs"].n) else None
  }

  lemma RefusalMeans(cfg: Config, s: State, p: Object, raw: RawCustody)
    requires Admits(s)
    ensures var d := DecideRefusal(cfg, s, p, raw);
      if RefusesForCapacity(cfg.binding.base, s, p)
      then d == Park(s.pending.value, RetryAfter(p), p["diagnostic"].s, p["observedAtMs"].n, raw)
      else d.Refuse? && d.refusedMethod == "providerAdmission/refused" && d.refusedRaw == Some(raw)
  {
    hide CommonRequest;
    CommonMeans(cfg.binding.base, p, REFUSAL_FIELDS);
  }

  lemma SameRefusal(base: BaseFields, s: State, expected: int, p: Object)
    ensures RefusesForCapacity(base, s.(expectedOrdinal := expected), p) <==> RefusesForCapacity(base, s, p)
    ensures RefusesForCapacity(base, s, p) ==> Admits(s) && s.pending.Some? && "diagnostic" in p && "observedAtMs" in p
  {
  }

  /** A `providerAdmission/refused` in custody parks the dispatch exactly when it is the typed
      capacity refusal of the pending request; any other is distrusted. */
  lemma RefusedExactly(cfg: Config, s: State, wire: bytes, fields: Object)
    requires Delivered(cfg, s, wire, fields) && Names(fields, "providerAdmission/refused")
    ensures var out, p := Step(cfg, s, Feed(s, NOTIFICATION, wire, fields)), ParamsOf(fields);
      var at, raw, next := Origin(s, NOTIFICATION), CustodyOf(cfg.world, wire), s.(expectedOrdinal := s.expectedOrdinal + 1);
      if RefusesForCapacity(cfg.binding.base, s, p) then
        var q := s.pending.value;
        Keeps(cfg, s, out, at,
          next.(pending := None, pendingStartedAtMs := None, lastBoundaryMs := Some(p["observedAtMs"].n),
                completedRequests := s.completedRequests + {q.occurrenceId},
                disposition := NOT_ADMITTED_MODEL_AT_CAPACITY, mechanism := M_PARKED_NOT_ADMITTED),
          PROVIDER_ADMISSION_REFUSED, "providerAdmission/refused", Some(raw),
          AdmissionRefused(q.occurrenceId, q.ordinal, q.order, RetryAfter(p), p["diagnostic"].s, p["observedAtMs"].n))
      else Distrusts(cfg, s, out, at, next, "providerAdmission/refused", Some(raw))
  {
    hide Step, Emit, Keeps, Distrusts, Mark, DecideRefusal, Atomic, RefusesForCapacity;
    var name, next, p := "providerAdmission/refused", s.(expectedOrdinal := s.expectedOrdinal + 1), ParamsOf(fields);
    var at, raw := Origin(s, NOTIFICATION), CustodyOf(cfg.world, wire);
    BoundaryStep(cfg, s, wire, fields, name);
    SameRefusal(cfg.binding.base, s, next.expectedOrdinal, p);
    assert name[0] == 'p' && name[8] == 'A';
    if Admits(s) {
      RefusalMeans(cfg, next, p, raw);
      var d := DecideRefusal(cfg, next, p, raw);
      if d.Park? {
        EmitKeeps(cfg, s, Parked(next, d.parkRequest, d.parkAtMs), at, PROVIDER_ADMISSION_REFUSED, name, Some(raw),
          AdmissionRefused(d.parkRequest.occurrenceId, d.parkRequest.ordinal, d.parkRequest.order, d.retryAfterMs,
                           d.diagnostic, d.parkAtMs));
      } else {
        RefuseDistrusts(cfg, s, next, at, d);
      }
    }
  }

  // ---- A response ends ----

  /** The end of the open response of an admitted execution. */
  predicate EndsResponse(base: BaseFields, s: State, p: Object) {
    && Admits(s) && s.identity.Some? && s.openResponseId.Some?
    && p.Keys == {"threadId", "turnId", "responseId", "usage"}
    && p["threadId"] == Str(base.threadId) && p["turnId"] == Str(base.turnId)
    && p["responseId"] == Str(s.openResponseId.value) && Stepped(s.records, s.openResponseId.value)
  }

  lemma CompletionMeans(cfg: Config, s: State, p: Object, raw: RawCustody)
    requires Admits(s)
    ensures var d := DecideResponseCompleted(cfg, s, p, raw);
      if EndsResponse(cfg.binding.base, s, p) then d == FinishResponse(s.openResponseId.value, raw)
      else d.Refuse? && d.refusedMethod == "rawResponse/completed" && d.refusedRaw == Some(raw)
  {
    hide ResponseKnown, Stepped;
    if s.openResponseId.Some? {
      SteppedIsKnown(s.records, s.openResponseId.value);
    }
  }

  /** A `rawResponse/completed` in custody ends the open response exactly when it names it. */
  lemma ResponseCompletedExactly(cfg: Config, s: State, wire: bytes, fields: Object)
    requires Delivered(cfg, s, wire, fields) && Names(fields, "rawResponse/completed")
    ensures var out, p := Step(cfg, s, Feed(s, NOTIFICATION, wire, fields)), ParamsOf(fields);
      var at, raw, next := Origin(s, NOTIFICATION), CustodyOf(cfg.world, wire), s.(expectedOrdinal := s.expectedOrdinal + 1);
      if EndsResponse(cfg.binding.base, s, p) then
        Keeps(cfg, s, out, at, next.(openResponseId := None, mechanism := M_RUNNING), PROVIDER_RESPONSE_COMPLETED,
          "rawResponse/completed", Some(raw), ResponseCompleted(s.openResponseId.value))
      else Distrusts(cfg, s, out, at, next, "rawResponse/completed", Some(raw))
  {
    hide Step, Emit, Keeps, Distrusts, Mark, DecideResponseCompleted, Atomic, Stepped;
    var name, next, p := "rawResponse/completed", s.(expectedOrdinal := s.expectedOrdinal + 1), ParamsOf(fields);
    var at, raw := Origin(s, NOTIFICATION), CustodyOf(cfg.world, wire);
    BoundaryStep(cfg, s, wire, fields, name);
    assert name[0] == 'r' && name[12] == 'c' && "rawResponse/started"[12] == 's';
    assert "providerRequest/started"[0] == 'p' && "providerAdmission/refused"[0] == 'p';
    if Admits(s) {
      CompletionMeans(cfg, next, p, raw);
      var d := DecideResponseCompleted(cfg, next, p, raw);
      if d.FinishResponse? {
        EmitKeeps(cfg, s, next.(openResponseId := None, mechanism := M_RUNNING), at, PROVIDER_RESPONSE_COMPLETED, name,
          Some(raw), ResponseCompleted(d.finishedResponseId));
      } else {
        RefuseDistrusts(cfg, s, next, at, d);
      }
    }
  }

  // ---- An approval surfaces ----

  /** An approval request of this turn, once its execution is admitted and between responses. */
  predicate AsksApproval(base: BaseFields, s: State, name: string, p: Object) {
    && Admits(s) && s.identity.Some? && s.openResponseId.None?
    && name in {"item/commandExecution/requestApproval", "item/fileChange/requestApproval"}
    && "threadId" in p && p["threadId"] == Str(base.threadId)
    && "turnId" in p && p["turnId"] == Str(base.turnId)
  }

  /** Nothing but an item frame or a turn summary is selected, whatever kind it comes as. */
  lemma ServerRequestDecided(cfg: Config, s: State, message: ServerMessage, name: string, raw: RawCustody)
    requires Names(message.raw, name)
    ensures var v := DecideCustodied(cfg, s, message, true, false, raw);
      && v.bounded == s.bounded
      && (Admits(s) ==> v.decision == DecideApproval(cfg, s, name, ParamsOf(message.raw), raw))
      && (!Admits(s) ==> v.decision.Refuse? && v.decision.refusedMethod == name && v.decision.refusedRaw == Some(raw))
  {
    hide DecideApproval;
    assert message.MethodName() == Some(name) && message.Params() == ParamsOf(message.raw);
  }

  /** A server request in custody surfaces an approval exactly when it asks for one; any other
      server request is distrusted. */
  lemma ServerRequestExactly(cfg: Config, s: State, wire: bytes, fields: Object, name: string)
    requires Delivered(cfg, s, wire, fields) && Names(fields, name)
    requires SelectedEcho(cfg, s, ServerMessage(fields, Some(wire))) == Some(false)
    ensures var out, p := Step(cfg, s, Feed(s, SERVER_REQUEST, wire, fields)), ParamsOf(fields);
      var at, raw, next := Origin(s, SERVER_REQUEST), CustodyOf(cfg.world, wire), s.(expectedOrdinal := s.expectedOrdinal + 1);
      if AsksApproval(cfg.binding.base, s, name, p) then
        Keeps(cfg, s, out, at, next.(mechanism := M_WAITING_APPROVAL), WAITING_APPROVAL_RECORD, name, Some(raw),
          ApprovalSurfaced(s.identity.value))
      else Distrusts(cfg, s, out, at, next, name, Some(raw))
  {
    hide Step, Emit, Keeps, Distrusts, Mark, DecideCustodied, Atomic, SelectedEcho;
    var next, p := s.(expectedOrdinal := s.expectedOrdinal + 1), ParamsOf(fields);
    var at, raw := Origin(s, SERVER_REQUEST), CustodyOf(cfg.world, wire);
    var message := ServerMessage(fields, Some(wire));
    MessageStep(cfg, s, SERVER_REQUEST, wire, fields, name);
    ServerRequestDecided(cfg, next, message, name, raw);
    var d := DecideCustodied(cfg, next, message, true, false, raw).decision;
    assert next.(bounded := next.bounded) == next;
    if d.Refuse? {
      RefuseDistrusts(cfg, s, next, at, d);
    } else {
      EmitKeeps(cfg, s, next.(mechanism := M_WAITING_APPROVAL), at, WAITING_APPROVAL_RECORD, name, Some(raw),
        ApprovalSurfaced(s.identity.value));
    }
  }

  // ---- Thread and turn facts ----

  /** The dispatch is still one that activity may follow; an unanswered approval lets facts pass. */
  predicate Active(s: State) {
    && s.disposition != ADMISSION_INDETERMINATE
    && s.mechanism !in {M_PROVIDER_COMPLETED, M_POST_ADMISSION_INTERRUPTED}
  }

  predicate InThread(base: BaseFields, p: Object) {
    "threadId" in p && p["threadId"] == Str(base.threadId)
  }

  predicate IdOf(p: Object, key: string, id: string) {
    && key in p && p[key].Obj? && "id" in p[key].fields && p[key].fields["id"] == Str(id)
  }

  /** The fact is about this thread and turn. */
  predicate OwnFact(base: BaseFields, name: string, p: Object) {
    if name == "thread/started" then IdOf(p, "thread", base.threadId)
    else InThread(base, p) && IdOf(p, "turn", base.turnId)
  }

  /** The turn may end: after an admitted execution with nothing open, or parked before any. */
  predicate MayEnd(s: State) {
    && s.pending.None? && s.openResponseId.None?
    && if s.identity.Some? then s.mechanism != M_WAITING_APPROVAL
       else s.disposition == NOT_ADMITTED_MODEL_AT_CAPACITY && s.mechanism == M_PARKED_NOT_ADMITTED
  }

  lemma FactDecided(cfg: Config, s: State, message: ServerMessage, name: string, raw: RawCustody)
    requires name in {"thread/started", "turn/started", "turn/completed"} && Names(message.raw, name)
    ensures var v := DecideCustodied(cfg, s, message, false, false, raw);
      && v.bounded == s.bounded
      && (Active(s) ==> v.decision == DecideLocalFact(cfg, s, name, ParamsOf(message.raw), raw))
      && (!Active(s) ==> v.decision.Refuse? && v.decision.refusedMethod == name && v.decision.refusedRaw == Some(raw))
  {
    hide DecideLocalFact;
    assert message.MethodName() == Some(name) && message.Params() == ParamsOf(message.raw);
    assert name[0] == 't';
    assert "providerRequest/started"[0] == 'p' && "rawResponse/started"[0] == 'r' && "providerAdmission/refused"[0] == 'p';
    assert "rawResponse/completed"[0] == 'r' && "error"[0] == 'e';
    assert "providerAdmission/"[0] == 'p' && "providerRequest/"[0] == 'p' && "rawResponse/"[0] == 'r';
  }

  /** A thread or turn fact in custody is kept exactly when it is about this thread and turn and,
      for the end of the turn, when the turn may end; and it completes the provider exactly when
      it ends a turn whose execution was admitted. */
  lemma TurnFactExactly(cfg: Config, s: State, wire: bytes, fields: Object, name: string)
    requires name in {"thread/started", "turn/started", "turn/completed"}
    requires Delivered(cfg, s, wire, fields) && Names(fields, name)
    requires SelectedEcho(cfg, s, ServerMessage(fields, Some(wire))) == Some(false)
    ensures var out, p := Step(cfg, s, Feed(s, NOTIFICATION, wire, fields)), ParamsOf(fields);
      var at, raw, next := Origin(s, NOTIFICATION), CustodyOf(cfg.world, wire), s.(expectedOrdinal := s.expectedOrdinal + 1);
      if Active(s) && OwnFact(cfg.binding.base, name, p) && (name == "turn/completed" ==> MayEnd(s)) then
        Keeps(cfg, s, out, at,
          if name == "turn/completed" && s.identity.Some? then next.(mechanism := M_PROVIDER_COMPLETED) else next,
          LOCAL_TURN_FACT, name, Some(raw), ProvesNothing)
      else Distrusts(cfg, s, out, at, next, name, Some(raw))
  {
    hide Step, Emit, Keeps, Distrusts, Mark, DecideCustodied, Atomic, SelectedEcho;
    var next, p := s.(expectedOrdinal := s.expectedOrdinal + 1), ParamsOf(fields);
    var at, raw := Origin(s, NOTIFICATION), CustodyOf(cfg.world, wire);
    var message := ServerMessage(fields, Some(wire));
    MessageStep(cfg, s, NOTIFICATION, wire, fields, name);
    FactDecided(cfg, next, message, name, raw);
    var d := DecideCustodied(cfg, next, message, false, false, raw).decision;
    assert next.(bounded := next.bounded) == next;
    if d.Refuse? {
      RefuseDistrusts(cfg, s, next, at, d);
    } else {
      EmitKeeps(cfg, s, if d.completes then next.(mechanism := M_PROVIDER_COMPLETED) else next, at, LOCAL_TURN_FACT, name,
        Some(raw), ProvesNothing);
    }
  }

  // ---- Everything else ----

  /** Notifications that are neither facts nor selected frames. */
  predicate OtherName(name: string) {
    && !BoundaryName(name) && name !in {"thread/started", "turn/started", "turn/completed"}
  }

  /** A method in one of the provider's own name spaces. */
  predicate ProviderSpace(name: string) {
    "providerAdmission/" <= name || "providerRequest/" <= name || "rawResponse/" <= name
  }

  lemma OtherDecided(cfg: Config, s: State, message: ServerMessage, name: string, raw: RawCustody)
    requires OtherName(name) && Names(message.raw, name)
    requires cfg.contract.BoundedTurnEchoV1? ==> name != "item/completed"
    ensures var v := DecideCustodied(cfg, s, message, false, false, raw);
      && v.bounded == s.bounded
      && (Active(s) && name != "error" && !ProviderSpace(name) ==> v.decision == Watermark(name, raw))
      && (!(Active(s) && name != "error" && !ProviderSpace(name)) ==>
            v.decision.Refuse? && v.decision.refusedMethod == name && v.decision.refusedRaw == Some(raw))
  {
    assert message.MethodName() == Some(name) && message.Params() == ParamsOf(message.raw);
  }

  /** Any other notification in custody leaves a trace of itself alone, unless it reports an error
      or an unknown boundary, or comes after the end: then it is distrusted. */
  lemma OtherNotificationExactly(cfg: Config, s: State, wire: bytes, fields: Object, name: string)
    requires OtherName(name) && Delivered(cfg, s, wire, fields) && Names(fields, name)
    requires SelectedEcho(cfg, s, ServerMessage(fields, Some(wire))) == Some(false)
    requires cfg.contract.BoundedTurnEchoV1? ==> name != "item/completed"
    ensures var out := Step(cfg, s, Feed(s, NOTIFICATION, wire, fields));
      var at, raw, next := Origin(s, NOTIFICATION), CustodyOf(cfg.world, wire), s.(expectedOrdinal := s.expectedOrdinal + 1);
      if Active(s) && name != "error" && !ProviderSpace(name) then
        Keeps(cfg, s, out, at, next, ACQUISITION_WATERMARK, name, Some(raw), ProvesNothing)
      else Distrusts(cfg, s, out, at, next, name, Some(raw))
  {
    hide Step, Emit, Keeps, Distrusts, Mark, DecideCustodied, Atomic, SelectedEcho;
    var next, at, raw := s.(expectedOrdinal := s.expectedOrdinal + 1), Origin(s, NOTIFICATION), CustodyOf(cfg.world, wire);
    var message := ServerMessage(fields, Some(wire));
    MessageStep(cfg, s, NOTIFICATION, wire, fields, name);
    OtherDecided(cfg, next, message, name, raw);
    var d := DecideCustodied(cfg, next, message, false, false, raw).decision;
    assert next.(bounded := next.bounded) == next;
    if d.Refuse? {
      RefuseDistrusts(cfg, s, next, at, d);
    } else {
      EmitKeeps(cfg, s, next, at, ACQUISITION_WATERMARK, name, Some(raw), ProvesNothing);
    }
  }
}
