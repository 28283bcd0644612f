/** The mapper as the object the source has: fields updated in place, a checkpoint taken and
    restored around every public call. Each method is proved to compute the corresponding
    part of ProviderAdmission.Step. */
module ProviderAdmissionMapper {
  import opened Wrappers
  import opened Json
  import opened Reasons
  import opened AppServerProtocol
  import opened ProviderAdmission

  /** The request sequence at the provider boundary. */
  datatype Boundary = Boundary(
    pending: Option<Request>,
    pendingStartedAtMs: Option<int>,
    openResponseId: Option<string>,
    lastBoundaryMs: Option<int>,
    completedRequests: set<string>)

  /** What may be claimed about the dispatch. */
  datatype Admission = Admission(
    disposition: Disposition,
    mechanism: Mechanism,
    identity: Option<ExecutionIdentity>)

  /** The position in the ordered acquisition. */
  datatype Custody = Custody(
    clientRequests: map<int, ClientRequest>,
    acquisitionCut: Option<CutFacts>,
    expectedOrdinal: int)

  /** The source's attributes, with those that change together grouped into one value each. */
  class Mapper {
    const cfg: Config
    const allowUnorderedFixture: bool

    var boundary: Boundary
    var admission: Admission
    var custody: Custody
    var current: Acquisition
    var records: seq<Record>
    var retainedRecordBytes: nat
    var bounded: Bounded

    /** All fields that outlive a call. */
    function Fields(): State
      reads this
    {
      State(boundary.pending, boundary.pendingStartedAtMs, boundary.openResponseId, custody.clientRequests,
            boundary.completedRequests, custody.acquisitionCut, custody.expectedOrdinal, boundary.lastBoundaryMs,
            admission.disposition, admission.mechanism, admission.identity, records, retainedRecordBytes, bounded)
    }

    /** Between calls no acquisition is current. */
    ghost predicate Valid()
      reads this
    {
      current == UNORDERED
    }

    /** What a call has led to: its result together with the fields it left. */
    ghost function Left(r: Result<Record, Reason>): Outcome
      reads this
    {
      match r
      case Ok(record) => Done(Fields(), record)
      case Err(error) => Raised(Fields(), error)
    }

    constructor (cfg: Config, allowUnorderedFixture: bool)
      ensures this.cfg == cfg && this.allowUnorderedFixture == allowUnorderedFixture
      ensures Valid() && Fields() == INITIAL
    {
      this.cfg, this.allowUnorderedFixture := cfg, allowUnorderedFixture;
      boundary := Boundary(None, None, None, None, {});
      admission := Admission(UNRESOLVED, M_DISPATCHING, None);
      custody := Custody(map[], None, 0);
      current := UNORDERED;
      records, retainedRecordBytes := [], 0;
      bounded := INITIAL_BOUNDED;
    }

    /** `_record`. */
    method Retain(kind: RecordKind, name: string, raw: Option<RawCustody>, normalized: Normalized)
      returns (r: Result<Record, Reason>)
      modifies this
      ensures current == old(current)
      ensures Left(r) == Emit(cfg, old(Fields()), old(current), kind, name, raw, normalized)
    {
      if |records| >= MAXIMUM_RECORDS {
        return Err(ProviderAdmissionEvidenceRecordBoundExceeded);
      }
      var body := RecordBody(|records|, current.ordinal, current.kind, cfg.binding.base, kind, name, normalized, raw);
      var recordBytes := cfg.world.recordBytes(body);
      if recordBytes > MAXIMUM_SNAPSHOT_BYTES - retainedRecordBytes {
        return Err(ProviderAdmissionEvidenceExceedsCumulativeByteBound);
      }
      var record := Record(body, cfg.world.evidenceDigest(body));
      retainedRecordBytes := retainedRecordBytes + recordBytes;
      records := records + [record];
      return Ok(record);
    }

    /** `_mark_discrepancy`. */
    method MarkDiscrepancy(detail: Reason, name: string, raw: Option<RawCustody>) returns (r: Result<Record, Reason>)
      modifies this
      ensures current == old(current)
      ensures Left(r) == Mark(cfg, old(Fields()), old(current), detail, name, raw)
    {
      if admission.identity.None? {
        admission := admission.(disposition := ADMISSION_INDETERMINATE, mechanism := M_ADMISSION_INDETERMINATE);
      } else {
        admission := admission.(mechanism := M_POST_ADMISSION_INTERRUPTED);
      }
      r := Retain(RecordKind.ADMISSION_DISCREPANCY, name, raw,
        Discrepancy(Truncated(detail), admission.identity, admission.identity.Some?));
    }

    /** Restores everything `_atomic` checkpoints: every field but the bounded bookkeeping.
        Records only grow during a call, so deleting the new ones restores the old list. */
    method Restore(checkpoint: State)
      modifies this
      ensures Valid()
      ensures Fields() == checkpoint.(bounded := old(bounded))
    {
      boundary := Boundary(checkpoint.pending, checkpoint.pendingStartedAtMs, checkpoint.openResponseId,
        checkpoint.lastBoundaryMs, checkpoint.completedRequests);
      admission := Admission(checkpoint.disposition, checkpoint.mechanism, checkpoint.identity);
      custody := Custody(checkpoint.clientRequests, checkpoint.acquisitionCut, checkpoint.expectedOrdinal);
      current := UNORDERED;
      records, retainedRecordBytes := checkpoint.records, checkpoint.retainedRecordBytes;
    }

    // ---- Public operations ----

    method ConsumeEnvelope(e: AcquisitionEnvelope) returns (r: Result<Record, Reason>)
      requires Valid()
      modifies this
      ensures Valid()
      ensures Left(r) == Step(cfg, old(Fields()), Envelope(e))
    {
      var checkpoint := Fields();
      r := ConsumeEnvelopeImpl(e);
      if r.Err? {
        Restore(checkpoint);
      }
    }

    method Consume(message: ServerMessage, serverRequest: bool) returns (r: Result<Record, Reason>)
      requires Valid()
      modifies this
      ensures Valid()
      ensures Left(r) ==
        if allowUnorderedFixture then Step(cfg, old(Fields()), Unordered(message, serverRequest))
        else Raised(old(Fields()), V2ProviderAdmissionRequiresAnOrderedAcquisitionEnvelope)
    {
      if !allowUnorderedFixture {
        return Err(V2ProviderAdmissionRequiresAnOrderedAcquisitionEnvelope);
      }
      var checkpoint := Fields();
      if custody.acquisitionCut.Some? {
        r := Err(CUT_RETAINED);
      } else {
        r := ConsumeImpl(message, serverRequest);
      }
      if r.Err? {
        Restore(checkpoint);
      }
    }

    method MarkAcquisitionLoss(detail: Reason) returns (r: Result<Record, Reason>)
      requires Valid()
      modifies this
      ensures Valid()
      ensures Left(r) == Step(cfg, old(Fields()), Loss(detail))
    {
      var checkpoint := Fields();
      if custody.acquisitionCut.Some? {
        r := Err(CUT_RETAINED);
      } else {
        r := MarkDiscrepancy(detail, NO_METHOD, None);
      }
      if r.Err? {
        Restore(checkpoint);
      }
    }

    method RecordLegacyLocalFact(kind: string) returns (r: Result<Record, Reason>)
      requires Valid()
      modifies this
      ensures Valid()
      ensures Left(r) == Step(cfg, old(Fields()), Legacy(kind))
    {
      var checkpoint := Fields();
      if custody.acquisitionCut.Some? {
        r := Err(CUT_RETAINED);
      } else if !KnownLegacyFact(kind) {
        r := MarkDiscrepancy(UnknownLegacyLocalTurnFact, kind, None);
      } else {
        r := Retain(LOCAL_TURN_FACT, kind, None, ProvesNothing);
      }
      if r.Err? {
        Restore(checkpoint);
      }
    }

    method ConsumeCut(cut: AcquisitionCut) returns (r: Result<Record, Reason>)
      requires Valid()
      modifies this
      ensures Valid()
      ensures Left(r) == Step(cfg, old(Fields()), Cut(cut))
    {
      var checkpoint := Fields();
      r := ConsumeCutImpl(cut);
      if r.Err? {
        Restore(checkpoint);
      }
    }

    // ---- Implementations ----

    method ConsumeEnvelopeImpl(e: AcquisitionEnvelope) returns (r: Result<Record, Reason>)
      requires Valid()
      modifies this
      ensures Valid()
      ensures Left(r) == AttemptEnvelope(cfg, old(Fields()), e)
    {
      if custody.acquisitionCut.Some? {
        return Err(CUT_RETAINED);
      }
      if !(0 <= e.ordinal <= SAFE_INTEGER_MAX) {
        return Err(InvalidAcquisitionOrdinal);
      }
      current := Acquisition(Some(e.ordinal), Some(e.kind));
      if e.ordinal != custody.expectedOrdinal {
        custody := custody.(expectedOrdinal :=
          if custody.expectedOrdinal >= e.ordinal + 1 then custody.expectedOrdinal else e.ordinal + 1);
        r := MarkDiscrepancy(GAP, NO_METHOD, None);
      } else {
        custody := custody.(expectedOrdinal := custody.expectedOrdinal + 1);
        r := ConsumeInOrder(e);
      }
      ghost var left := Left(r);
      current := UNORDERED;
      assert Left(r) == left;
    }

    method ConsumeInOrder(e: AcquisitionEnvelope) returns (r: Result<Record, Reason>)
      modifies this
      ensures current == old(current)
      ensures var v := DecideInOrder(cfg, old(Fields()), e);
        Left(r) == Apply(cfg, old(Fields()).(bounded := v.bounded), old(current), v.decision)
    {
      if e.kind.LOSS? {
        r := ConsumeLoss(e);
      } else if e.kind.UNKNOWN? {
        r := MarkDiscrepancy(UnknownOrderedAcquisitionEnvelopeKind, NO_METHOD, None);
      } else if e.message.None? || e.diagnostic.Some? || e.rawBytes.Some? {
        r := MarkDiscrepancy(OrderedMessageEnvelopeShapeMismatch, NO_METHOD, None);
      } else if e.kind.CLIENT_REQUEST? {
        if !BoundedMethodName(e.requestMethod) {
          r := MarkDiscrepancy(ClientRequestLacksExactBoundedRequestMethod, NO_METHOD, None);
        } else {
          r := AcceptClientRequest(e.requestMethod.value, e.message.value);
        }
      } else if e.kind.CLIENT_RESPONSE? {
        if !BoundedMethodName(e.requestMethod) {
          r := MarkDiscrepancy(ClientResponseLacksExactBoundedRequestMethod, NO_METHOD, None);
        } else {
          r := AcceptClientResponse(e.requestMethod.value, e.message.value);
        }
      } else if e.requestMethod.Some? {
        r := MarkDiscrepancy(OrderedProviderMessageUnexpectedlyCarriesARequestMethod, NO_METHOD, None);
      } else {
        r := ConsumeImpl(e.message.value, e.kind.SERVER_REQUEST?);
      }
    }

    method ConsumeLoss(e: AcquisitionEnvelope) returns (r: Result<Record, Reason>)
      modifies this
      ensures current == old(current)
      ensures Left(r) == Apply(cfg, old(Fields()), old(current), DecideLoss(cfg, e))
    {
      match DecideLoss(cfg, e)
      case Crash(why) => r := Err(why);
      case Refuse(detail, name, raw) => r := MarkDiscrepancy(detail, name, raw);
    }

    /** `_client_request`: the selected input is kept even when the call later fails. */
    method AcceptClientRequest(requestMethod: string, message: ServerMessage) returns (r: Result<Record, Reason>)
      modifies this
      ensures current == old(current)
      ensures var v := DecideClientRequest(cfg, old(Fields()), requestMethod, message);
        Left(r) == Apply(cfg, old(Fields()).(bounded := v.bounded), old(current), v.decision)
    {
      var v := DecideClientRequest(cfg, Fields(), requestMethod, message);
      bounded := v.bounded;
      r := PerformRequest(v.decision);
    }

    /** The three ways a client request ends: raise, discrepancy or issue. */
    method PerformRequest(d: Decision) returns (r: Result<Record, Reason>)
      requires d.Crash? || d.Refuse? || d.Issue?
      modifies this
      ensures current == old(current)
      ensures Left(r) == Apply(cfg, old(Fields()), old(current), d)
    {
      match d
      case Crash(why) => r := Err(why);
      case Refuse(detail, name, raw) => r := MarkDiscrepancy(detail, name, raw);
      case Issue(id, name, digest, raw) =>
        custody := custody.(clientRequests := custody.clientRequests[id := ClientRequest(id, name, digest)]);
        r := Retain(CLIENT_REQUEST_ISSUED, ClientRequestMethod(name), Some(raw), ClientRequestFacts(id, name, digest));
    }

    /** `_client_response`. */
    method AcceptClientResponse(requestMethod: string, message: ServerMessage) returns (r: Result<Record, Reason>)
      modifies this
      ensures current == old(current)
      ensures Left(r) ==
        Apply(cfg, old(Fields()), old(current), DecideClientResponse(cfg, old(Fields()), requestMethod, message))
    {
      match DecideClientResponse(cfg, Fields(), requestMethod, message)
      case Crash(why) => r := Err(why);
      case Refuse(detail, name, raw) => r := MarkDiscrepancy(detail, name, raw);
      case Retain(id, name, digest, resultDigest, raw) =>
        custody := custody.(clientRequests := custody.clientRequests - {id});
        r := Retain(CLIENT_RESPONSE_RETAINED, ClientResponseMethod(name), Some(raw),
          ClientResponseFacts(id, name, digest, resultDigest));
    }

    /** `_consume_impl`. */
    method ConsumeImpl(message: ServerMessage, serverRequest: bool) returns (r: Result<Record, Reason>)
      modifies this
      ensures current == old(current)
      ensures var v := DecideMessage(cfg, old(Fields()), message, serverRequest);
        Left(r) == Apply(cfg, old(Fields()).(bounded := v.bounded), old(current), v.decision)
    {
      var selected := SelectedEcho(cfg, Fields(), message);
      if selected.None? {
        return Err(UnhashablePhase);
      }
      var maximum := if selected.value then MAXIMUM_USER_INPUT_ECHO_BYTES else MAXIMUM_RAW_EVIDENCE_BYTES;
      match WireCustody(cfg.world, message, maximum)
      case Err(why) =>
        var methodName := message.MethodName();
        r := MarkDiscrepancy(why, if methodName.Some? && methodName.value != "" then methodName.value else "unknown", None);
      case Ok(raw) => r := ConsumeCustodied(message, serverRequest, selected.value, raw);
    }

    method ConsumeCustodied(message: ServerMessage, serverRequest: bool, selected: bool, raw: RawCustody)
      returns (r: Result<Record, Reason>)
      modifies this
      ensures current == old(current)
      ensures var v := DecideCustodied(cfg, old(Fields()), message, serverRequest, selected, raw);
        Left(r) == Apply(cfg, old(Fields()).(bounded := v.bounded), old(current), v.decision)
    {
      var methodName := message.MethodName();
      if methodName.None? {
        r := MarkDiscrepancy(AppServerMethodIsNotAString, "unknown", Some(raw));
      } else if !(1 <= |methodName.value| <= MAXIMUM_ID_CODEPOINTS) {
        r := MarkDiscrepancy(AppServerMethodExceedsIdentityBound, "unknown", Some(raw));
      } else {
        var refusal := DecideClosed(Fields(), methodName.value, serverRequest, raw);
        if refusal.Some? {
          r := MarkDiscrepancy(refusal.value.detail, refusal.value.refusedMethod, refusal.value.refusedRaw);
        } else if serverRequest {
          r := SurfaceApproval(methodName.value, message.Params(), raw);
        } else {
          r := ConsumeNotification(methodName.value, message, selected, raw);
        }
      }
    }

    method ConsumeNotification(name: string, message: ServerMessage, selected: bool, raw: RawCustody)
      returns (r: Result<Record, Reason>)
      modifies this
      ensures current == old(current)
      ensures var v := DecideNotification(cfg, old(Fields()), name, message, selected, raw);
        Left(r) == Apply(cfg, old(Fields()).(bounded := v.bounded), old(current), v.decision)
    {
      var params := message.Params();
      if name == "providerRequest/started" {
        r := ProviderRequest(params, raw);
      } else if name == "rawResponse/started" {
        r := ResponseStarted(params, raw);
      } else if name == "providerAdmission/refused" {
        r := ProviderRefused(params, raw);
      } else if name == "rawResponse/completed" {
        r := ResponseCompleted(params, raw);
      } else if name == "error" {
        r := MarkDiscrepancy(CoarseOrUnclassifiedAppServerErrorCannotEstablishAdmission, name, Some(raw));
      } else if LocalFactMethod(name) {
        r := ConsumeTurnFact(name, message, selected, raw);
      } else if name in {"item/started", "item/completed", "item/agentMessage/delta"}
                && cfg.contract.BoundedTurnEchoV1? && selected {
        var v := DecideBoundedOutput(cfg, Fields(), name, message, raw);
        bounded := v.1;
        r := PerformBounded(v.0.value);
      } else if ProviderBoundaryMethod(name) {
        r := MarkDiscrepancy(UnknownProviderBoundaryNotification, name, Some(raw));
      } else {
        var v := DecideWatermark(cfg, Fields(), name, params, raw);
        bounded := v.bounded;
        r := PerformBounded(v.decision);
      }
    }

    method ConsumeTurnFact(name: string, message: ServerMessage, selected: bool, raw: RawCustody)
      returns (r: Result<Record, Reason>)
      modifies this
      ensures current == old(current)
      ensures var v := DecideTurnFact(cfg, old(Fields()), name, message, selected, raw);
        Left(r) == Apply(cfg, old(Fields()).(bounded := v.bounded), old(current), v.decision)
    {
      if name == "turn/completed" && cfg.contract.BoundedTurnEchoV1? && selected {
        var v := DecideBoundedOutput(cfg, Fields(), name, message, raw);
        bounded := v.1;
        if v.0.Some? {
          r := PerformBounded(v.0.value);
          return;
        }
      }
      r := AcceptLocalFact(name, message.Params(), raw);
    }

    /** The three ways bounded-output bookkeeping ends: raise, discrepancy or watermark. */
    method PerformBounded(d: Decision) returns (r: Result<Record, Reason>)
      requires d.Crash? || d.Refuse? || d.Watermark?
      modifies this
      ensures current == old(current)
      ensures Left(r) == Apply(cfg, old(Fields()), old(current), d)
    {
      match d
      case Crash(why) => r := Err(why);
      case Refuse(detail, name, raw) => r := MarkDiscrepancy(detail, name, raw);
      case Watermark(name, raw) => r := Retain(ACQUISITION_WATERMARK, name, Some(raw), ProvesNothing);
    }

    /** `_provider_request`. */
    method ProviderRequest(params: Object, raw: RawCustody) returns (r: Result<Record, Reason>)
      modifies this
      ensures current == old(current)
      ensures Left(r) == Apply(cfg, old(Fields()), old(current), DecideProviderRequest(cfg, old(Fields()), params, raw))
    {
      match CheckProviderRequest(cfg, Fields(), params)
      case Err(why) => r := MarkDiscrepancy(why, "providerRequest/started", Some(raw));
      case Ok((request, startedAtMs)) =>
        boundary := boundary.(pending := Some(request), pendingStartedAtMs := Some(startedAtMs));
        r := Retain(PROVIDER_REQUEST_STARTED, "providerRequest/started", Some(raw),
          RequestStarted(request.occurrenceId, request.ordinal, request.order, startedAtMs));
    }

    /** `_response_started`. */
    method ResponseStarted(params: Object, raw: RawCustody) returns (r: Result<Record, Reason>)
      modifies this
      ensures current == old(current)
      ensures Left(r) == Apply(cfg, old(Fields()), old(current), DecideResponseStarted(cfg, old(Fields()), params, raw))
    {
      match CheckResponseStarted(cfg, Fields(), params)
      case Err(why) => r := MarkDiscrepancy(why, "rawResponse/started", Some(raw));
      case Ok((request, responseId, observedAtMs)) =>
        boundary := boundary.(pending := None, pendingStartedAtMs := None, lastBoundaryMs := Some(observedAtMs),
          openResponseId := Some(responseId),
          completedRequests := boundary.completedRequests + {request.occurrenceId});
        var base := cfg.binding.base;
        var first := admission.identity.None?;
        if first {
          admission := Admission(EXECUTION_ADMITTED, M_EXECUTION_ADMITTED,
            Some(ExecutionIdentity(request.provider, request.model,
              base.appServerSessionIdentity, base.threadId, base.turnId, responseId)));
        } else {
          admission := admission.(mechanism := M_RUNNING);
        }
        r := Retain(PROVIDER_EXECUTION_STEP, "rawResponse/started", Some(raw),
          ExecutionStep(admission.identity.value,
            StepIdentity(request.provider, request.model, base.threadId, base.turnId,
              request.occurrenceId, request.ordinal, request.order, responseId),
            first, observedAtMs));
    }

    /** `_provider_refused`. */
    method ProviderRefused(params: Object, raw: RawCustody) returns (r: Result<Record, Reason>)
      modifies this
      ensures current == old(current)
      ensures Left(r) == Apply(cfg, old(Fields()), old(current), DecideRefusal(cfg, old(Fields()), params, raw))
    {
      match CheckRefusal(cfg, Fields(), params)
      case Err(why) => r := MarkDiscrepancy(why, "providerAdmission/refused", Some(raw));
      case Ok((request, retryAfterMs, diagnostic, observedAtMs)) =>
        boundary := boundary.(pending := None, pendingStartedAtMs := None, lastBoundaryMs := Some(observedAtMs),
          completedRequests := boundary.completedRequests + {request.occurrenceId});
        admission := admission.(disposition := NOT_ADMITTED_MODEL_AT_CAPACITY, mechanism := M_PARKED_NOT_ADMITTED);
        r := Retain(PROVIDER_ADMISSION_REFUSED, "providerAdmission/refused", Some(raw),
          AdmissionRefused(request.occurrenceId, request.ordinal, request.order, retryAfterMs, diagnostic, observedAtMs));
    }

    /** `_response_completed`. */
    method ResponseCompleted(params: Object, raw: RawCustody) returns (r: Result<Record, Reason>)
      modifies this
      ensures current == old(current)
      ensures Left(r) == Apply(cfg, old(Fields()), old(current), DecideResponseCompleted(cfg, old(Fields()), params, raw))
    {
      match DecideResponseCompleted(cfg, Fields(), params, raw)
      case Refuse(detail, name, why) => r := MarkDiscrepancy(detail, name, why);
      case FinishResponse(responseId, _) =>
        boundary := boundary.(openResponseId := None);
        admission := admission.(mechanism := M_RUNNING);
        r := Retain(PROVIDER_RESPONSE_COMPLETED, "rawResponse/completed", Some(raw), Normalized.ResponseCompleted(responseId));
    }

    /** `_local_fact`. */
    method AcceptLocalFact(factMethod: string, params: Object, raw: RawCustody) returns (r: Result<Record, Reason>)
      modifies this
      ensures current == old(current)
      ensures Left(r) == Apply(cfg, old(Fields()), old(current), DecideLocalFact(cfg, old(Fields()), factMethod, params, raw))
    {
      match DecideLocalFact(cfg, Fields(), factMethod, params, raw)
      case Refuse(detail, name, why) => r := MarkDiscrepancy(detail, name, why);
      case LocalFact(_, _, completes) =>
        if completes {
          admission := admission.(mechanism := M_PROVIDER_COMPLETED);
        }
        r := Retain(LOCAL_TURN_FACT, factMethod, Some(raw), ProvesNothing);
    }

    /** `_approval_or_discrepancy`: the request is surfaced, never answered. */
    method SurfaceApproval(approvalMethod: string, params: Object, raw: RawCustody) returns (r: Result<Record, Reason>)
      modifies this
      ensures current == old(current)
      ensures Left(r) ==
        Apply(cfg, old(Fields()), old(current), DecideApproval(cfg, old(Fields()), approvalMethod, params, raw))
    {
      match DecideApproval(cfg, Fields(), approvalMethod, params, raw)
      case Refuse(detail, name, why) => r := MarkDiscrepancy(detail, name, why);
      case Surface(_, identity, _) =>
        admission := admission.(mechanism := M_WAITING_APPROVAL);
        r := Retain(WAITING_APPROVAL_RECORD, approvalMethod, Some(raw), ApprovalSurfaced(identity));
    }

    /** `_consume_cut_impl`. */
    method ConsumeCutImpl(cut: AcquisitionCut) returns (r: Result<Record, Reason>)
      requires Valid()
      modifies this
      ensures Valid()
      ensures Left(r) == AttemptCut(cfg, old(Fields()), cut)
    {
      match DecideCut(cfg, Fields(), cut)
      case Crash(why) => r := Err(why);
      case Close(facts) =>
        custody := custody.(acquisitionCut := Some(facts));
        if !facts.clean {
          if admission.identity.None? {
            admission := admission.(disposition := ADMISSION_INDETERMINATE, mechanism := M_ADMISSION_INDETERMINATE);
          } else {
            admission := admission.(mechanism := M_POST_ADMISSION_INTERRUPTED);
          }
        }
        r := Retain(RecordKind.ACQUISITION_CUT, "adapter/acquisition-cut", None, CutNormalized(facts));
    }

    /** `snapshot`. */
    function TakeSnapshot(): Snapshot
      reads this
    {
      SnapshotOf(cfg, Fields())
    }
  }
}
