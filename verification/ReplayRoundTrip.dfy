/** Replay against the live mapper: exactly which live logs replay, and that an accepted log
    rebuilds the very state that wrote it. */
module ReplayRoundTrip {
  import opened Wrappers
  import opened Utf8
  import opened Json
  import opened AppServerProtocol
  import opened Reasons
  import opened ProviderAdmission
  import opened AdmissionGuards
  import opened AdmissionLog
  import opened AdmissionRollback
  import opened AdmissionReplay

  // ---- Which calls leave a replayable record ----

  predicate ShapeMismatch(e: AcquisitionEnvelope) {
    e.message.None? || e.diagnostic.Some? || e.rawBytes.Some?
  }

  /** The custody check `_consume_impl` makes on a server message. */
  predicate CustodyHolds(cfg: Config, s: State, message: ServerMessage) {
    var selected := SelectedEcho(cfg, s, message);
    && selected.Some?
    && WireCustody(cfg.world, message,
         if selected.value then MAXIMUM_USER_INPUT_ECHO_BYTES else MAXIMUM_RAW_EVIDENCE_BYTES).Ok?
  }

  /** Client traffic must be in order and well shaped; a server message in order must be
      either misshapen or custody-valid without a request method. */
  predicate ReplayableEnvelope(cfg: Config, s: State, e: AcquisitionEnvelope) {
    if e.ordinal != s.expectedOrdinal then !ClientKind(e.kind)
    else if e.kind.LOSS? || e.kind.UNKNOWN? then true
    else if ClientKind(e.kind) then !ShapeMismatch(e) && BoundedMethodName(e.requestMethod)
    else ShapeMismatch(e) || (e.requestMethod.None? && CustodyHolds(cfg, s, e.message.value))
  }

  predicate Replayable(cfg: Config, s: State, op: Op) {
    match op
    case Envelope(e) => ReplayableEnvelope(cfg, s, e)
    case Legacy(kind) => KnownLegacyFact(kind) || kind == NO_METHOD
    case _ => true
  }

  // ---- What the records of custody-valid messages look like ----

  /** The record retains the exact bytes, which decode to the message. */
  predicate RetainsMessage(w: World, body: RecordBody, message: ServerMessage) {
    && body.raw.Some? && message.rawBytes == Some(body.raw.value.content)
    && Decoded(w, body.raw.value.content) == Some(message)
  }

  lemma CustodyDecodes(w: World, message: ServerMessage, maximum: nat)
    requires WireCustody(w, message, maximum).Ok?
    ensures var raw := WireCustody(w, message, maximum).value;
      message.rawBytes == Some(raw.content) && Decoded(w, raw.content) == Some(message)
  {
  }

  lemma ApplyRetainsRaw(cfg: Config, s: State, at: Acquisition, d: Decision)
    requires Apply(cfg, s, at, d).Done?
    ensures var body := Apply(cfg, s, at, d).record.body;
      && body.raw == DecisionRaw(d)
      && body.acquisitionOrdinal == at.ordinal && body.acquisitionKind == at.kind
      && body.sequence == |s.records|
      && Apply(cfg, s, at, d).record.evidenceDigest == cfg.world.evidenceDigest(body)
  {
  }

  /** Every decision about a server message carries its custody, unless custody failed. */
  lemma MessageRetainsRaw(cfg: Config, s: State, message: ServerMessage, serverRequest: bool)
    ensures var d := DecideMessage(cfg, s, message, serverRequest).decision;
      if CustodyHolds(cfg, s, message) then
        d.Crash? || (DecisionRaw(d).Some? && message.rawBytes == Some(DecisionRaw(d).value.content)
                     && Decoded(cfg.world, DecisionRaw(d).value.content) == Some(message))
      else
        d.Crash? || (d.Refuse? && d.refusedRaw.None? && d.detail != OrderedMessageEnvelopeShapeMismatch)
  {
    var selected := SelectedEcho(cfg, s, message);
    if selected.Some? {
      var maximum := if selected.value then MAXIMUM_USER_INPUT_ECHO_BYTES else MAXIMUM_RAW_EVIDENCE_BYTES;
      var custody := WireCustody(cfg.world, message, maximum);
      if custody.Ok? {
        CustodyDecodes(cfg.world, message, maximum);
      }
    }
  }

  // ---- Redoing one call ----

  /** Whether replay remakes this very record, given the call it reconstructs. */
  predicate Remakes(cfg: Config, s: State, op: Option<Op>, out: Outcome) {
    op.Some? && Step(cfg, s, op.value) == out
  }

  lemma PrefixStrips(prefix: string, rest: string)
    ensures StripPrefix(prefix, prefix + rest) == Some(rest)
  {
    assert (prefix + rest)[..|prefix|] == prefix;
    assert (prefix + rest)[|prefix|..] == rest;
  }

  lemma MethodStrips(kind: EnvelopeKind, requestMethod: string)
    requires ClientKind(kind)
    ensures ReplayedMethod(kind, if kind.CLIENT_REQUEST? then ClientRequestMethod(requestMethod)
                                 else ClientResponseMethod(requestMethod)) == Some(requestMethod)
  {
    PrefixStrips("client-request/", requestMethod);
    PrefixStrips("client-response/", requestMethod);
  }

  lemma NoMethodIsNotAClientMethod(kind: EnvelopeKind)
    requires ClientKind(kind)
    ensures ReplayedMethod(kind, NO_METHOD).None?
  {
    assert NO_METHOD[0] == 'a';
    assert "client-request/"[0] == 'c' && "client-response/"[0] == 'c';
  }

  /** A gap is replayed as the same gap, except that client traffic is refused outright. */
  lemma RedoGap(cfg: Config, s: State, e: AcquisitionEnvelope)
    requires Step(cfg, s, Envelope(e)).Done? && e.ordinal != s.expectedOrdinal
    ensures var out := Step(cfg, s, Envelope(e));
      var op := Reconstruct(cfg.world, out.record.body);
      if ClientKind(e.kind) then op.None? else Remakes(cfg, s, op, out)
  {
    var s1 := s.(expectedOrdinal := NextExpected(s.expectedOrdinal, e.ordinal));
    var at := Acquisition(Some(e.ordinal), Some(e.kind));
    var out := Step(cfg, s, Envelope(e));
    assert out == Mark(cfg, s1, at, GAP, NO_METHOD, None);
    if ClientKind(e.kind) {
      NoMethodIsNotAClientMethod(e.kind);
    }
  }

  /** In-order losses and unknown envelopes are replayed as themselves. */
  lemma RedoLoss(cfg: Config, s: State, e: AcquisitionEnvelope)
    requires Step(cfg, s, Envelope(e)).Done? && e.ordinal == s.expectedOrdinal && (e.kind.LOSS? || e.kind.UNKNOWN?)
    ensures var out := Step(cfg, s, Envelope(e));
      Remakes(cfg, s, Reconstruct(cfg.world, out.record.body), out)
  {
    var s1 := s.(expectedOrdinal := s.expectedOrdinal + 1);
    var at := Acquisition(Some(e.ordinal), Some(e.kind));
    var out := Step(cfg, s, Envelope(e));
    var d := DecideInOrder(cfg, s1, e).decision;
    assert out == Apply(cfg, s1, at, d);
    var op := Reconstruct(cfg.world, out.record.body);
    assert DecideInOrder(cfg, s1, op.value.envelope) == Verdict(d, s1.bounded);
  }

  /** The in-order step, as a decision applied. */
  lemma InOrderStep(cfg: Config, s: State, e: AcquisitionEnvelope) returns (s2: State, v: Verdict)
    requires Step(cfg, s, Envelope(e)).Done? && e.ordinal == s.expectedOrdinal
    ensures v == DecideInOrder(cfg, s.(expectedOrdinal := s.expectedOrdinal + 1), e)
    ensures s2 == s.(expectedOrdinal := s.expectedOrdinal + 1, bounded := v.bounded)
    ensures Step(cfg, s, Envelope(e)) == Apply(cfg, s2, Acquisition(Some(e.ordinal), Some(e.kind)), v.decision)
    ensures var body := Step(cfg, s, Envelope(e)).record.body;
      && body.raw == DecisionRaw(v.decision)
      && body.acquisitionOrdinal == Some(e.ordinal) && body.acquisitionKind == Some(e.kind)
  {
    var s1, at, d := Decompose(cfg, s, Envelope(e));
    s2, v := s1, Verdict(d, s1.bounded);
    assert s1.expectedOrdinal == s.expectedOrdinal + 1;
    ApplyRetainsRaw(cfg, s2, at, d);
  }

  /** The record of client traffic in good shape names its method and keeps its bytes. */
  lemma ClientRecord(cfg: Config, s: State, e: AcquisitionEnvelope)
    requires Step(cfg, s, Envelope(e)).Done? && e.ordinal == s.expectedOrdinal && ClientKind(e.kind)
    requires !ShapeMismatch(e) && BoundedMethodName(e.requestMethod)
    ensures var body := Step(cfg, s, Envelope(e)).record.body;
      && body.acquisitionOrdinal == Some(e.ordinal) && body.acquisitionKind == Some(e.kind)
      && body.methodName == (if e.kind.CLIENT_REQUEST? then ClientRequestMethod(e.requestMethod.value)
                             else ClientResponseMethod(e.requestMethod.value))
      && RetainsMessage(cfg.world, body, e.message.value)
  {
    var s2, v := InOrderStep(cfg, s, e);
    var s1 := s.(expectedOrdinal := s.expectedOrdinal + 1);
    if e.kind.CLIENT_REQUEST? {
      assert v == DecideClientRequest(cfg, s1, e.requestMethod.value, e.message.value);
      CustodyDecodes(cfg.world, e.message.value, ClientRequestByteBound(e.requestMethod, cfg.contract));
    } else {
      assert v.decision == DecideClientResponse(cfg, s1, e.requestMethod.value, e.message.value);
      CustodyDecodes(cfg.world, e.message.value, MAXIMUM_RAW_EVIDENCE_BYTES);
    }
  }

  /** In-order client traffic is replayed exactly when the envelope itself was well formed. */
  lemma RedoClient(cfg: Config, s: State, e: AcquisitionEnvelope)
    requires Step(cfg, s, Envelope(e)).Done? && e.ordinal == s.expectedOrdinal && ClientKind(e.kind)
    ensures var out := Step(cfg, s, Envelope(e));
      Reconstruct(cfg.world, out.record.body) ==
        if !ShapeMismatch(e) && BoundedMethodName(e.requestMethod) then Some(Envelope(e)) else None
  {
    hide Step;
    if ShapeMismatch(e) || !BoundedMethodName(e.requestMethod) {
      UnmethodedRecord(cfg, s, e);
      NoMethodIsNotAClientMethod(e.kind);
    } else {
      ClientRecord(cfg, s, e);
      MethodStrips(e.kind, e.requestMethod.value);
    }
  }

  /** Client traffic of a bad shape is recorded under the acquisition's own name. */
  lemma UnmethodedRecord(cfg: Config, s: State, e: AcquisitionEnvelope)
    requires Step(cfg, s, Envelope(e)).Done? && e.ordinal == s.expectedOrdinal && ClientKind(e.kind)
    requires ShapeMismatch(e) || !BoundedMethodName(e.requestMethod)
    ensures var body := Step(cfg, s, Envelope(e)).record.body;
      && body.methodName == NO_METHOD && body.raw.None?
      && body.acquisitionOrdinal == Some(e.ordinal) && body.acquisitionKind == Some(e.kind)
  {
    var s2, v := InOrderStep(cfg, s, e);
    assert v.decision.Refuse? && v.decision.refusedMethod == NO_METHOD;
  }

  /** A misshapen server envelope is remade from its shape alone. */
  lemma RedoMisshapen(cfg: Config, s: State, e: AcquisitionEnvelope)
    requires Step(cfg, s, Envelope(e)).Done? && e.ordinal == s.expectedOrdinal
    requires (e.kind.NOTIFICATION? || e.kind.SERVER_REQUEST?) && ShapeMismatch(e)
    ensures var out := Step(cfg, s, Envelope(e));
      Remakes(cfg, s, Reconstruct(cfg.world, out.record.body), out)
  {
    var s2, v := InOrderStep(cfg, s, e);
    var out := Step(cfg, s, Envelope(e));
    var e' := AcquisitionEnvelope(e.ordinal, e.kind, None, None, None, None);
    assert v == Verdict(Refuse(OrderedMessageEnvelopeShapeMismatch, NO_METHOD, None), s.bounded);
    assert Reconstruct(cfg.world, out.record.body) == Some(Envelope(e'));
    assert DecideInOrder(cfg, s.(expectedOrdinal := s.expectedOrdinal + 1), e') == v;
  }

  /** A custody-valid server message is replayed as itself. */
  lemma RedoCustodied(cfg: Config, s: State, e: AcquisitionEnvelope)
    requires Step(cfg, s, Envelope(e)).Done? && e.ordinal == s.expectedOrdinal
    requires (e.kind.NOTIFICATION? || e.kind.SERVER_REQUEST?) && !ShapeMismatch(e)
    requires e.requestMethod.None? && CustodyHolds(cfg, s, e.message.value)
    ensures Reconstruct(cfg.world, Step(cfg, s, Envelope(e)).record.body) == Some(Envelope(e))
  {
    var s2, v := InOrderStep(cfg, s, e);
    var s1 := s.(expectedOrdinal := s.expectedOrdinal + 1);
    assert CustodyHolds(cfg, s1, e.message.value);
    assert v == DecideMessage(cfg, s1, e.message.value, e.kind.SERVER_REQUEST?);
    MessageRetainsRaw(cfg, s1, e.message.value, e.kind.SERVER_REQUEST?);
  }

  /** Without custody, or with a stray request method, the remade record differs. */
  lemma UncustodiedDiffers(cfg: Config, s: State, e: AcquisitionEnvelope)
    requires Step(cfg, s, Envelope(e)).Done? && e.ordinal == s.expectedOrdinal
    requires (e.kind.NOTIFICATION? || e.kind.SERVER_REQUEST?) && !ShapeMismatch(e)
    requires e.requestMethod.Some? || !CustodyHolds(cfg, s, e.message.value)
    ensures var out := Step(cfg, s, Envelope(e));
      var op := Reconstruct(cfg.world, out.record.body);
      op.Some? && (Step(cfg, s, op.value).Done? ==> Step(cfg, s, op.value).record != out.record)
  {
    var s2, v := InOrderStep(cfg, s, e);
    hide Step, Reconstruct, Apply, DecideInOrder, CustodyHolds, ShapeMismatch, DetailOf;
    UncustodiedRefusal(cfg, s.(expectedOrdinal := s.expectedOrdinal + 1), s, e);
    ApplyRetainsRaw(cfg, s2, Acquisition(Some(e.ordinal), Some(e.kind)), v.decision);
    RefusalEnds(cfg, s2, Acquisition(Some(e.ordinal), Some(e.kind)), v.decision);
    var e' := AcquisitionEnvelope(e.ordinal, e.kind, None, None, None, None);
    RawlessIsMisshapen(cfg.world, Step(cfg, s, Envelope(e)).record.body, e');
    MisshapenDetail(cfg, s, e');
    DetailKept(cfg, s2, e, v.decision);
  }

  lemma RefusalEnds(cfg: Config, s: State, at: Acquisition, d: Decision)
    requires Apply(cfg, s, at, d).Done?
    ensures !d.Crash?
  {
  }

  /** Without custody, or with a request method, the message is refused and keeps no bytes. */
  lemma UncustodiedRefusal(cfg: Config, s1: State, s: State, e: AcquisitionEnvelope)
    requires s1 == s.(expectedOrdinal := s1.expectedOrdinal)
    requires (e.kind.NOTIFICATION? || e.kind.SERVER_REQUEST?) && !ShapeMismatch(e)
    requires e.requestMethod.Some? || !CustodyHolds(cfg, s, e.message.value)
    ensures var d := DecideInOrder(cfg, s1, e).decision;
      d.Crash? || (d.Refuse? && d.refusedRaw.None? && d.detail != OrderedMessageEnvelopeShapeMismatch)
  {
    if e.requestMethod.None? {
      assert !CustodyHolds(cfg, s1, e.message.value);
      MessageRetainsRaw(cfg, s1, e.message.value, e.kind.SERVER_REQUEST?);
    }
  }

  /** What replay makes of an ordered record without bytes. */
  lemma RawlessIsMisshapen(w: World, body: RecordBody, e: AcquisitionEnvelope)
    requires (e.kind.NOTIFICATION? || e.kind.SERVER_REQUEST?)
    requires e == AcquisitionEnvelope(e.ordinal, e.kind, None, None, None, None)
    requires body.raw.None? && body.acquisitionOrdinal == Some(e.ordinal) && body.acquisitionKind == Some(e.kind)
    ensures Reconstruct(w, body) == Some(Envelope(e)) && ShapeMismatch(e)
  {
  }

  lemma MisshapenDetail(cfg: Config, s: State, e: AcquisitionEnvelope)
    requires e.ordinal == s.expectedOrdinal && (e.kind.NOTIFICATION? || e.kind.SERVER_REQUEST?) && ShapeMismatch(e)
    ensures Step(cfg, s, Envelope(e)).Done? ==>
      DetailOf(Step(cfg, s, Envelope(e)).record.body.normalized) == Some(OrderedMessageEnvelopeShapeMismatch)
  {
  }

  lemma DetailKept(cfg: Config, s: State, e: AcquisitionEnvelope, d: Decision)
    requires d.Refuse? && d.detail != OrderedMessageEnvelopeShapeMismatch
    requires Apply(cfg, s, Acquisition(Some(e.ordinal), Some(e.kind)), d).Done?
    ensures DetailOf(Apply(cfg, s, Acquisition(Some(e.ordinal), Some(e.kind)), d).record.body.normalized)
      != Some(OrderedMessageEnvelopeShapeMismatch)
  {
  }

  /** Replay of one ordered record succeeds exactly for a replayable envelope. */
  lemma RedoEnvelope(cfg: Config, s: State, e: AcquisitionEnvelope)
    requires Step(cfg, s, Envelope(e)).Done?
    ensures var out := Step(cfg, s, Envelope(e));
      ReplayOne(cfg, s, out.record) == if ReplayableEnvelope(cfg, s, e) then Some(out.state) else None
  {
    RecordIsSealed(cfg, s, Envelope(e));
    if e.ordinal != s.expectedOrdinal {
      RedoGap(cfg, s, e);
    } else if e.kind.LOSS? || e.kind.UNKNOWN? {
      RedoLoss(cfg, s, e);
    } else if ClientKind(e.kind) {
      RedoClient(cfg, s, e);
    } else if ShapeMismatch(e) {
      RedoMisshapen(cfg, s, e);
    } else if e.requestMethod.None? && CustodyHolds(cfg, s, e.message.value) {
      RedoCustodied(cfg, s, e);
    } else {
      UncustodiedDiffers(cfg, s, e);
    }
  }

  lemma RecordIsSealed(cfg: Config, s: State, op: Op)
    requires Step(cfg, s, op).Done?
    ensures var r := Step(cfg, s, op).record;
      r.body.sequence == |s.records| && r.evidenceDigest == cfg.world.evidenceDigest(r.body)
  {
    var s1, at, d := Decompose(cfg, s, op);
    ApplyRetainsRaw(cfg, s1, at, d);
  }

  lemma RedoLocal(cfg: Config, s: State, op: Op)
    requires Step(cfg, s, op).Done? && (op.Loss? || op.Legacy?)
    ensures var out := Step(cfg, s, op);
      var redo := Reconstruct(cfg.world, out.record.body);
      if Replayable(cfg, s, op) then Remakes(cfg, s, redo, out) else redo.None?
  {
  }

  lemma RedoCut(cfg: Config, s: State, cut: AcquisitionCut)
    requires Step(cfg, s, Cut(cut)).Done?
    ensures Reconstruct(cfg.world, Step(cfg, s, Cut(cut)).record.body) == Some(Cut(cut))
  {
  }

  /** Replay of one live record succeeds exactly for a replayable call, and then reaches the
      state the call reached. */
  lemma RedoStep(cfg: Config, s: State, op: Op)
    requires Step(cfg, s, op).Done? && !op.Unordered?
    ensures var out := Step(cfg, s, op);
      ReplayOne(cfg, s, out.record) == if Replayable(cfg, s, op) then Some(out.state) else None
  {
    RecordIsSealed(cfg, s, op);
    match op
    case Envelope(e) => RedoEnvelope(cfg, s, e);
    case Cut(cut) => RedoCut(cfg, s, cut);
    case _ => RedoLocal(cfg, s, op);
  }

  // ---- Whole runs ----

  /** Every successful call of the run left a replayable record. */
  ghost predicate AllReplayable(cfg: Config, ops: seq<Op>) {
    forall i | 0 <= i < |ops| :: ReplayableCall(cfg, Run(cfg, ops[..i]), ops[i])
  }

  predicate ReplayableCall(cfg: Config, s: State, op: Op) {
    Step(cfg, s, op).Done? ==> Replayable(cfg, s, op)
  }

  /** A run of a production mapper: no unordered call, and, under the echo contract whose
      rollback is partial, no raised call. */
  ghost predicate Production(cfg: Config, ops: seq<Op>) {
    forall i | 0 <= i < |ops| :: ProductionCall(cfg, Run(cfg, ops[..i]), ops[i])
  }

  predicate ProductionCall(cfg: Config, s: State, op: Op) {
    !op.Unordered? && (cfg.contract.BoundedTurnEchoV1? ==> Step(cfg, s, op).Done?)
  }

  lemma PrefixRuns(cfg: Config, ops: seq<Op>)
    requires ops != []
    ensures Production(cfg, ops) ==>
      Production(cfg, ops[..|ops| - 1]) && ProductionCall(cfg, Run(cfg, ops[..|ops| - 1]), ops[|ops| - 1])
    ensures AllReplayable(cfg, ops) <==>
      AllReplayable(cfg, ops[..|ops| - 1]) && ReplayableCall(cfg, Run(cfg, ops[..|ops| - 1]), ops[|ops| - 1])
  {
    hide ReplayableCall, ProductionCall, Run;
    var init := ops[..|ops| - 1];
    assert forall i | 0 <= i < |init| :: init[..i] == ops[..i] && init[i] == ops[i];
  }

  /** The round trip. A production run's log replays if and only if every successful call was
      replayable, and replay then rebuilds the complete private state. */
  lemma {:induction false} ReplayRoundTrips(cfg: Config, ops: seq<Op>)
    requires Production(cfg, ops)
    ensures ReplayAll(cfg, Run(cfg, ops).records) == if AllReplayable(cfg, ops) then Some(Run(cfg, ops)) else None
  {
    if ops != [] {
      var init := ops[..|ops| - 1];
      var op := ops[|ops| - 1];
      var s := Run(cfg, init);
      PrefixRuns(cfg, ops);
      ReplayRoundTrips(cfg, init);
      StepIsTransactional(cfg, s, op);
      if Step(cfg, s, op).Done? {
        var r := Step(cfg, s, op).record;
        assert (s.records + [r])[..|s.records|] == s.records;
        RedoStep(cfg, s, op);
      } else {
        StepTouchesEchoOnly(cfg, s, op);
      }
    }
  }

  /** The log of a production run is never too long to replay. */
  lemma ReplayExactly(cfg: Config, ops: seq<Op>)
    requires Production(cfg, ops)
    ensures Replay(cfg, Run(cfg, ops).records) == if AllReplayable(cfg, ops) then Some(Run(cfg, ops)) else None
  {
    RunInvariant(cfg, ops);
    ReplayRoundTrips(cfg, ops);
  }

  // ---- A log that does not replay ----

  /** A client's very first request, acquired after one ordinal was spent on a refused put. */
  function GappedRequest(): AcquisitionEnvelope {
    var request := map["id" := Json.Int(1), "method" := Str("initialize")];
    AcquisitionEnvelope(
      1, CLIENT_REQUEST, Some(ServerMessage(request, Some(Encode("{\"id\":1,\"method\":\"initialize\"}\n")))),
      None, None, Some("initialize"))
  }

  /** The discrepancy it leaves: an envelope of client traffic under the acquisition's own name. */
  function GapBody(cfg: Config): RecordBody {
    Body(cfg, INITIAL, Acquisition(Some(1), Some(CLIENT_REQUEST)), RecordKind.ADMISSION_DISCREPANCY, NO_METHOD, None,
         Discrepancy(GAP, None, false))
  }

  /** The shortest production run whose log replay refuses: one request after a gap. */
  lemma GappedRequestDoesNotReplay(cfg: Config)
    requires cfg.world.recordBytes(GapBody(cfg)) <= MAXIMUM_SNAPSHOT_BYTES
    ensures var ops := [Envelope(GappedRequest())];
      && Production(cfg, ops)
      && |Run(cfg, ops).records| == 1 && Run(cfg, ops).records[0].body == GapBody(cfg)
      && Replay(cfg, Run(cfg, ops).records) == None
  {
    hide GappedRequest, Step, Replayable, Run;
    var op := Envelope(GappedRequest());
    GapStep(cfg);
    RunExtends(cfg, [], op);
    assert [] + [op] == [op] && [op][..0] == [];
    assert Run(cfg, []) == INITIAL by {
      EmptyRun(cfg);
    }
    ClientGapDoesNotReplay(cfg, [], op.envelope);
  }

  lemma EmptyRun(cfg: Config)
    ensures Run(cfg, []) == INITIAL
  {
  }

  lemma GappedShape()
    ensures GappedRequest().ordinal == 1 && GappedRequest().kind.CLIENT_REQUEST?
  {
  }

  lemma GapStep(cfg: Config)
    requires cfg.world.recordBytes(GapBody(cfg)) <= MAXIMUM_SNAPSHOT_BYTES
    ensures ClientKind(GappedRequest().kind) && GappedRequest().ordinal == 1
    ensures var out := Step(cfg, INITIAL, Envelope(GappedRequest()));
      out.Done? && out.state.records == [out.record] && out.record.body == GapBody(cfg)
  {
    hide DecideInOrder, GappedRequest;
    var s1 := INITIAL.(expectedOrdinal := 2);
    GappedShape();
    assert Distrust(s1).records == [] && Distrust(s1).retainedRecordBytes == 0;
    assert Step(cfg, INITIAL, Envelope(GappedRequest()))
      == Atomic(INITIAL, Mark(cfg, s1, Acquisition(Some(1), Some(CLIENT_REQUEST)), GAP, NO_METHOD, None));
  }

  /** The same at any point of any production run: client traffic out of order ends replay. */
  lemma ClientGapDoesNotReplay(cfg: Config, ops: seq<Op>, e: AcquisitionEnvelope)
    requires Production(cfg, ops + [Envelope(e)])
    requires ClientKind(e.kind) && e.ordinal != Run(cfg, ops).expectedOrdinal
    requires Step(cfg, Run(cfg, ops), Envelope(e)).Done?
    ensures Replay(cfg, Run(cfg, ops + [Envelope(e)]).records) == None
  {
    hide Step;
    var all := ops + [Envelope(e)];
    assert all[..|ops|] == ops && all[|ops|] == Envelope(e);
    assert !ReplayableCall(cfg, Run(cfg, all[..|ops|]), all[|ops|]);
    ReplayExactly(cfg, all);
  }
}
