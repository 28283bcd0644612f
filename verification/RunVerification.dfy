/** The verifier's recomputation of a run's output from retained evidence, and its agreement
    with the live projection on every clean run. */
module RunVerification {
  import opened Wrappers
  import opened Utf8
  import opened Json
  import opened Reasons
  import opened AppServerProtocol
  import opened ProviderAdmission
  import opened AdmissionGuards
  import opened AdmissionReplay
  import opened ReplayRoundTrip
  import opened ProviderRunner

  /** What the verifier's loop carries: the last agent text, and the bytes of all of them. */
  datatype Projected = Projected(output: Option<string>, total: nat)

  /** One retained frame. Errors cover the verifier's own refusals and every lookup that
      Python would fail on. */
  function VerifyMessage(base: BaseFields, maximum: nat, p: Projected, message: Object): Result<Projected, Reason> {
    var name := Get(message, "method");
    var params := Field(message, "params");
    if name.Arr? || name.Obj? then Err(RetainedFrameFieldIsNotAnObject)
    else if name != Str(TOKEN_USAGE) && name != Str(ITEM_COMPLETED) then Ok(p)
    else if !params.Obj? then Err(RetainedFrameFieldIsNotAnObject)
    else if Get(params.fields, "threadId") != Str(base.threadId) then Ok(p)
    else if Get(params.fields, "turnId") != Str(base.turnId) then Err(ProviderOutputTurnAttributionMismatch)
    else if name == Str(ITEM_COMPLETED) then VerifyItem(maximum, p, Field(params.fields, "item"))
    else Ok(p)
  }

  function VerifyItem(maximum: nat, p: Projected, item: Json): Result<Projected, Reason> {
    if !item.Obj? then Err(RetainedFrameFieldIsNotAnObject)
    else
      match AgentText(item.fields)
      case None => Ok(p)
      case Some(text) =>
        var total := p.total + |Encode(text)|;
        if total > maximum then Err(ProviderOutputExceedsAdmittedBound) else Ok(Projected(Some(text), total))
  }

  function VerifyRecord(w: World, base: BaseFields, maximum: nat, p: Projected, r: Record): Result<Projected, Reason> {
    match r.body.raw
    case None => Ok(p)
    case Some(raw) =>
      match w.parse(raw.content)
      case Refused(why) => Err(Reported(why))
      case Parsed(value) =>
        if !value.Obj? then Err(RetainedFrameIsNotAnObject)
        else VerifyMessage(base, maximum, p, value.fields)
  }

  /** The verifier's fold over a log. */
  function VerifyRecords(w: World, base: BaseFields, maximum: nat, records: seq<Record>): Result<Projected, Reason> {
    if records == [] then Ok(Projected(None, 0))
    else VerifyNext(w, base, maximum, VerifyRecords(w, base, maximum, records[..|records| - 1]), records[|records| - 1])
  }

  function VerifyNext(
    w: World, base: BaseFields, maximum: nat, prior: Result<Projected, Reason>, r: Record): Result<Projected, Reason>
  {
    if prior.Err? then prior else VerifyRecord(w, base, maximum, prior.value, r)
  }

  /** What a snapshot's log shows the worker's output to be. */
  function VerifiedOutput(w: World, snapshot: Snapshot, maximum: nat): Result<Option<string>, Reason> {
    match VerifyRecords(w, snapshot.binding.base, maximum, snapshot.records)
    case Ok(p) => Ok(p.output)
    case Err(why) => Err(why)
  }

  /** `replayed_worker_output`. */
  method ReplayedWorkerOutput(w: World, snapshot: Snapshot, maximum: nat) returns (r: Result<Option<string>, Reason>)
    ensures r == VerifiedOutput(w, snapshot, maximum)
  {
    var base := snapshot.binding.base;
    var p := Projected(None, 0);
    for i := 0 to |snapshot.records|
      invariant VerifyRecords(w, base, maximum, snapshot.records[..i]) == Ok(p)
    {
      var next := VerifyRecord(w, base, maximum, p, snapshot.records[i]);
      assert snapshot.records[..i + 1][..i] == snapshot.records[..i];
      if next.Err? {
        VerifyStopsEarly(w, base, maximum, snapshot.records, i + 1);
        return Err(next.error);
      }
      p := next.value;
    }
    assert snapshot.records[..|snapshot.records|] == snapshot.records;
    return Ok(p.output);
  }

  /** Once the fold has failed it stays failed. */
  lemma {:induction false} VerifyStopsEarly(w: World, base: BaseFields, maximum: nat, records: seq<Record>, i: nat)
    requires i <= |records| && VerifyRecords(w, base, maximum, records[..i]).Err?
    ensures VerifyRecords(w, base, maximum, records) == VerifyRecords(w, base, maximum, records[..i])
  {
    if i < |records| {
      assert records[..|records| - 1][..i] == records[..i];
      VerifyStopsEarly(w, base, maximum, records[..|records| - 1], i);
    } else {
      assert records[..i] == records;
    }
  }

  lemma VerifyExtends(w: World, base: BaseFields, maximum: nat, records: seq<Record>, r: Record)
    ensures VerifyRecords(w, base, maximum, records + [r])
      == VerifyNext(w, base, maximum, VerifyRecords(w, base, maximum, records), r)
  {
    assert (records + [r])[..|records|] == records;
  }

  // ---- One accepted envelope ----

  /** The reader only lets server messages through whose params are absent or an object. */
  predicate ReaderShaped(e: AcquisitionEnvelope) {
    (e.kind.NOTIFICATION? || e.kind.SERVER_REQUEST?) && e.message.Some? && "params" in e.message.value.raw ==>
      e.message.value.raw["params"].Obj?
  }

  predicate ProjectedMethod(name: string) {
    name == TOKEN_USAGE || name == ITEM_COMPLETED || name == TURN_COMPLETED
  }

  /** A client message that was accepted never looks like projected server traffic. */
  predicate NotProjected(message: Object) {
    match Get(message, "method")
    case Str(name) => !ProjectedMethod(name)
    case Null => true
    case _ => false
  }

  lemma IssuedIsNotProjected(cfg: Config, s: State, requestMethod: string, message: ServerMessage)
    requires DecideClientRequest(cfg, s, requestMethod, message).decision.Issue?
    ensures NotProjected(message.raw)
  {
    assert Get(message.raw, "method") == Str(requestMethod);
    assert FixtureMethod(requestMethod) || OwnerMethod(requestMethod);
  }

  lemma RetainedIsNotProjected(cfg: Config, s: State, requestMethod: string, message: ServerMessage)
    requires DecideClientResponse(cfg, s, requestMethod, message).Retain?
    ensures NotProjected(message.raw)
  {
    assert "method" !in message.raw;
  }

  lemma AcceptedMessageIsNamed(cfg: Config, s: State, message: ServerMessage, serverRequest: bool)
    requires !DecideMessage(cfg, s, message, serverRequest).decision.Refuse?
    requires !DecideMessage(cfg, s, message, serverRequest).decision.Crash?
    ensures message.MethodName().Some?
  {
  }

  /** The retained frame of an accepted envelope decodes to its message. */
  predicate Frames(w: World, r: Record, e: AcquisitionEnvelope) {
    && e.message.Some? && r.body.raw.Some?
    && w.parse(r.body.raw.value.content) == Parsed(Obj(e.message.value.raw))
    && (ClientKind(e.kind) ==> NotProjected(e.message.value.raw))
    && (!ClientKind(e.kind) ==> e.message.value.MethodName().Some? && (e.kind.NOTIFICATION? || e.kind.SERVER_REQUEST?))
  }

  lemma InOrderFrames(cfg: Config, s: State, e: AcquisitionEnvelope, at: Acquisition)
    requires var d := DecideInOrder(cfg, s, e).decision; !d.Refuse? && !d.Crash?
    ensures var raw := DecisionRaw(DecideInOrder(cfg, s, e).decision);
      && e.message.Some? && raw.Some?
      && cfg.world.parse(raw.value.content) == Parsed(Obj(e.message.value.raw))
      && (ClientKind(e.kind) ==> NotProjected(e.message.value.raw))
      && (!ClientKind(e.kind) ==> e.message.value.MethodName().Some? && (e.kind.NOTIFICATION? || e.kind.SERVER_REQUEST?))
  {
    if e.kind.CLIENT_REQUEST? {
      ClientRequestEnds(cfg, s, e.requestMethod.value, e.message.value);
      IssuedIsNotProjected(cfg, s, e.requestMethod.value, e.message.value);
    } else if e.kind.CLIENT_RESPONSE? {
      RetainedIsNotProjected(cfg, s, e.requestMethod.value, e.message.value);
    } else {
      MessageRetainsRaw(cfg, s, e.message.value, e.kind.SERVER_REQUEST?);
      AcceptedMessageIsNamed(cfg, s, e.message.value, e.kind.SERVER_REQUEST?);
    }
  }

  lemma ClientRequestEnds(cfg: Config, s: State, requestMethod: string, message: ServerMessage)
    ensures var d := DecideClientRequest(cfg, s, requestMethod, message).decision;
      d.Refuse? || d.Crash? || d.Issue?
  {
  }

  lemma AcceptedFrames(cfg: Config, s: State, e: AcquisitionEnvelope)
    requires Step(cfg, s, Envelope(e)).Done?
    requires !Step(cfg, s, Envelope(e)).record.body.kind.ADMISSION_DISCREPANCY?
    ensures Frames(cfg.world, Step(cfg, s, Envelope(e)).record, e)
  {
    var s1, at, d := Decompose(cfg, s, Envelope(e));
    ApplyRetainsRaw(cfg, s1, at, d);
    RefusalsAreDiscrepancies(cfg, s1, at, d);
    InOrderFrames(cfg, s.(expectedOrdinal := s1.expectedOrdinal), e, at);
  }

  lemma RefusalsAreDiscrepancies(cfg: Config, s: State, at: Acquisition, d: Decision)
    requires Apply(cfg, s, at, d).Done?
    ensures !d.Crash?
    ensures d.Refuse? ==> Apply(cfg, s, at, d).record.body.kind.ADMISSION_DISCREPANCY?
  {
  }

  // ---- Live projection and verification, message by message ----

  function ProjectedBy(l: Live): Projected {
    Projected(l.record.workerOutput, l.outputBytes)
  }

  /** Without a loss, projecting a message live is what the verifier does with its frame. */
  lemma MessageAgrees(st: Settings, l: Live, message: ServerMessage)
    requires !l.attributionFailed
    requires message.MethodName().Some? && ("params" in message.raw ==> message.raw["params"].Obj?)
    requires Project(st, l, message).ok && Project(st, l, message).live.calls == l.calls
    ensures var q := Project(st, l, message).live;
      && VerifyMessage(st.cfg.binding.base, st.maximumOutputBytes, ProjectedBy(l), message.raw) == Ok(ProjectedBy(q))
      && !q.attributionFailed && (l.outputBytes <= st.maximumOutputBytes ==> q.outputBytes <= st.maximumOutputBytes)
  {
    var params := message.Params();
    assert Field(message.raw, "params") == Obj(params);
    assert Get(message.raw, "method") == Str(message.MethodName().value);
  }

  /** Client traffic is invisible to both. */
  lemma ClientTrafficAgrees(st: Settings, l: Live, message: ServerMessage)
    requires NotProjected(message.raw)
    ensures Project(st, l, message) == Progress(l, true)
    ensures VerifyMessage(st.cfg.binding.base, st.maximumOutputBytes, ProjectedBy(l), message.raw) == Ok(ProjectedBy(l))
  {
  }

  /** A projection either leaves the mapper alone or reports one loss. */
  lemma ProjectCalls(st: Settings, l: Live, message: ServerMessage)
    ensures var p := Project(st, l, message);
      || p.live.calls == l.calls
      || (exists detail :: p.live.calls == l.calls + [Loss(detail)]
                           && p.ok == Step(st.cfg, MapperOf(st, l), Loss(detail)).Done?)
  {
  }
}
