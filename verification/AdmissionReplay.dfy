/** Replay of retained evidence: which logs it accepts, what it rebuilds, and that nothing it
    accepts could not have been produced by public operations. */
module AdmissionReplay {
  import opened Wrappers
  import opened Utf8
  import opened AppServerProtocol
  import opened Reasons
  import opened ProviderAdmission
  import opened ProviderAdmissionMapper

  // ---- Reconstructing the call behind a record ----

  function Decoded(w: World, wire: bytes): Option<ServerMessage> {
    match w.parse(wire)
    case Parsed(Obj(fields)) => Some(ServerMessage(fields, Some(wire)))
    case _ => None
  }

  function DetailOf(n: Normalized): Option<Reason> {
    if n.Discrepancy? then Some(n.detail) else None
  }

  function StripPrefix(prefix: string, name: string): Option<string> {
    if prefix <= name then Some(name[|prefix|..]) else None
  }

  /** The request method a retained client message is replayed under. */
  function ReplayedMethod(kind: EnvelopeKind, name: string): Option<string> {
    if kind.CLIENT_REQUEST? then StripPrefix("client-request/", name)
    else if kind.CLIENT_RESPONSE? then StripPrefix("client-response/", name)
    else None
  }

  predicate ClientKind(kind: EnvelopeKind) {
    kind.CLIENT_REQUEST? || kind.CLIENT_RESPONSE?
  }

  /** The call replay makes for a record of an ordered envelope. */
  function ReconstructOrdered(w: World, ordinal: int, kind: EnvelopeKind, body: RecordBody): Option<Op> {
    var wire := if body.raw.Some? then Some(body.raw.value.content) else None;
    if kind.LOSS? then
      Some(Envelope(AcquisitionEnvelope(ordinal, LOSS, None, DetailOf(body.normalized), wire, None)))
    else if kind.UNKNOWN? then
      Some(Envelope(AcquisitionEnvelope(ordinal, UNKNOWN, None, None, None, None)))
    else if wire.Some? && Decoded(w, wire.value).None? then None
    else if ClientKind(kind) && ReplayedMethod(kind, body.methodName).None? then None
    else
      Some(Envelope(AcquisitionEnvelope(
        ordinal, kind, if wire.Some? then Decoded(w, wire.value) else None, None, None,
        ReplayedMethod(kind, body.methodName))))
  }

  /** The call replay makes for a record outside an ordered envelope. */
  function ReconstructUnordered(w: World, body: RecordBody): Option<Op> {
    match body.raw
    case None =>
      if body.kind.ACQUISITION_CUT? then
        match body.normalized
        case CutNormalized(f) =>
          Some(Cut(AcquisitionCut(f.streamQuiesced, f.lossGeneration, f.processDisposition, f.orderedHighWater,
                                  Some(f.adapterProcessOccurrenceId), Some(f.appServerSessionIdentity))))
        case _ => None
      else if body.kind.ADMISSION_DISCREPANCY? && body.methodName == NO_METHOD then
        Some(Loss(if body.normalized.Discrepancy? then body.normalized.detail else Reported("")))
      else if body.kind.LOCAL_TURN_FACT? then Some(Legacy(body.methodName))
      else None
    case Some(raw) =>
      match Decoded(w, raw.content)
      case None => None
      case Some(message) => Some(Unordered(message, body.kind.WAITING_APPROVAL_RECORD?))
  }

  function Reconstruct(w: World, body: RecordBody): Option<Op> {
    match body.acquisitionOrdinal
    case Some(ordinal) =>
      ReconstructOrdered(w, ordinal, if body.acquisitionKind.Some? then body.acquisitionKind.value else UNKNOWN, body)
    case None => ReconstructUnordered(w, body)
  }

  // ---- Replay ----

  /** One iteration of `replay`: the record must be next, sealed, and remade exactly. */
  function ReplayOne(cfg: Config, s: State, expected: Record): Option<State> {
    if expected.body.sequence != |s.records| || expected.evidenceDigest != cfg.world.evidenceDigest(expected.body) then None
    else
      match Reconstruct(cfg.world, expected.body)
      case None => None
      case Some(op) =>
        match Step(cfg, s, op)
        case Raised(_, _) => None
        case Done(s', actual) => if actual == expected then Some(s') else None
  }

  function ReplayAll(cfg: Config, records: seq<Record>): Option<State> {
    if records == [] then Some(INITIAL)
    else
      match ReplayAll(cfg, records[..|records| - 1])
      case None => None
      case Some(s) => ReplayOne(cfg, s, records[|records| - 1])
  }

  /** `replay`; None is a raised error. */
  function Replay(cfg: Config, records: seq<Record>): Option<State> {
    if |records| > MAXIMUM_RECORDS then None else ReplayAll(cfg, records)
  }

  lemma {:induction false} RefusedStaysRefused(cfg: Config, records: seq<Record>, n: nat)
    requires n <= |records| && ReplayAll(cfg, records[..n]).None?
    ensures ReplayAll(cfg, records).None?
  {
    if n == |records| {
      assert records[..n] == records;
    } else {
      var init := records[..|records| - 1];
      assert init[..n] == records[..n];
      RefusedStaysRefused(cfg, init, n);
    }
  }

  /** The public call an operation stands for. */
  method Perform(mapper: Mapper, op: Op) returns (r: Result<Record, Reason>)
    requires mapper.Valid() && mapper.allowUnorderedFixture
    modifies mapper
    ensures mapper.Valid()
    ensures mapper.Left(r) == Step(mapper.cfg, old(mapper.Fields()), op)
  {
    match op
    case Envelope(e) => r := mapper.ConsumeEnvelope(e);
    case Unordered(message, serverRequest) => r := mapper.Consume(message, serverRequest);
    case Loss(detail) => r := mapper.MarkAcquisitionLoss(detail);
    case Legacy(kind) => r := mapper.RecordLegacyLocalFact(kind);
    case Cut(cut) => r := mapper.ConsumeCut(cut);
  }

  /** The body of the loop of `replay`. */
  method ReplayRecord(mapper: Mapper, expected: Record) returns (remade: bool)
    requires mapper.Valid() && mapper.allowUnorderedFixture
    modifies mapper
    ensures mapper.Valid()
    ensures remade <==> ReplayOne(mapper.cfg, old(mapper.Fields()), expected).Some?
    ensures remade ==> ReplayOne(mapper.cfg, old(mapper.Fields()), expected) == Some(mapper.Fields())
  {
    if || expected.body.sequence != |mapper.records|
       || expected.evidenceDigest != mapper.cfg.world.evidenceDigest(expected.body) {
      return false;
    }
    var op := Reconstruct(mapper.cfg.world, expected.body);
    if op.None? {
      return false;
    }
    var r := Perform(mapper, op.value);
    remade := r == Ok(expected);
  }

  /** The loop of `replay`, driving a fresh mapper through its own public operations. */
  method ReplayRecords(cfg: Config, records: seq<Record>) returns (m: Mapper?)
    ensures m != null <==> Replay(cfg, records).Some?
    ensures m != null ==> fresh(m) && m.Valid() && m.cfg == cfg && Some(m.Fields()) == Replay(cfg, records)
  {
    if |records| > MAXIMUM_RECORDS {
      return null;
    }
    var mapper := new Mapper(cfg, true);
    for i := 0 to |records|
      invariant fresh(mapper) && mapper.Valid() && mapper.cfg == cfg && mapper.allowUnorderedFixture
      invariant ReplayAll(cfg, records[..i]) == Some(mapper.Fields())
    {
      assert records[..i + 1][..i] == records[..i];
      var remade := ReplayRecord(mapper, records[i]);
      if !remade {
        RefusedStaysRefused(cfg, records, i + 1);
        return null;
      }
    }
    assert records[..|records|] == records;
    m := mapper;
  }
}
