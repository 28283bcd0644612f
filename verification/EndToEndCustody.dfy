/** Acquisition composed with admission: a mapper that consumed what the client drained and
    closed with a clean cut has every byte of the process's stdout in its records. */
module EndToEndCustody {
  import opened Wrappers
  import opened Utf8
  import opened AppServerProtocol
  import opened ProviderAdmission
  import opened AdmissionGuards
  import opened AdmissionLog
  import opened CleanHistory
  import OrderedAcquisition
  import opened AcquisitionRuns

  // ---- One envelope ----

  /** The record of a message the mapper accepted keeps its ordinal, its kind and its bytes. */
  predicate RetainsEnvelope(r: Record, e: AcquisitionEnvelope) {
    && r.body.acquisitionOrdinal == Some(e.ordinal)
    && r.body.acquisitionKind == Some(e.kind)
    && e.message.Some? && e.message.value.rawBytes.Some?
    && r.body.raw.Some? && r.body.raw.value.content == e.message.value.rawBytes.value
  }

  lemma MessageKeepsWire(cfg: Config, s: State, message: ServerMessage, serverRequest: bool)
    ensures var d := DecideMessage(cfg, s, message, serverRequest).decision;
      d.Crash? || d.Refuse? ||
      (message.rawBytes.Some? && DecisionRaw(d).Some? && DecisionRaw(d).value.content == message.rawBytes.value)
  {
  }

  lemma InOrderKeepsWire(cfg: Config, s: State, e: AcquisitionEnvelope)
    ensures var d := DecideInOrder(cfg, s, e).decision;
      d.Crash? || d.Refuse? ||
      (e.message.Some? && e.message.value.rawBytes.Some?
       && DecisionRaw(d).Some? && DecisionRaw(d).value.content == e.message.value.rawBytes.value)
  {
    if e.message.Some? && !e.kind.LOSS? && !e.kind.UNKNOWN? && !e.kind.CLIENT_REQUEST? && !e.kind.CLIENT_RESPONSE? {
      MessageKeepsWire(cfg, s, e.message.value, e.kind.SERVER_REQUEST?);
    }
  }

  lemma ApplyKeepsRaw(cfg: Config, s: State, at: Acquisition, d: Decision)
    requires Apply(cfg, s, at, d).Done?
    ensures var out := Apply(cfg, s, at, d);
      && out.record.body.raw == DecisionRaw(d)
      && out.record.body.acquisitionOrdinal == at.ordinal && out.record.body.acquisitionKind == at.kind
      && out.state.expectedOrdinal == s.expectedOrdinal
      && out.state.acquisitionCut == (if d.Close? then Some(d.cutFacts) else s.acquisitionCut)
      && (d.Refuse? ==> out.record.body.kind.ADMISSION_DISCREPANCY?)
  {
  }

  /** An envelope that left no discrepancy was the expected one, and is kept exactly. */
  lemma EnvelopeIsRetained(cfg: Config, s: State, e: AcquisitionEnvelope)
    requires Step(cfg, s, Envelope(e)).Done?
    requires !Step(cfg, s, Envelope(e)).record.body.kind.ADMISSION_DISCREPANCY?
    ensures e.ordinal == s.expectedOrdinal
    ensures RetainsEnvelope(Step(cfg, s, Envelope(e)).record, e)
    ensures Step(cfg, s, Envelope(e)).state.expectedOrdinal == s.expectedOrdinal + 1
  {
    var s1, at, d := Decompose(cfg, s, Envelope(e));
    ApplyKeepsRaw(cfg, s1, at, d);
    InOrderKeepsWire(cfg, s.(expectedOrdinal := s1.expectedOrdinal), e);
  }

  // ---- What was fed, and what is retained ----

  /** The envelopes among the operations, in order. */
  function Fed(ops: seq<Op>): seq<AcquisitionEnvelope> {
    if ops == [] then []
    else Fed(ops[..|ops| - 1]) + if ops[|ops| - 1].Envelope? then [ops[|ops| - 1].envelope] else []
  }

  /** The records that came from ordered envelopes. */
  function Ordered(records: seq<Record>): seq<Record> {
    if records == [] then []
    else Ordered(records[..|records| - 1]) +
         if records[|records| - 1].body.acquisitionOrdinal.Some? then [records[|records| - 1]] else []
  }

  lemma OrderedExtends(records: seq<Record>, r: Record)
    ensures Ordered(records + [r]) == Ordered(records) + if r.body.acquisitionOrdinal.Some? then [r] else []
  {
    assert (records + [r])[..|records|] == records;
  }

  /** Record i keeps envelope i, and i is its ordinal. */
  ghost predicate Mirrors(ordered: seq<Record>, es: seq<AcquisitionEnvelope>) {
    && |ordered| <= |es|
    && forall i | 0 <= i < |ordered| :: es[i].ordinal == i && RetainsEnvelope(ordered[i], es[i])
  }

  /** The mapper under an in-order feed that may skip ordinals: while its log shows no
      discrepancy, its ordered records are exactly the first envelopes fed. */
  ghost predicate Faithful(s: State, es: seq<AcquisitionEnvelope>) {
    Free(s.records, RecordKind.ADMISSION_DISCREPANCY) ==>
      |Ordered(s.records)| == s.expectedOrdinal && Mirrors(Ordered(s.records), es)
  }

  lemma OtherStepFaithful(cfg: Config, s: State, op: Op)
    requires Step(cfg, s, op).Done? && !op.Envelope?
    ensures Step(cfg, s, op).record.body.acquisitionOrdinal.None?
    ensures Step(cfg, s, op).state.expectedOrdinal == s.expectedOrdinal
  {
    var s1, at, d := Decompose(cfg, s, op);
    ApplyKeepsRaw(cfg, s1, at, d);
  }

  /** The expected ordinal can only arrive right after its predecessors. */
  lemma NextIsExpected(es: seq<AcquisitionEnvelope>, e: AcquisitionEnvelope, bound: int)
    requires Ascending(es + [e], bound)
    ensures Ascending(es, bound) && e.ordinal >= |es|
  {
    var all := es + [e];
    assert forall i | 0 <= i < |es| :: all[i] == es[i];
    assert all[|es|] == e;
    SpreadOut(all, bound);
  }

  lemma {:induction false} SpreadOut(es: seq<AcquisitionEnvelope>, bound: int)
    requires Ascending(es, bound)
    ensures es != [] ==> es[|es| - 1].ordinal >= |es| - 1
  {
    if |es| > 1 {
      SpreadOut(es[..|es| - 1], bound);
    }
  }

  lemma MirrorsExtend(ordered: seq<Record>, r: Record, es: seq<AcquisitionEnvelope>, e: AcquisitionEnvelope, bound: int)
    requires Mirrors(ordered, es) && Ascending(es + [e], bound)
    requires e.ordinal == |ordered| && RetainsEnvelope(r, e)
    ensures Mirrors(ordered + [r], es + [e])
  {
    NextIsExpected(es, e, bound);
    assert |es| == |ordered|;
  }

  lemma EnvelopeKeepsFaithful(cfg: Config, s: State, e: AcquisitionEnvelope, es: seq<AcquisitionEnvelope>, bound: int)
    requires Faithful(s, es) && Ascending(es + [e], bound)
    requires Step(cfg, s, Envelope(e)).Done?
    ensures Faithful(Step(cfg, s, Envelope(e)).state, es + [e])
  {
    var out := Step(cfg, s, Envelope(e));
    StepIsTransactional(cfg, s, Envelope(e));
    FreeExtends(s.records, out.record, RecordKind.ADMISSION_DISCREPANCY);
    OrderedExtends(s.records, out.record);
    if Free(out.state.records, RecordKind.ADMISSION_DISCREPANCY) {
      EnvelopeIsRetained(cfg, s, e);
      MirrorsExtend(Ordered(s.records), out.record, es, e, bound);
    }
  }

  lemma OtherKeepsFaithful(cfg: Config, s: State, op: Op, es: seq<AcquisitionEnvelope>)
    requires Faithful(s, es) && Step(cfg, s, op).Done? && !op.Envelope?
    ensures Faithful(Step(cfg, s, op).state, es)
  {
    var out := Step(cfg, s, op);
    StepIsTransactional(cfg, s, op);
    FreeExtends(s.records, out.record, RecordKind.ADMISSION_DISCREPANCY);
    OrderedExtends(s.records, out.record);
    OtherStepFaithful(cfg, s, op);
  }

  lemma RaisedKeepsFaithful(cfg: Config, s: State, op: Op, es: seq<AcquisitionEnvelope>, more: seq<AcquisitionEnvelope>)
    requires Faithful(s, es) && Step(cfg, s, op).Raised?
    ensures Faithful(Step(cfg, s, op).state, es + more)
  {
    RaisedKeepsState(cfg, s, op);
  }

  /** Over every run: as long as nothing was recorded as wrong, nothing fed was dropped,
      reordered or altered. */
  lemma {:induction false} RunIsFaithful(cfg: Config, ops: seq<Op>, bound: int)
    requires Ascending(Fed(ops), bound)
    ensures Faithful(Run(cfg, ops), Fed(ops))
  {
    if ops != [] {
      var init, op := ops[..|ops| - 1], ops[|ops| - 1];
      var s := Run(cfg, init);
      var more := if op.Envelope? then [op.envelope] else [];
      assert Fed(ops) == Fed(init) + more;
      assert Fed(init) + [] == Fed(init);
      if op.Envelope? {
        NextIsExpected(Fed(init), op.envelope, bound);
      }
      RunIsFaithful(cfg, init, bound);
      if Step(cfg, s, op).Raised? {
        RaisedKeepsFaithful(cfg, s, op, Fed(init), more);
      } else if op.Envelope? {
        EnvelopeKeepsFaithful(cfg, s, op.envelope, Fed(init), bound);
      } else {
        OtherKeepsFaithful(cfg, s, op, Fed(init));
      }
    }
  }

  // ---- The whole chain ----

  /** The server-side wire bytes in the records. */
  function RecordWires(records: seq<Record>): seq<bytes> {
    if records == [] then []
    else
      var last := records[|records| - 1].body;
      RecordWires(records[..|records| - 1]) +
      if last.acquisitionKind.Some? && ServerKind(last.acquisitionKind.value) && last.raw.Some?
      then [last.raw.value.content] else []
  }

  lemma {:induction false} MirroredWires(ordered: seq<Record>, es: seq<AcquisitionEnvelope>)
    requires Mirrors(ordered, es) && |ordered| == |es|
    ensures RecordWires(ordered) == ServerWires(es)
  {
    if ordered != [] {
      MirroredWires(ordered[..|ordered| - 1], es[..|es| - 1]);
    }
  }

  /** The mapper was fed, in order, some of what was drained, and closed by that cut alone. */
  ghost predicate FedFrom(ops: seq<Op>, m: Machine, cut: AcquisitionCut) {
    && Fed(ops) <= m.drained
    && (forall i | 0 <= i < |ops| :: ops[i].Cut? ==> ops[i].cut == cut)
  }

  /** The record of the whole stdout stream. */
  ghost predicate HoldsStream(records: seq<Record>, stream: bytes, highWater: int) {
    var ordered := Ordered(records);
    && |ordered| == highWater
    && (forall i | 0 <= i < |ordered| :: ordered[i].body.acquisitionOrdinal == Some(i))
    && Concat(RecordWires(ordered)) == stream
    && (forall i | 0 <= i < |RecordWires(ordered)| :: IsLine(RecordWires(ordered)[i]))
  }

  /** A retained clean cut repeats the facts of the operation that closed the mapper. */
  lemma {:induction false} RetainedCutFacts(cfg: Config, ops: seq<Op>, cut: AcquisitionCut)
    requires forall i | 0 <= i < |ops| :: ops[i].Cut? ==> ops[i].cut == cut
    ensures var c := Run(cfg, ops).acquisitionCut;
      c.Some? ==> c.value.streamQuiesced == cut.streamQuiesced && c.value.lossGeneration == cut.lossGeneration
                  && c.value.orderedHighWater == cut.orderedHighWater
  {
    if ops != [] {
      var init, op := ops[..|ops| - 1], ops[|ops| - 1];
      RetainedCutFacts(cfg, init, cut);
      CutStepFacts(cfg, Run(cfg, init), op);
    }
  }

  lemma CutStepFacts(cfg: Config, s: State, op: Op)
    ensures var c := Step(cfg, s, op).state.acquisitionCut;
      c == s.acquisitionCut ||
      (op.Cut? && c.Some? && c.value.streamQuiesced == op.cut.streamQuiesced
       && c.value.lossGeneration == op.cut.lossGeneration && c.value.orderedHighWater == op.cut.orderedHighWater)
  {
    if Step(cfg, s, op).Done? {
      var s1, at, d := Decompose(cfg, s, op);
      ApplyKeepsRaw(cfg, s1, at, d);
      if op.Cut? {
        assert d == DecideCut(cfg, s, op.cut);
      }
    } else {
      RaisedKeepsState(cfg, s, op);
    }
  }

  lemma {:induction false} WiresAreLines(es: seq<AcquisitionEnvelope>)
    requires AllExact(es)
    ensures forall i | 0 <= i < |ServerWires(es)| :: IsLine(ServerWires(es)[i])
  {
    if es != [] {
      WiresAreLines(es[..|es| - 1]);
    }
  }

  /** Acquisition's side: at a lossless cut at end of stream, the first high-water envelopes
      ever issued are the whole stream. */
  lemma LosslessPrefix(setup: OrderedAcquisition.Setup, stream: bytes, before: seq<Action>, cut: AcquisitionCut)
    requires CutOf(Execute(setup, stream, before), cut) && cut.streamQuiesced && cut.lossGeneration == 0
    ensures var es := EverIssued(Execute(setup, stream, before));
      |es| == cut.orderedHighWater && Concat(ServerWires(es)) == stream && AllExact(es)
  {
    var m := Execute(setup, stream, before);
    RunKeepsCustody(setup, stream, before);
    assert ServerWires(EverIssued(m)) + [] == ServerWires(EverIssued(m));
    assert Concat(m.lines) + [] == Concat(m.lines);
  }

  /** The ordered records of a cleanly closed mapper are everything issued up to the cut. */
  lemma WholeLogMirrors(
    setup: OrderedAcquisition.Setup, stream: bytes, before: seq<Action>, after: seq<Action>,
    cfg: Config, ops: seq<Op>, cut: AcquisitionCut)
    requires CutOf(Execute(setup, stream, before), cut)
    requires FedFrom(ops, Execute(setup, stream, before + after), cut)
    requires CleanlyCut(Run(cfg, ops))
    ensures var es := EverIssued(Execute(setup, stream, before));
      && |es| == cut.orderedHighWater == |Ordered(Run(cfg, ops).records)|
      && Mirrors(Ordered(Run(cfg, ops).records), es)
      && Concat(ServerWires(es)) == stream && AllExact(es)
  {
    var m, later, s := Execute(setup, stream, before), Execute(setup, stream, before + after), Run(cfg, ops);
    RunKeepsCut(cfg, ops);
    RetainedCutFacts(cfg, ops, cut);
    CleanMeansNothingWentWrong(cfg, ops);
    LosslessPrefix(setup, stream, before, cut);
    RunExtendsIssued(setup, stream, before, after);
    RunKeepsCustody(setup, stream, before + after);
    AscendingPrefix(Fed(ops), EverIssued(later), later.client.channels.ordinal);
    RunIsFaithful(cfg, ops, later.client.channels.ordinal);
    MirrorsWhole(Ordered(s.records), Fed(ops), EverIssued(m), EverIssued(later));
  }

  /** End-to-end custody. Over every interleaving of reader, writers and consumers, before and
      after the cut: if the mapper fed from the drained envelopes closed cleanly, then its
      ordered records are numbered 0 up to the high-water mark and their server-side bytes
      are exactly the lines of the whole stdout stream, in order. */
  lemma CustodyIsEndToEnd(
    setup: OrderedAcquisition.Setup, stream: bytes, before: seq<Action>, after: seq<Action>,
    cfg: Config, ops: seq<Op>, cut: AcquisitionCut)
    requires CutOf(Execute(setup, stream, before), cut)
    requires FedFrom(ops, Execute(setup, stream, before + after), cut)
    requires CleanlyCut(Run(cfg, ops))
    ensures HoldsStream(Run(cfg, ops).records, stream, cut.orderedHighWater)
  {
    var m, s := Execute(setup, stream, before), Run(cfg, ops);
    WholeLogMirrors(setup, stream, before, after, cfg, ops, cut);
    MirroredWires(Ordered(s.records), EverIssued(m));
    WiresAreLines(EverIssued(m));
  }

  lemma AscendingPrefix(es: seq<AcquisitionEnvelope>, all: seq<AcquisitionEnvelope>, bound: int)
    requires es <= all && Ascending(all, bound)
    ensures Ascending(es, bound)
  {
  }

  lemma MirrorsWhole(
    ordered: seq<Record>, fed: seq<AcquisitionEnvelope>, issued: seq<AcquisitionEnvelope>, all: seq<AcquisitionEnvelope>)
    requires Mirrors(ordered, fed) && |ordered| == |issued|
    requires fed <= all && issued <= all
    ensures Mirrors(ordered, issued)
  {
  }

  /** How many of the records are of ordered notifications. */
  function NotificationRecords(ordered: seq<Record>): nat {
    if ordered == [] then 0
    else
      NotificationRecords(ordered[..|ordered| - 1]) +
      if ordered[|ordered| - 1].body.acquisitionKind == Some(NOTIFICATION) then 1 else 0
  }

  lemma {:induction false} MirroredNotifications(ordered: seq<Record>, es: seq<AcquisitionEnvelope>)
    requires Mirrors(ordered, es) && |ordered| == |es|
    ensures NotificationRecords(ordered) == Notifications(es)
  {
    if ordered != [] {
      MirroredNotifications(ordered[..|ordered| - 1], es[..|es| - 1]);
    }
  }

  /** A turn is only ever clean if it is short: a consumer that takes nothing off the separate
      notification queue can close cleanly over no more notifications than that queue holds. */
  lemma CleanTurnsAreShort(
    setup: OrderedAcquisition.Setup, stream: bytes, before: seq<Action>, after: seq<Action>,
    cfg: Config, ops: seq<Op>, cut: AcquisitionCut)
    requires setup.messageBound.items > 0
    requires CutOf(Execute(setup, stream, before), cut) && Execute(setup, stream, before).taken == 0
    requires FedFrom(ops, Execute(setup, stream, before + after), cut)
    requires CleanlyCut(Run(cfg, ops))
    ensures NotificationRecords(Ordered(Run(cfg, ops).records)) <= setup.messageBound.items
  {
    var m := Execute(setup, stream, before);
    WholeLogMirrors(setup, stream, before, after, cfg, ops, cut);
    MirroredNotifications(Ordered(Run(cfg, ops).records), EverIssued(m));
    NotificationsAreCapped(setup, stream, before);
  }
}
