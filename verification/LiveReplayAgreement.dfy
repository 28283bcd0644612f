/** Live/replay agreement: whatever the batches, deadline and failures of a run were, if it
    returned with a clean cut then the verifier recomputes exactly its output. */
module LiveReplayAgreement {
  import opened Wrappers
  import opened Reasons
  import opened AppServerProtocol
  import opened ProviderAdmission
  import opened AdmissionGuards
  import opened AdmissionLog
  import AdmissionReplay
  import opened ReplayRoundTrip
  import opened CleanHistory
  import opened AcceptedSnapshots
  import opened ProviderRunner
  import opened RunVerification

  function Log(st: Settings, l: Live): seq<Record> {
    MapperOf(st, l).records
  }

  ghost predicate Untroubled(st: Settings, l: Live) {
    Free(Log(st, l), RecordKind.ADMISSION_DISCREPANCY)
  }

  function Verified(st: Settings, records: seq<Record>): Result<Projected, Reason> {
    VerifyRecords(st.cfg.world, st.cfg.binding.base, st.maximumOutputBytes, records)
  }

  /** As long as no discrepancy is on record, the verifier's fold over the log so far gives
      what was projected so far, within the bound. */
  ghost predicate Agrees(st: Settings, l: Live) {
    Untroubled(st, l) ==>
      && !l.attributionFailed
      && Verified(st, Log(st, l)) == Ok(ProjectedBy(l))
      && l.outputBytes <= st.maximumOutputBytes
      && Smooth(st.cfg, l.calls)
  }

  /** Every call went through, and none was unordered. */
  ghost predicate Smooth(cfg: Config, ops: seq<Op>) {
    ops != [] ==>
      && Smooth(cfg, ops[..|ops| - 1])
      && !ops[|ops| - 1].Unordered?
      && Step(cfg, Run(cfg, ops[..|ops| - 1]), ops[|ops| - 1]).Done?
  }

  // ---- Calls ----

  /** A call that goes through appends its one record. */
  lemma CallAppends(st: Settings, l: Live, op: Op)
    requires Perform(st, l, op).ok
    ensures var l' := Perform(st, l, op).live;
      && Log(st, l') == Log(st, l) + [Step(st.cfg, MapperOf(st, l), op).record]
      && (Untroubled(st, l') <==>
            Untroubled(st, l) && !Step(st.cfg, MapperOf(st, l), op).record.body.kind.ADMISSION_DISCREPANCY?)
      && (Smooth(st.cfg, l.calls) && !op.Unordered? ==> Smooth(st.cfg, l'.calls))
  {
    assert (l.calls + [op])[..|l.calls|] == l.calls;
    RunExtends(st.cfg, l.calls, op);
    StepIsTransactional(st.cfg, MapperOf(st, l), op);
    FreeExtends(Log(st, l), Step(st.cfg, MapperOf(st, l), op).record, RecordKind.ADMISSION_DISCREPANCY);
  }

  /** A recorded loss is a discrepancy. */
  lemma LossTroubles(st: Settings, l: Live, detail: Reason)
    requires Perform(st, l, Loss(detail)).ok
    ensures !Untroubled(st, Perform(st, l, Loss(detail)).live)
  {
    CallAppends(st, l, Loss(detail));
  }

  /** A cut appends a record without a frame. */
  lemma CutAgrees(st: Settings, l: Live, cut: AcquisitionCut)
    requires Agrees(st, l) && Perform(st, l, Cut(cut)).ok
    ensures Agrees(st, Perform(st, l, Cut(cut)).live)
  {
    var s := MapperOf(st, l);
    CallAppends(st, l, Cut(cut));
    var s1, at, d := Decompose(st.cfg, s, Cut(cut));
    ApplyRetainsRaw(st.cfg, s1, at, d);
    VerifyExtends(st.cfg.world, st.cfg.binding.base, st.maximumOutputBytes, s.records, Step(st.cfg, s, Cut(cut)).record);
  }

  // ---- One envelope ----

  /** Projecting is the same on any run state with the same projection. */
  lemma EnvelopeAgrees(st: Settings, l: Live, e: AcquisitionEnvelope)
    requires Agrees(st, l) && ReaderShaped(e)
    requires Consume(st, l, e).ok && Untroubled(st, Consume(st, l, e).live)
    ensures Agrees(st, Consume(st, l, e).live)
  {
    var s, l1 := MapperOf(st, l), Perform(st, l, Envelope(e)).live;
    var r := Step(st.cfg, s, Envelope(e)).record;
    CallAppends(st, l, Envelope(e));
    VerifyExtends(st.cfg.world, st.cfg.binding.base, st.maximumOutputBytes, s.records, r);
    if e.message.Some? {
      var message := e.message.value;
      ProjectKeepsCalls(st, l1, message);
      AcceptedFrames(st.cfg, s, e);
      assert ProjectedBy(l1) == ProjectedBy(l);
      if AdmissionReplay.ClientKind(e.kind) {
        ClientTrafficAgrees(st, l1, message);
      } else {
        MessageAgrees(st, l1, message);
      }
    } else {
      AcceptedFrames(st.cfg, s, e);
    }
  }

  /** In an untroubled run a projection made no call, so the log before it was untroubled. */
  lemma ProjectKeepsCalls(st: Settings, l: Live, message: ServerMessage)
    requires Project(st, l, message).ok && Untroubled(st, Project(st, l, message).live)
    ensures Project(st, l, message).live.calls == l.calls
  {
    var p := Project(st, l, message);
    ProjectCalls(st, l, message);
    if p.live.calls != l.calls {
      var detail :| p.live.calls == l.calls + [Loss(detail)] && p.ok == Step(st.cfg, MapperOf(st, l), Loss(detail)).Done?;
      LossTroubles(st, l, detail);
      assert false;
    }
  }

  lemma ConsumeAgrees(st: Settings, l: Live, e: AcquisitionEnvelope)
    requires Agrees(st, l) && ReaderShaped(e) && Consume(st, l, e).ok
    ensures Agrees(st, Consume(st, l, e).live)
  {
    if Untroubled(st, Consume(st, l, e).live) {
      EnvelopeAgrees(st, l, e);
    }
  }

  // ---- Batches ----

  predicate AllShaped(events: seq<AcquisitionEnvelope>) {
    forall i | 0 <= i < |events| :: ReaderShaped(events[i])
  }

  lemma {:induction false} ConsumeAllAgrees(st: Settings, l: Live, events: seq<AcquisitionEnvelope>)
    requires Agrees(st, l) && AllShaped(events) && ConsumeAll(st, l, events).ok
    ensures Agrees(st, ConsumeAll(st, l, events).live)
    decreases |events|
  {
    if events != [] {
      assert ReaderShaped(events[0]);
      ConsumeAgrees(st, l, events[0]);
      ConsumeAllAgrees(st, Consume(st, l, events[0]).live, events[1..]);
    }
  }

  lemma DrainAgrees(st: Settings, l: Live, batch: Batch)
    requires Agrees(st, l) && AllShaped(batch.events) && Drain(st, l, batch).ok
    ensures Agrees(st, Drain(st, l, batch).live)
  {
    ConsumeAllAgrees(st, l, batch.events);
  }

  predicate BatchesShaped(batches: seq<Batch>) {
    forall i | 0 <= i < |batches| :: AllShaped(batches[i].events)
  }

  lemma {:induction false} PollAgrees(st: Settings, l: Live, batches: seq<Batch>)
    requires Agrees(st, l) && BatchesShaped(batches) && Poll(st, l, batches).ok
    ensures Agrees(st, Poll(st, l, batches).live)
    decreases |batches|
  {
    if batches == [] {
      LossTroubles(st, l, AdmittedExecutionDeadlineElapsed);
    } else {
      var p := Drain(st, l, batches[0]);
      assert AllShaped(batches[0].events);
      DrainAgrees(st, l, batches[0]);
      if !Settled(MapperOf(st, p.live)) {
        PollAgrees(st, p.live, batches[1..]);
      }
    }
  }

  lemma AttendAgrees(st: Settings, batches: seq<Batch>)
    requires BatchesShaped(batches) && Attend(st, batches).ok
    ensures Agrees(st, Attend(st, batches).live)
  {
    var p := Poll(st, LAUNCHED, batches);
    if p.ok {
      PollAgrees(st, LAUNCHED, batches);
    } else {
      LossTroubles(st, p.live.(record := p.live.record.(failedLocally := true)), AdapterOperationFailed);
    }
  }

  /** What the verifier finds in a run that returned. */
  lemma ReturnedAgrees(st: Settings, batches: seq<Batch>, ending: Ending)
    requires BatchesShaped(batches) && AllShaped(ending.last.events)
    requires Returned(st, batches, ending).Some?
    ensures var l := Returned(st, batches, ending).value;
      && Agrees(st, l)
      && l.record.providerAdmission == Some(SnapshotOf(st.cfg, MapperOf(st, l)))
      && StateOf(MapperOf(st, l), l.record.turnStatus) == Some(l.record.state)
  {
    var p := Attend(st, batches);
    AttendAgrees(st, batches);
    DrainAgrees(st, p.live, ending.last);
    CutAgrees(st, Drain(st, p.live, ending.last).live, ending.cut);
  }

  // ---- Acceptance ----

  /** A call that left no discrepancy left a replayable record. */
  lemma UntroubledCallReplays(cfg: Config, s: State, op: Op)
    requires !op.Unordered? && Step(cfg, s, op).Done?
    requires !Step(cfg, s, op).record.body.kind.ADMISSION_DISCREPANCY?
    ensures Replayable(cfg, s, op)
  {
    var s1, at, d := Decompose(cfg, s, op);
    RefusalsAreDiscrepancies(cfg, s1, at, d);
    if op.Envelope? && !AdmissionReplay.ClientKind(op.envelope.kind) {
      var before := s.(expectedOrdinal := s1.expectedOrdinal);
      InOrderFrames(cfg, before, op.envelope, at);
      MessageRetainsRaw(cfg, before, op.envelope.message.value, op.envelope.kind.SERVER_REQUEST?);
      assert CustodyHolds(cfg, before, op.envelope.message.value);
    }
  }

  /** A smooth run without a discrepancy is a production run that replays. */
  lemma {:induction false} SmoothRunReplays(cfg: Config, ops: seq<Op>)
    requires Smooth(cfg, ops) && Free(Run(cfg, ops).records, RecordKind.ADMISSION_DISCREPANCY)
    ensures Production(cfg, ops) && AllReplayable(cfg, ops)
  {
    if ops != [] {
      var init, op := ops[..|ops| - 1], ops[|ops| - 1];
      var s := Run(cfg, init);
      StepIsTransactional(cfg, s, op);
      FreeExtends(s.records, Step(cfg, s, op).record, RecordKind.ADMISSION_DISCREPANCY);
      SmoothRunReplays(cfg, init);
      UntroubledCallReplays(cfg, s, op);
      ProductionExtends(cfg, ops);
      PrefixRuns(cfg, ops);
    }
  }

  lemma ProductionExtends(cfg: Config, ops: seq<Op>)
    requires ops != [] && Production(cfg, ops[..|ops| - 1])
    requires ProductionCall(cfg, Run(cfg, ops[..|ops| - 1]), ops[|ops| - 1])
    ensures Production(cfg, ops)
  {
    hide ProductionCall, Run;
    var init := ops[..|ops| - 1];
    forall i | 0 <= i < |ops|
      ensures ProductionCall(cfg, Run(cfg, ops[..i]), ops[i])
    {
      if i < |init| {
        assert ops[..i] == init[..i] && ops[i] == init[i];
      }
    }
  }

  /** The verifier's replay and output checks on a clean run: the snapshot is accepted and
      rebuilds the live mapper, the recomputed output never raises and is exactly the
      projected one, and all agent text together is within the admitted bound. */
  lemma VerifierAgreesWithRun(st: Settings, batches: seq<Batch>, ending: Ending)
    requires BatchesShaped(batches) && AllShaped(ending.last.events)
    requires Returned(st, batches, ending).Some?
    requires CleanlyCut(MapperOf(st, Returned(st, batches, ending).value))
    ensures var l := Returned(st, batches, ending).value;
      && l.record.providerAdmission.Some?
      && var snapshot := l.record.providerAdmission.value;
      && AcceptSnapshot(st.cfg.world, st.cfg.contract, snapshot) == Some(MapperOf(st, l))
      && VerifiedOutput(st.cfg.world, snapshot, st.maximumOutputBytes) == Ok(l.record.workerOutput)
      && l.outputBytes <= st.maximumOutputBytes
  {
    var l := Returned(st, batches, ending).value;
    ReturnedAgrees(st, batches, ending);
    CleanMeansNothingWentWrong(st.cfg, l.calls);
    SmoothRunReplays(st.cfg, l.calls);
    LiveSnapshotAccepted(st.cfg, l.calls);
  }

  /** Only clean runs claim an outcome. */
  lemma ClaimedOutcomeIsClean(st: Settings, batches: seq<Batch>, ending: Ending)
    requires BatchesShaped(batches) && AllShaped(ending.last.events)
    requires Returned(st, batches, ending).Some?
    requires !Returned(st, batches, ending).value.record.state.OUTCOME_UNKNOWN?
    ensures CleanlyCut(MapperOf(st, Returned(st, batches, ending).value))
  {
    ReturnedAgrees(st, batches, ending);
  }
}
