/** One statement from the process's stdout to the verifier's verdict: acquisition, admission,
    the drain loop and verification composed. */
module WholeRun {
  import opened Wrappers
  import opened Utf8
  import opened Reasons
  import opened AppServerProtocol
  import opened ProviderAdmission
  import opened AdmissionGuards
  import opened AdmissionLog
  import opened CleanHistory
  import opened AcceptedSnapshots
  import opened ProviderRunner
  import opened RunVerification
  import opened LiveReplayAgreement
  import OrderedAcquisition
  import AcquisitionRuns
  import opened EndToEndCustody

  /** How many of the batches the polling loop gets to drain. */
  function Polled(st: Settings, l: Live, batches: seq<Batch>): (n: nat)
    ensures n <= |batches|
    decreases |batches|
  {
    if batches == [] then 0
    else
      var p := Drain(st, l, batches[0]);
      if !p.ok || Settled(MapperOf(st, p.live)) then 1 else 1 + Polled(st, p.live, batches[1..])
  }

  function EventsOf(batches: seq<Batch>): seq<AcquisitionEnvelope> {
    if batches == [] then [] else batches[0].events + EventsOf(batches[1..])
  }

  /** An untroubled run has fed its mapper exactly these envelopes. */
  ghost predicate Feeds(st: Settings, l: Live, es: seq<AcquisitionEnvelope>) {
    Untroubled(st, l) ==> Fed(l.calls) == es
  }

  lemma FedExtends(ops: seq<Op>, op: Op)
    ensures Fed(ops + [op]) == Fed(ops) + if op.Envelope? then [op.envelope] else []
  {
    assert (ops + [op])[..|ops|] == ops;
  }

  lemma ConsumeFeeds(st: Settings, l: Live, e: AcquisitionEnvelope, es: seq<AcquisitionEnvelope>)
    requires Feeds(st, l, es) && Consume(st, l, e).ok
    ensures Feeds(st, Consume(st, l, e).live, es + [e])
  {
    var l1 := Perform(st, l, Envelope(e)).live;
    FedExtends(l.calls, Envelope(e));
    CallAppends(st, l, Envelope(e));
    if Untroubled(st, Consume(st, l, e).live) && e.message.Some? {
      ProjectKeepsCalls(st, l1, e.message.value);
    }
  }

  lemma ShiftFirst<T>(a: seq<T>, b: seq<T>)
    requires b != []
    ensures (a + [b[0]]) + b[1..] == a + b
  {
  }

  lemma {:induction false} ConsumeAllFeeds(
    st: Settings, l: Live, events: seq<AcquisitionEnvelope>, es: seq<AcquisitionEnvelope>)
    requires Feeds(st, l, es) && ConsumeAll(st, l, events).ok
    ensures Feeds(st, ConsumeAll(st, l, events).live, es + events)
    decreases |events|
  {
    if events == [] {
      assert es + events == es;
    } else {
      ConsumeFeeds(st, l, events[0], es);
      ConsumeAllFeeds(st, Consume(st, l, events[0]).live, events[1..], es + [events[0]]);
      ShiftFirst(es, events);
    }
  }

  lemma EventsCons(batch: Batch, batches: seq<Batch>, es: seq<AcquisitionEnvelope>)
    ensures es + EventsOf([batch] + batches) == (es + batch.events) + EventsOf(batches)
  {
    assert ([batch] + batches)[1..] == batches;
  }

  lemma {:induction false} PollFeeds(st: Settings, l: Live, batches: seq<Batch>, es: seq<AcquisitionEnvelope>)
    requires Feeds(st, l, es) && Poll(st, l, batches).ok
    ensures Feeds(st, Poll(st, l, batches).live, es + EventsOf(batches[..Polled(st, l, batches)]))
    decreases |batches|
  {
    if batches == [] {
      LossTroubles(st, l, AdmittedExecutionDeadlineElapsed);
    } else {
      var first, rest := batches[0], batches[1..];
      var p := Drain(st, l, first);
      ConsumeAllFeeds(st, l, first.events, es);
      if Settled(MapperOf(st, p.live)) {
        EventsCons(first, [], es);
        assert batches[..1] == [first] + [];
        assert (es + first.events) + EventsOf([]) == es + first.events;
      } else {
        var n := Polled(st, p.live, rest);
        PollFeeds(st, p.live, rest, es + first.events);
        EventsCons(first, rest[..n], es);
        assert batches[..1 + n] == [first] + rest[..n];
      }
    }
  }

  lemma ReturnedFeeds(st: Settings, batches: seq<Batch>, ending: Ending)
    requires Returned(st, batches, ending).Some?
    ensures Feeds(st, Returned(st, batches, ending).value,
                  EventsOf(batches[..Polled(st, LAUNCHED, batches)]) + ending.last.events)
  {
    var es := EventsOf(batches[..Polled(st, LAUNCHED, batches)]);
    var p, q := Poll(st, LAUNCHED, batches), Attend(st, batches);
    if p.ok {
      PollFeeds(st, LAUNCHED, batches, []);
      assert [] + es == es;
    } else {
      LossTroubles(st, p.live.(record := p.live.record.(failedLocally := true)), AdapterOperationFailed);
    }
    ConsumeAllFeeds(st, q.live, ending.last.events, es);
    var d := Drain(st, q.live, ending.last);
    CallAppends(st, d.live, Cut(ending.cut));
    FedExtends(d.live.calls, Cut(ending.cut));
  }

  lemma CutCloses(cfg: Config, s: State, op: Op)
    requires Step(cfg, s, op).Done?
    ensures s.acquisitionCut.None?
    ensures op.Cut? ==> Step(cfg, s, op).state.acquisitionCut.Some?
  {
    var s1, at, d := Decompose(cfg, s, op);
    ApplyKeepsRaw(cfg, s1, at, d);
  }

  /** Nothing can go through after a cut, so a smooth run that is still open has none. */
  lemma {:induction false} OpenRunHasNoCut(cfg: Config, ops: seq<Op>)
    requires Smooth(cfg, ops) && Run(cfg, ops).acquisitionCut.None?
    ensures forall i | 0 <= i < |ops| :: !ops[i].Cut?
  {
    if ops != [] {
      var init := ops[..|ops| - 1];
      CutCloses(cfg, Run(cfg, init), ops[|ops| - 1]);
      OpenRunHasNoCut(cfg, init);
      assert ops == init + [ops[|ops| - 1]];
    }
  }

  lemma OnlyCut(cfg: Config, ops: seq<Op>, cut: AcquisitionCut)
    requires ops != [] && ops[|ops| - 1] == Cut(cut) && Smooth(cfg, ops)
    ensures forall i | 0 <= i < |ops| :: ops[i].Cut? ==> ops[i].cut == cut
  {
    hide Step, Run;
    var init := ops[..|ops| - 1];
    CutCloses(cfg, Run(cfg, init), Cut(cut));
    OpenRunHasNoCut(cfg, init);
    assert ops == init + [Cut(cut)];
  }

  lemma ReturnedEndsWithCut(st: Settings, batches: seq<Batch>, ending: Ending)
    requires Returned(st, batches, ending).Some?
    ensures var calls := Returned(st, batches, ending).value.calls;
      calls != [] && calls[|calls| - 1] == Cut(ending.cut)
  {
    hide Attend, Drain, Run;
  }

  /** Drained envelopes have the shape the projection relies on. */
  lemma DrainedIsShaped(
    setup: OrderedAcquisition.Setup, stream: bytes, actions: seq<AcquisitionRuns.Action>, es: seq<AcquisitionEnvelope>)
    requires es <= AcquisitionRuns.Execute(setup, stream, actions).drained
    ensures AllShaped(es)
  {
    var m := AcquisitionRuns.Execute(setup, stream, actions);
    AcquisitionRuns.RunKeepsCustody(setup, stream, actions);
    forall i | 0 <= i < |es|
      ensures ReaderShaped(es[i])
    {
      assert es[i] == AcquisitionRuns.EverIssued(m)[i];
      assert AcquisitionRuns.Exact(AcquisitionRuns.EverIssued(m)[i]);
    }
  }

  lemma {:induction false} BatchesOfShaped(batches: seq<Batch>)
    requires AllShaped(EventsOf(batches))
    ensures BatchesShaped(batches)
  {
    if batches != [] {
      var first, rest := batches[0].events, EventsOf(batches[1..]);
      assert forall i | 0 <= i < |first| :: first[i] == (first + rest)[i];
      assert forall i | 0 <= i < |rest| :: rest[i] == (first + rest)[|first| + i];
      BatchesOfShaped(batches[1..]);
      assert forall i | 0 < i < |batches| :: batches[i] == batches[1..][i - 1];
    }
  }

  /** What a run that claims an outcome retains and what the verifier makes of it: the whole
      stdout stream is in the snapshot, line by line and in order; replay accepts the snapshot
      and rebuilds the mapper; and the recomputed output is the stored one. This holds over
      every interleaving of the client's threads, and every way of batching the drains. */
  lemma WholeRunIsVerified(
    setup: OrderedAcquisition.Setup, stream: bytes, before: seq<AcquisitionRuns.Action>, after: seq<AcquisitionRuns.Action>,
    st: Settings, batches: seq<Batch>, ending: Ending)
    requires Returned(st, batches, ending).Some?
    requires !Returned(st, batches, ending).value.record.state.OUTCOME_UNKNOWN?
    requires AcquisitionRuns.CutOf(AcquisitionRuns.Execute(setup, stream, before), ending.cut)
    requires Polled(st, LAUNCHED, batches) == |batches|
    requires EventsOf(batches) + ending.last.events <= AcquisitionRuns.Execute(setup, stream, before + after).drained
    ensures var l := Returned(st, batches, ending).value;
      && l.record.providerAdmission.Some?
      && var snapshot := l.record.providerAdmission.value;
      && HoldsStream(snapshot.records, stream, ending.cut.orderedHighWater)
      && AcceptSnapshot(st.cfg.world, st.cfg.contract, snapshot) == Some(MapperOf(st, l))
      && VerifiedOutput(st.cfg.world, snapshot, st.maximumOutputBytes) == Ok(l.record.workerOutput)
  {
    hide Returned, AcquisitionRuns.Execute, HoldsStream, AcceptSnapshot, VerifiedOutput, Run, AllShaped, BatchesShaped;
    hide AcquisitionRuns.CutOf;
    var l := Returned(st, batches, ending).value;
    var es := EventsOf(batches) + ending.last.events;
    DrainedIsShaped(setup, stream, before + after, es);
    SplitShaped(EventsOf(batches), ending.last.events);
    BatchesOfShaped(batches);
    ClaimedOutcomeIsClean(st, batches, ending);
    VerifierAgreesWithRun(st, batches, ending);
    ReturnedAgrees(st, batches, ending);
    CleanMeansNothingWentWrong(st.cfg, l.calls);
    ReturnedFeeds(st, batches, ending);
    assert batches[..|batches|] == batches;
    ReturnedEndsWithCut(st, batches, ending);
    OnlyCut(st.cfg, l.calls, ending.cut);
    CustodyIsEndToEnd(setup, stream, before, after, st.cfg, l.calls, ending.cut);
  }

  lemma SplitShaped(a: seq<AcquisitionEnvelope>, b: seq<AcquisitionEnvelope>)
    requires AllShaped(a + b)
    ensures AllShaped(a) && AllShaped(b)
  {
    assert forall i | 0 <= i < |a| :: a[i] == (a + b)[i];
    assert forall i | 0 <= i < |b| :: b[i] == (a + b)[|a| + i];
  }
}
