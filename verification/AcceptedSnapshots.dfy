/** What acceptance of a snapshot proves, whoever wrote it. */
module AcceptedSnapshots {
  import opened Wrappers
  import opened AppServerProtocol
  import opened ProviderAdmission
  import opened AdmissionLog
  import opened AdmissionReplay
  import opened ReplayRoundTrip
  import opened CleanHistory
  import opened BoundaryLanguage

  /** `replay_snapshot`; None is a raised error. */
  function AcceptSnapshot(w: World, contract: CaptureContract, snapshot: Snapshot): Option<State> {
    var cfg := Config(w, snapshot.binding, contract);
    match Replay(cfg, snapshot.records)
    case None => None
    case Some(s) => if SnapshotOf(cfg, s) == snapshot then Some(s) else None
  }

  /** Every state replay reaches is the state of a run of public operations with that log. */
  lemma {:induction false} ReplayIsSound(cfg: Config, records: seq<Record>) returns (ops: seq<Op>)
    requires ReplayAll(cfg, records).Some?
    ensures ReplayAll(cfg, records) == Some(Run(cfg, ops))
    ensures Run(cfg, ops).records == records
  {
    if records == [] {
      ops := [];
    } else {
      var init := records[..|records| - 1];
      var last := records[|records| - 1];
      var before := ReplayIsSound(cfg, init);
      var op := Reconstruct(cfg.world, last.body).value;
      ops := before + [op];
      RunExtends(cfg, before, op);
      StepIsTransactional(cfg, Run(cfg, before), op);
      assert init + [last] == records;
    }
  }

  /** An accepted snapshot is the snapshot of a reachable mapper: the one that replay rebuilt. */
  lemma AcceptedIsReachable(w: World, contract: CaptureContract, snapshot: Snapshot)
    requires AcceptSnapshot(w, contract, snapshot).Some?
    ensures var cfg := Config(w, snapshot.binding, contract);
      var s := AcceptSnapshot(w, contract, snapshot).value;
      Reachable(cfg, s) && SnapshotOf(cfg, s) == snapshot
  {
    var cfg := Config(w, snapshot.binding, contract);
    var ops := ReplayIsSound(cfg, snapshot.records);
  }

  /** What a reader may conclude from an accepted snapshot alone. */
  ghost predicate Trustworthy(snapshot: Snapshot) {
    && Language(Word(snapshot.records))
    && |snapshot.records| <= MAXIMUM_RECORDS
    && (snapshot.identity.Some? <==> snapshot.disposition.EXECUTION_ADMITTED?)
    && (snapshot.mechanism.M_PROVIDER_COMPLETED? ==>
          Cyclic(Word(snapshot.records)) && |Word(snapshot.records)| % 3 == 0 && |Word(snapshot.records)| >= 3)
    && (snapshot.acquisitionCut.Some? && snapshot.acquisitionCut.value.clean ==>
          && Free(snapshot.records, RecordKind.ADMISSION_DISCREPANCY)
          && Free(snapshot.records, WAITING_APPROVAL_RECORD)
          && exists paired: map<nat, nat> :: Bijection(snapshot.records, paired))
  }

  lemma AcceptedIsTrustworthy(w: World, contract: CaptureContract, snapshot: Snapshot)
    requires AcceptSnapshot(w, contract, snapshot).Some?
    ensures Trustworthy(snapshot)
  {
    var cfg := Config(w, snapshot.binding, contract);
    AcceptedIsReachable(w, contract, snapshot);
    var ops :| Run(cfg, ops) == AcceptSnapshot(w, contract, snapshot).value;
    RunInvariant(cfg, ops);
    RunSpeaksLanguage(cfg, ops);
    if CleanlyCut(Run(cfg, ops)) {
      CleanMeansNothingWentWrong(cfg, ops);
    }
  }

  /** A production mapper's own snapshot is accepted exactly when its run was replayable, and
      then replay holds the same private state. */
  lemma LiveSnapshotAccepted(cfg: Config, ops: seq<Op>)
    requires Production(cfg, ops)
    ensures AcceptSnapshot(cfg.world, cfg.contract, SnapshotOf(cfg, Run(cfg, ops))) ==
      if AllReplayable(cfg, ops) then Some(Run(cfg, ops)) else None
  {
    ReplayExactly(cfg, ops);
  }
}
