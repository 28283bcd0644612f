/** Runs of the mapper, and what every run keeps about its log and its admission state. */
module AdmissionLog {
  import opened Wrappers
  import opened ProviderAdmission
  import opened AdmissionGuards

  /** The state after a sequence of public operations, raised ones included. */
  function Run(cfg: Config, ops: seq<Op>): State {
    if ops == [] then INITIAL else Step(cfg, Run(cfg, ops[..|ops| - 1]), ops[|ops| - 1]).state
  }

  ghost predicate Reachable(cfg: Config, s: State) {
    exists ops: seq<Op> :: Run(cfg, ops) == s
  }

  lemma RunExtends(cfg: Config, ops: seq<Op>, op: Op)
    ensures Run(cfg, ops + [op]) == Step(cfg, Run(cfg, ops), op).state
  {
    assert (ops + [op])[..|ops|] == ops;
  }

  // ---- The log ----

  function TotalBytes(cfg: Config, records: seq<Record>): nat {
    if records == [] then 0
    else TotalBytes(cfg, records[..|records| - 1]) + cfg.world.recordBytes(records[|records| - 1].body)
  }

  /** A record that `_record` could have made at position i. */
  ghost predicate Made(cfg: Config, records: seq<Record>, i: nat)
    requires i < |records|
  {
    && records[i].body.sequence == i
    && records[i].body.base == cfg.binding.base
    && records[i].evidenceDigest == cfg.world.evidenceDigest(records[i].body)
  }

  ghost predicate LogInv(cfg: Config, s: State) {
    && (forall i | 0 <= i < |s.records| :: Made(cfg, s.records, i))
    && |s.records| <= MAXIMUM_RECORDS
    && s.retainedRecordBytes == TotalBytes(cfg, s.records) <= MAXIMUM_SNAPSHOT_BYTES
    && (forall i | 0 <= i < |s.records| ::
          s.records[i].body.kind.ACQUISITION_CUT? <==> s.acquisitionCut.Some? && i == |s.records| - 1)
    && (s.acquisitionCut.Some? ==>
          s.records != [] && s.records[|s.records| - 1].body.normalized == CutNormalized(s.acquisitionCut.value))
  }

  lemma EmitKeepsLog(
    cfg: Config, s: State, at: Acquisition, kind: RecordKind, name: string, raw: Option<RawCustody>, normalized: Normalized)
    requires LogInv(cfg, s.(acquisitionCut := None))
    requires kind.ACQUISITION_CUT? <==> s.acquisitionCut.Some?
    requires s.acquisitionCut.Some? ==> normalized == CutNormalized(s.acquisitionCut.value)
    requires Emit(cfg, s, at, kind, name, raw, normalized).Done?
    ensures LogInv(cfg, Emit(cfg, s, at, kind, name, raw, normalized).state)
  {
    var out := Emit(cfg, s, at, kind, name, raw, normalized);
    var records := out.state.records;
    assert records[..|s.records|] == s.records;
    forall i | 0 <= i < |records|
      ensures Made(cfg, records, i)
      ensures records[i].body.kind.ACQUISITION_CUT? <==> s.acquisitionCut.Some? && i == |records| - 1
    {
      if i < |s.records| {
        assert Made(cfg, s.records, i);
      }
    }
  }

  /** Every decision that is applied ends in one record, made on a state with the same log. */
  lemma ApplyEmits(cfg: Config, s: State, at: Acquisition, d: Decision)
    returns (before: State, kind: RecordKind, name: string, raw: Option<RawCustody>, normalized: Normalized)
    requires Apply(cfg, s, at, d).Done?
    ensures Apply(cfg, s, at, d) == Emit(cfg, before, at, kind, name, raw, normalized)
    ensures before.records == s.records && before.retainedRecordBytes == s.retainedRecordBytes
    ensures kind.ACQUISITION_CUT? <==> d.Close?
    ensures before.acquisitionCut == (if d.Close? then Some(d.cutFacts) else s.acquisitionCut)
    ensures d.Close? ==> normalized == CutNormalized(d.cutFacts)
  {
    var out := Apply(cfg, s, at, d);
    var body := out.record.body;
    kind, name, raw, normalized := body.kind, body.methodName, body.raw, body.normalized;
    before := out.state.(records := s.records, retainedRecordBytes := s.retainedRecordBytes);
  }

  lemma ApplyKeepsLog(cfg: Config, s: State, at: Acquisition, d: Decision)
    requires LogInv(cfg, s) && s.acquisitionCut.None? && Apply(cfg, s, at, d).Done?
    ensures LogInv(cfg, Apply(cfg, s, at, d).state)
  {
    hide Apply, Emit;
    var before, kind, name, raw, normalized := ApplyEmits(cfg, s, at, d);
    EmitKeepsLog(cfg, before, at, kind, name, raw, normalized);
  }

  lemma ApplyAppends(cfg: Config, s: State, at: Acquisition, d: Decision)
    requires Apply(cfg, s, at, d).Done?
    ensures Apply(cfg, s, at, d).state.records == s.records + [Apply(cfg, s, at, d).record]
  {
    hide Apply;
    var before, kind, name, raw, normalized := ApplyEmits(cfg, s, at, d);
  }

  // ---- Admission state ----

  /** Execution identity exists exactly in the admitted disposition, and the mechanism state
      lies in the class its disposition fixes. */
  predicate Coupled(s: State) {
    && (s.identity.Some? <==> s.disposition.EXECUTION_ADMITTED?)
    && (match s.disposition
        case UNRESOLVED => s.mechanism.M_DISPATCHING?
        case NOT_ADMITTED_MODEL_AT_CAPACITY => s.mechanism.M_PARKED_NOT_ADMITTED?
        case ADMISSION_INDETERMINATE => s.mechanism.M_ADMISSION_INDETERMINATE?
        case EXECUTION_ADMITTED =>
          s.mechanism in {M_EXECUTION_ADMITTED, M_RUNNING, M_WAITING_APPROVAL, M_PROVIDER_COMPLETED,
                          M_POST_ADMISSION_INTERRUPTED})
    && !(s.pending.Some? && s.openResponseId.Some?)
    && (s.pending.Some? <==> s.pendingStartedAtMs.Some?)
  }

  /** The two mechanism states nothing recovers from. */
  predicate Distrusted(s: State) {
    s.mechanism.M_ADMISSION_INDETERMINATE? || s.mechanism.M_POST_ADMISSION_INTERRUPTED?
  }

  /** How admission may move: identity and distrust are final, and an approval that was
      surfaced never lets the turn complete. */
  predicate Advances(s: State, s': State) {
    && (s.identity.Some? ==> s'.identity == s.identity)
    && (Distrusted(s) ==> s'.mechanism == s.mechanism && s'.disposition == s.disposition)
    && (s.mechanism.M_WAITING_APPROVAL? ==> s'.mechanism in {M_WAITING_APPROVAL, M_POST_ADMISSION_INTERRUPTED})
    && (s.mechanism.M_PROVIDER_COMPLETED? ==> s'.mechanism in {M_PROVIDER_COMPLETED, M_POST_ADMISSION_INTERRUPTED})
  }

  lemma ApplyKeepsCoupled(cfg: Config, s: State, at: Acquisition, d: Decision)
    requires Coupled(s) && Enabled(cfg, s, d) && Apply(cfg, s, at, d).Done?
    ensures Coupled(Apply(cfg, s, at, d).state)
  {
  }

  lemma ApplyMoves(cfg: Config, s: State, at: Acquisition, d: Decision)
    requires Coupled(s) && Enabled(cfg, s, d) && Apply(cfg, s, at, d).Done?
    ensures Advances(s, Apply(cfg, s, at, d).state)
  {
  }

  lemma ApplyAdvances(cfg: Config, s: State, at: Acquisition, d: Decision)
    requires Coupled(s) && Enabled(cfg, s, d) && Apply(cfg, s, at, d).Done?
    ensures Coupled(Apply(cfg, s, at, d).state)
    ensures Advances(s, Apply(cfg, s, at, d).state)
  {
    hide Coupled, Advances, Apply, Enabled;
    ApplyKeepsCoupled(cfg, s, at, d);
    ApplyMoves(cfg, s, at, d);
  }

  /** One public operation either appends exactly one record to an open log or raises; a raise
      leaves everything but the echo bookkeeping as it was. */
  lemma StepIsTransactional(cfg: Config, s: State, op: Op)
    ensures match Step(cfg, s, op)
      case Done(s', r) => s.acquisitionCut.None? && s'.records == s.records + [r]
      case Raised(s', _) => s' == s.(bounded := s'.bounded)
  {
    hide Step, Apply;
    if Step(cfg, s, op).Done? {
      var s1, at, d := Decompose(cfg, s, op);
      ApplyAppends(cfg, s1, at, d);
    } else {
      RaisedKeepsState(cfg, s, op);
    }
  }

  lemma StepAdvances(cfg: Config, s: State, op: Op)
    requires LogInv(cfg, s) && Coupled(s)
    ensures LogInv(cfg, Step(cfg, s, op).state) && Coupled(Step(cfg, s, op).state)
    ensures Advances(s, Step(cfg, s, op).state)
  {
    if Step(cfg, s, op).Done? {
      var s1, at, d := Decompose(cfg, s, op);
      ApplyKeepsLog(cfg, s1, at, d);
      ApplyAdvances(cfg, s1, at, d);
    } else {
      RaisedKeepsState(cfg, s, op);
    }
  }

  /** Every reachable mapper: a dense, sealed, bounded log and coupled admission state. */
  lemma {:induction false} RunInvariant(cfg: Config, ops: seq<Op>)
    ensures LogInv(cfg, Run(cfg, ops)) && Coupled(Run(cfg, ops))
  {
    if ops != [] {
      RunInvariant(cfg, ops[..|ops| - 1]);
      StepAdvances(cfg, Run(cfg, ops[..|ops| - 1]), ops[|ops| - 1]);
    }
  }

  lemma AdvancesTransitive(a: State, b: State, c: State)
    requires Advances(a, b) && Advances(b, c) && Coupled(a) && Coupled(b)
    ensures Advances(a, c)
  {
  }

  lemma AdvancesReflexive(s: State)
    requires Coupled(s)
    ensures Advances(s, s)
  {
  }

  /** Over any continuation of any run the log only grows, and admission only advances. */
  lemma {:induction false} RunAdvances(cfg: Config, ops: seq<Op>, more: seq<Op>)
    ensures Run(cfg, ops).records <= Run(cfg, ops + more).records
    ensures Advances(Run(cfg, ops), Run(cfg, ops + more))
    ensures Run(cfg, ops).acquisitionCut.Some? ==> Run(cfg, ops + more).records == Run(cfg, ops).records
  {
    hide Step, LogInv, Coupled, Advances;
    if more == [] {
      assert ops + more == ops;
      RunInvariant(cfg, ops);
      AdvancesReflexive(Run(cfg, ops));
    } else {
      var init := more[..|more| - 1];
      RunAdvances(cfg, ops, init);
      assert ops + more == (ops + init) + [more[|more| - 1]];
      RunExtends(cfg, ops + init, more[|more| - 1]);
      RunInvariant(cfg, ops);
      RunInvariant(cfg, ops + init);
      StepAdvances(cfg, Run(cfg, ops + init), more[|more| - 1]);
      StepIsTransactional(cfg, Run(cfg, ops + init), more[|more| - 1]);
      AdvancesTransitive(Run(cfg, ops), Run(cfg, ops + init), Run(cfg, ops + more));
      if Run(cfg, ops).acquisitionCut.Some? {
        CutStays(cfg, ops, init);
      }
    }
  }

  lemma {:induction false} CutStays(cfg: Config, ops: seq<Op>, more: seq<Op>)
    requires Run(cfg, ops).acquisitionCut.Some?
    ensures Run(cfg, ops + more).acquisitionCut == Run(cfg, ops).acquisitionCut
  {
    hide Step;
    if more == [] {
      assert ops + more == ops;
    } else {
      var init := more[..|more| - 1];
      CutStays(cfg, ops, init);
      assert ops + more == (ops + init) + [more[|more| - 1]];
      RunExtends(cfg, ops + init, more[|more| - 1]);
      StepIsTransactional(cfg, Run(cfg, ops + init), more[|more| - 1]);
    }
  }
}
