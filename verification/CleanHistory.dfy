/** What a clean terminal cut says about the whole history: nothing went wrong anywhere, and
    every client request was answered exactly once. */
module CleanHistory {
  import opened Wrappers
  import opened ProviderAdmission
  import opened AdmissionGuards
  import opened AdmissionLog

  // ---- Trouble ----

  ghost predicate Free(records: seq<Record>, kind: RecordKind) {
    forall i | 0 <= i < |records| :: records[i].body.kind != kind
  }

  /** The cut, when there is one, was clean. */
  predicate CutIsClean(s: State) {
    s.acquisitionCut.Some? ==> s.acquisitionCut.value.clean
  }

  /** The mapper distrusts the dispatch exactly when its log shows a discrepancy or an unclean
      cut, and waits for approval exactly when a surfaced approval is its only trouble. */
  ghost predicate TroubleInv(s: State) {
    && (Distrusted(s) <==> !Free(s.records, RecordKind.ADMISSION_DISCREPANCY) || !CutIsClean(s))
    && (!Distrusted(s) ==> (s.mechanism.M_WAITING_APPROVAL? <==> !Free(s.records, WAITING_APPROVAL_RECORD)))
  }

  lemma FreeExtends(records: seq<Record>, r: Record, kind: RecordKind)
    ensures Free(records + [r], kind) <==> Free(records, kind) && r.body.kind != kind
  {
    assert (records + [r])[|records|] == r;
    forall i | 0 <= i < |records|
      ensures (records + [r])[i] == records[i]
    {
    }
  }

  /** The records a decision can add, as far as trouble is concerned. */
  lemma TroubleOf(cfg: Config, s: State, at: Acquisition, d: Decision)
    requires Coupled(s) && Enabled(cfg, s, d) && Apply(cfg, s, at, d).Done?
    ensures var out := Apply(cfg, s, at, d);
      && out.state.records == s.records + [out.record]
      && (out.record.body.kind.ADMISSION_DISCREPANCY? <==> d.Refuse?)
      && (out.record.body.kind.WAITING_APPROVAL_RECORD? <==> d.Surface?)
      && (Distrusted(out.state) <==> Distrusted(s) || d.Refuse? || (d.Close? && !d.cutFacts.clean))
      && (!Distrusted(out.state) ==>
            (out.state.mechanism.M_WAITING_APPROVAL? <==> s.mechanism.M_WAITING_APPROVAL? || d.Surface?))
      && out.state.acquisitionCut == (if d.Close? then Some(d.cutFacts) else s.acquisitionCut)
  {
  }

  lemma ApplyKeepsTrouble(cfg: Config, s: State, at: Acquisition, d: Decision)
    requires TroubleInv(s) && Coupled(s) && s.acquisitionCut.None? && Enabled(cfg, s, d) && Apply(cfg, s, at, d).Done?
    ensures TroubleInv(Apply(cfg, s, at, d).state)
  {
    var out := Apply(cfg, s, at, d);
    TroubleOf(cfg, s, at, d);
    FreeExtends(s.records, out.record, RecordKind.ADMISSION_DISCREPANCY);
    FreeExtends(s.records, out.record, WAITING_APPROVAL_RECORD);
  }

  // ---- Requests and responses ----

  predicate Issued(r: Record) {
    r.body.normalized.ClientRequestFacts?
  }

  predicate Retained(r: Record) {
    r.body.normalized.ClientResponseFacts?
  }

  /** The response repeats the request's id, method and params digest. */
  predicate Answers(request: Record, response: Record) {
    && Issued(request) && Retained(response)
    && response.body.normalized.responseRequestId == request.body.normalized.requestId
    && response.body.normalized.responseMethod == request.body.normalized.requestMethod
    && response.body.normalized.requestParamsSha256 == request.body.normalized.paramsSha256
  }

  /** Requests answered so far, as index pairs, and the outstanding ones by request id. */
  datatype Ledger = Ledger(paired: map<nat, nat>, outstanding: map<int, nat>)

  /** `paired` matches issue records to later answers one to one; every issue record is either
      paired or outstanding under its own id, and every answer is paired. */
  ghost predicate Accounts(records: seq<Record>, l: Ledger) {
    && PairsAnswer(records, l.paired)
    && (forall id | id in l.outstanding :: OutstandingAt(records, l, id))
    && (forall i: nat | i < |records| && Issued(records[i]) ::
          i in l.paired || OpenAt(l, records[i].body.normalized.requestId, i))
    && (forall j: nat | j < |records| && Retained(records[j]) :: j in l.paired.Values)
  }

  ghost predicate PairsAnswer(records: seq<Record>, paired: map<nat, nat>) {
    && (forall i | i in paired :: i < paired[i] < |records| && Answers(records[i], records[paired[i]]))
    && (forall i, k | i in paired && k in paired && i != k :: paired[i] != paired[k])
  }

  predicate OpenAt(l: Ledger, id: int, i: nat) {
    id in l.outstanding && l.outstanding[id] == i
  }

  ghost predicate OutstandingAt(records: seq<Record>, l: Ledger, id: int)
    requires id in l.outstanding
  {
    var i := l.outstanding[id];
    i < |records| && Issued(records[i]) && records[i].body.normalized.requestId == id && i !in l.paired
  }

  /** The mapper's outstanding requests are the ledger's. */
  ghost predicate HoldsOutstanding(s: State, l: Ledger) {
    && s.clientRequests.Keys == l.outstanding.Keys
    && forall id | id in l.outstanding :: HeldAt(s.records, s.clientRequests, l.outstanding[id], id)
  }

  predicate HeldAt(records: seq<Record>, clientRequests: map<int, ClientRequest>, i: nat, id: int) {
    && i < |records| && Issued(records[i]) && id in clientRequests
    && clientRequests[id] ==
       ClientRequest(id, records[i].body.normalized.requestMethod, records[i].body.normalized.paramsSha256)
  }

  ghost predicate ClientInv(s: State) {
    exists l: Ledger :: Accounts(s.records, l) && HoldsOutstanding(s, l)
  }

  lemma AccountsExtend(records: seq<Record>, l: Ledger, r: Record)
    requires Accounts(records, l) && !Issued(r) && !Retained(r)
    ensures Accounts(records + [r], l)
  {
    var records' := records + [r];
    assert forall i | i in l.paired :: records'[i] == records[i] && records'[l.paired[i]] == records[l.paired[i]];
    forall id | id in l.outstanding
      ensures OutstandingAt(records', l, id)
    {
      assert OutstandingAt(records, l, id);
    }
  }

  lemma AccountsIssue(records: seq<Record>, l: Ledger, r: Record) returns (l': Ledger)
    requires Accounts(records, l) && Issued(r) && r.body.normalized.requestId !in l.outstanding
    ensures l' == Ledger(l.paired, l.outstanding[r.body.normalized.requestId := |records|])
    ensures Accounts(records + [r], l')
  {
    var records' := records + [r];
    l' := Ledger(l.paired, l.outstanding[r.body.normalized.requestId := |records|]);
    assert forall i | i in l.paired :: records'[i] == records[i] && records'[l.paired[i]] == records[l.paired[i]];
    forall id | id in l'.outstanding
      ensures OutstandingAt(records', l', id)
    {
      if id in l.outstanding && id != r.body.normalized.requestId {
        assert OutstandingAt(records, l, id);
      }
    }
    forall i: nat | i < |records'| && Issued(records'[i])
      ensures i in l'.paired || OpenAt(l', records'[i].body.normalized.requestId, i)
    {
      if i < |records| {
        assert i in l.paired || OpenAt(l, records[i].body.normalized.requestId, i);
      }
    }
  }

  lemma AccountsRetain(records: seq<Record>, l: Ledger, r: Record) returns (l': Ledger)
    requires Accounts(records, l) && Retained(r)
    requires r.body.normalized.responseRequestId in l.outstanding
    requires Answers(records[l.outstanding[r.body.normalized.responseRequestId]], r)
    ensures l' == Ledger(l.paired[l.outstanding[r.body.normalized.responseRequestId] := |records|],
                         l.outstanding - {r.body.normalized.responseRequestId})
    ensures Accounts(records + [r], l')
  {
    var records' := records + [r];
    var id0 := r.body.normalized.responseRequestId;
    var i0 := l.outstanding[id0];
    l' := Ledger(l.paired[i0 := |records|], l.outstanding - {id0});
    assert OutstandingAt(records, l, id0);
    forall i | i in l'.paired
      ensures i < l'.paired[i] < |records'| && Answers(records'[i], records'[l'.paired[i]])
    {
      if i != i0 {
        assert records'[i] == records[i] && records'[l.paired[i]] == records[l.paired[i]];
      }
    }
    forall id | id in l'.outstanding
      ensures OutstandingAt(records', l', id)
    {
      assert OutstandingAt(records, l, id);
    }
    forall i: nat | i < |records'| && Issued(records'[i])
      ensures i in l'.paired || OpenAt(l', records'[i].body.normalized.requestId, i)
    {
      assert i in l.paired || OpenAt(l, records[i].body.normalized.requestId, i);
    }
    forall j: nat | j < |records'| && Retained(records'[j])
      ensures j in l'.paired.Values
    {
      if j < |records| {
        assert j in l.paired.Values;
        var i :| i in l.paired && l.paired[i] == j;
        assert l'.paired[i] == j;
      } else {
        assert l'.paired[i0] == j;
      }
    }
  }

  lemma HeldExtends(s: State, l: Ledger, records: seq<Record>)
    requires HoldsOutstanding(s, l) && s.records <= records
    ensures forall id | id in l.outstanding :: HeldAt(records, s.clientRequests, l.outstanding[id], id)
  {
    forall id | id in l.outstanding
      ensures HeldAt(records, s.clientRequests, l.outstanding[id], id)
    {
      assert HeldAt(s.records, s.clientRequests, l.outstanding[id], id);
    }
  }

  lemma IssueKeepsClients(s: State, s': State, r: Record, id: int)
    requires ClientInv(s) && id !in s.clientRequests
    requires s'.records == s.records + [r] && Issued(r) && r.body.normalized.requestId == id
    requires s'.clientRequests ==
      s.clientRequests[id := ClientRequest(id, r.body.normalized.requestMethod, r.body.normalized.paramsSha256)]
    ensures ClientInv(s')
  {
    var l :| Accounts(s.records, l) && HoldsOutstanding(s, l);
    IssueHolds(s, s', l, r, id);
    var l' := AccountsIssue(s.records, l, r);
    assert HoldsOutstanding(s', l');
  }

  lemma IssueHolds(s: State, s': State, l: Ledger, r: Record, id: int)
    requires HoldsOutstanding(s, l) && id !in s.clientRequests
    requires s'.records == s.records + [r] && Issued(r) && r.body.normalized.requestId == id
    requires s'.clientRequests ==
      s.clientRequests[id := ClientRequest(id, r.body.normalized.requestMethod, r.body.normalized.paramsSha256)]
    ensures HoldsOutstanding(s', Ledger(l.paired, l.outstanding[id := |s.records|]))
  {
    HeldExtends(s, l, s'.records);
    forall k | k in l.outstanding
      ensures HeldAt(s'.records, s'.clientRequests, l.outstanding[k], k)
    {
      assert HeldAt(s'.records, s.clientRequests, l.outstanding[k], k);
    }
  }

  lemma RetainKeepsClients(s: State, s': State, r: Record, id: int)
    requires ClientInv(s) && id in s.clientRequests
    requires s'.records == s.records + [r] && Retained(r) && r.body.normalized.responseRequestId == id
    requires r.body.normalized.responseMethod == s.clientRequests[id].methodName
    requires r.body.normalized.requestParamsSha256 == s.clientRequests[id].paramsDigest
    requires s'.clientRequests == s.clientRequests - {id}
    ensures ClientInv(s')
  {
    var l :| Accounts(s.records, l) && HoldsOutstanding(s, l);
    assert OutstandingAt(s.records, l, id) && HeldAt(s.records, s.clientRequests, l.outstanding[id], id);
    var l' := AccountsRetain(s.records, l, r);
    HeldExtends(s, l, s'.records);
    forall k | k in l'.outstanding
      ensures HeldAt(s'.records, s'.clientRequests, l'.outstanding[k], k)
    {
      assert HeldAt(s'.records, s.clientRequests, l.outstanding[k], k);
    }
    assert HoldsOutstanding(s', l');
  }

  lemma OtherKeepsClients(s: State, s': State, r: Record)
    requires ClientInv(s)
    requires s'.records == s.records + [r] && !Issued(r) && !Retained(r)
    requires s'.clientRequests == s.clientRequests
    ensures ClientInv(s')
  {
    var l :| Accounts(s.records, l) && HoldsOutstanding(s, l);
    AccountsExtend(s.records, l, r);
    HeldExtends(s, l, s'.records);
    assert HoldsOutstanding(s', l);
  }

  lemma ApplyKeepsClients(cfg: Config, s: State, at: Acquisition, d: Decision)
    requires ClientInv(s) && Enabled(cfg, s, d) && Apply(cfg, s, at, d).Done?
    ensures ClientInv(Apply(cfg, s, at, d).state)
  {
    var out := Apply(cfg, s, at, d);
    match d
    case Issue(id, _, _, _) => IssueKeepsClients(s, out.state, out.record, id);
    case Retain(id, _, _, _, _) => RetainKeepsClients(s, out.state, out.record, id);
    case Crash(_) =>
    case _ => OtherKeepsClients(s, out.state, out.record);
  }

  // ---- Runs ----

  ghost predicate HistoryInv(s: State) {
    TroubleInv(s) && ClientInv(s)
  }

  lemma {:induction false} RunKeepsHistory(cfg: Config, ops: seq<Op>)
    ensures HistoryInv(Run(cfg, ops))
  {
    if ops == [] {
      assert Accounts(INITIAL.records, Ledger(map[], map[]));
      assert HoldsOutstanding(INITIAL, Ledger(map[], map[]));
    } else {
      var init := ops[..|ops| - 1];
      var op := ops[|ops| - 1];
      var s := Run(cfg, init);
      RunKeepsHistory(cfg, init);
      RunInvariant(cfg, init);
      var l :| Accounts(s.records, l) && HoldsOutstanding(s, l);
      if Step(cfg, s, op).Done? {
        var s1, at, d := Decompose(cfg, s, op);
        assert HoldsOutstanding(s1, l);
        ApplyKeepsTrouble(cfg, s1, at, d);
        ApplyKeepsClients(cfg, s1, at, d);
      } else {
        RaisedKeepsState(cfg, s, op);
        assert HoldsOutstanding(Step(cfg, s, op).state, l);
      }
    }
  }

  /** The records that carry a request's or a response's facts are exactly those of the two
      kinds. */
  ghost predicate KindsAreShapes(records: seq<Record>) {
    forall i | 0 <= i < |records| :: KindIsShape(records[i])
  }

  predicate KindIsShape(r: Record) {
    && (Issued(r) <==> r.body.kind.CLIENT_REQUEST_ISSUED?)
    && (Retained(r) <==> r.body.kind.CLIENT_RESPONSE_RETAINED?)
  }

  lemma ApplyShapes(cfg: Config, s: State, at: Acquisition, d: Decision)
    requires Apply(cfg, s, at, d).Done?
    ensures KindIsShape(Apply(cfg, s, at, d).record)
  {
  }

  lemma ApplyKeepsShapes(cfg: Config, s: State, at: Acquisition, d: Decision)
    requires KindsAreShapes(s.records) && Apply(cfg, s, at, d).Done?
    ensures KindsAreShapes(Apply(cfg, s, at, d).state.records)
  {
    hide Apply, KindIsShape;
    ApplyShapes(cfg, s, at, d);
    ApplyAppends(cfg, s, at, d);
  }

  lemma {:induction false} RunKeepsShapes(cfg: Config, ops: seq<Op>)
    ensures KindsAreShapes(Run(cfg, ops).records)
  {
    if ops != [] {
      var init, op := ops[..|ops| - 1], ops[|ops| - 1];
      RunKeepsShapes(cfg, init);
      if Step(cfg, Run(cfg, init), op).Done? {
        var s1, at, d := Decompose(cfg, Run(cfg, init), op);
        ApplyKeepsShapes(cfg, s1, at, d);
      } else {
        RaisedKeepsState(cfg, Run(cfg, init), op);
      }
    }
  }

  /** A one-to-one correspondence between all requests issued and all responses retained, each
      response later than its request and repeating its id, method and params digest. */
  ghost predicate Bijection(records: seq<Record>, paired: map<nat, nat>) {
    && PairsAnswer(records, paired)
    && (forall i: nat | i < |records| && Issued(records[i]) :: i in paired)
    && (forall j: nat | j < |records| && Retained(records[j]) :: j in paired.Values)
  }

  /** The cut's own facts agree with the state it closed. */
  ghost predicate CutInv(s: State) {
    s.acquisitionCut.Some? && s.acquisitionCut.value.clean ==>
      && s.clientRequests == map[]
      && s.mechanism in {M_PROVIDER_COMPLETED, M_PARKED_NOT_ADMITTED}
      && s.acquisitionCut.value.orderedHighWater == s.expectedOrdinal
      && s.acquisitionCut.value.lossGeneration == 0
      && s.acquisitionCut.value.streamQuiesced
  }

  lemma ApplyKeepsCut(cfg: Config, s: State, at: Acquisition, d: Decision)
    requires s.acquisitionCut.None? && Enabled(cfg, s, d) && Apply(cfg, s, at, d).Done?
    ensures CutInv(Apply(cfg, s, at, d).state)
  {
  }

  lemma {:induction false} RunKeepsCut(cfg: Config, ops: seq<Op>)
    ensures CutInv(Run(cfg, ops))
  {
    if ops != [] {
      var init := ops[..|ops| - 1];
      var op := ops[|ops| - 1];
      var s := Run(cfg, init);
      RunKeepsCut(cfg, init);
      if Step(cfg, s, op).Done? {
        var s1, at, d := Decompose(cfg, s, op);
        ApplyKeepsCut(cfg, s1, at, d);
      } else {
        RaisedKeepsState(cfg, s, op);
      }
    }
  }

  /** A cleanly cut run. */
  ghost predicate CleanlyCut(s: State) {
    s.acquisitionCut.Some? && s.acquisitionCut.value.clean
  }

  /** Clean means nothing went wrong: no discrepancy and no surfaced approval anywhere, and
      requests and responses correspond one to one. */
  lemma CleanMeansNothingWentWrong(cfg: Config, ops: seq<Op>)
    requires CleanlyCut(Run(cfg, ops))
    ensures var records := Run(cfg, ops).records;
      && Free(records, RecordKind.ADMISSION_DISCREPANCY)
      && Free(records, WAITING_APPROVAL_RECORD)
      && KindsAreShapes(records)
      && exists paired: map<nat, nat> :: Bijection(records, paired)
    ensures Run(cfg, ops).mechanism in {M_PROVIDER_COMPLETED, M_PARKED_NOT_ADMITTED}
  {
    var s := Run(cfg, ops);
    RunKeepsHistory(cfg, ops);
    RunKeepsCut(cfg, ops);
    RunKeepsShapes(cfg, ops);
    RunInvariant(cfg, ops);
    var l :| Accounts(s.records, l) && HoldsOutstanding(s, l);
    assert l.outstanding.Keys == {};
    forall i: nat | i < |s.records| && Issued(s.records[i])
      ensures i in l.paired
    {
      assert i in l.paired || OpenAt(l, s.records[i].body.normalized.requestId, i);
    }
    assert Bijection(s.records, l.paired);
  }
}
