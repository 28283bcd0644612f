/** The language of provider-boundary records: every reachable log projects to a prefix of
    (R S C)* or to R F, with dense ordinals, distinct identities and ordered times. */
module BoundaryLanguage {
  import opened Wrappers
  import opened Json
  import opened ProviderAdmission
  import opened AdmissionGuards
  import opened AdmissionLog

  /** Request started, execution step, admission refused, response completed. */
  datatype Letter =
    | R(occurrence: string, ordinal: int, order: int, at: int)
    | S(occurrence: string, ordinal: int, order: int, at: int, responseId: string)
    | F(occurrence: string, ordinal: int, order: int, at: int)
    | C(responseId: string)

  function LetterOf(r: Record): Option<Letter> {
    match r.body.normalized
    case RequestStarted(occurrence, ordinal, order, at) => Some(R(occurrence, ordinal, order, at))
    case ExecutionStep(_, step, _, at) =>
      Some(S(step.requestOccurrenceId, step.samplingOrdinal, step.requestOrder, at, step.responseId))
    case AdmissionRefused(occurrence, ordinal, order, _, _, at) => Some(F(occurrence, ordinal, order, at))
    case ResponseCompleted(responseId) => Some(C(responseId))
    case _ => None
  }

  /** The projection of a log to its boundary letters. */
  function Word(records: seq<Record>): seq<Letter> {
    if records == [] then []
    else
      var last := LetterOf(records[|records| - 1]);
      Word(records[..|records| - 1]) + (if last.Some? then [last.value] else [])
  }

  lemma WordExtends(records: seq<Record>, r: Record)
    ensures Word(records + [r]) == Word(records) + (if LetterOf(r).Some? then [LetterOf(r).value] else [])
  {
    assert (records + [r])[..|records|] == records;
  }

  /** Record kinds and their normalized facts agree, so a letter is a fact about the kind. */
  predicate KindAgrees(r: Record) {
    && (r.body.kind.PROVIDER_REQUEST_STARTED? <==> r.body.normalized.RequestStarted?)
    && (r.body.kind.PROVIDER_EXECUTION_STEP? <==> r.body.normalized.ExecutionStep?)
    && (r.body.kind.PROVIDER_ADMISSION_REFUSED? <==> r.body.normalized.AdmissionRefused?)
    && (r.body.kind.PROVIDER_RESPONSE_COMPLETED? <==> r.body.normalized.ResponseCompleted?)
  }

  /** Letter i is the one (R S C)* has there, with ordinal i / 3 and the identities of its turn. */
  predicate Fits(w: seq<Letter>, i: nat)
    requires i < |w|
  {
    if i % 3 == 0 then w[i].R? && w[i].ordinal == w[i].order == i / 3
    else if i % 3 == 1 then
      && w[i].S? && w[i - 1].R?
      && w[i].occurrence == w[i - 1].occurrence
      && w[i].ordinal == w[i - 1].ordinal && w[i].order == w[i - 1].order
    else w[i].C? && w[i - 1].S? && w[i].responseId == w[i - 1].responseId
  }

  ghost predicate Cyclic(w: seq<Letter>) {
    forall i | 0 <= i < |w| :: Fits(w, i)
  }

  predicate Refusal(w: seq<Letter>) {
    && |w| == 2 && w[0].R? && w[1].F?
    && w[0].ordinal == w[0].order == w[1].ordinal == w[1].order == 0
    && w[0].occurrence == w[1].occurrence
  }

  /** No request is started twice. */
  ghost predicate DistinctRequests(w: seq<Letter>) {
    forall i, j | 0 <= i < j < |w| && w[i].R? && w[j].R? :: w[i].occurrence != w[j].occurrence
  }

  /** No response is created twice. */
  ghost predicate DistinctResponses(w: seq<Letter>) {
    forall i, j | 0 <= i < j < |w| && w[i].S? && w[j].S? :: w[i].responseId != w[j].responseId
  }

  /** Boundary times never decrease. */
  ghost predicate OrderedTimes(w: seq<Letter>) {
    forall i, j | 0 <= i < j < |w| && !w[i].C? && !w[j].C? :: w[i].at <= w[j].at
  }

  ghost predicate Distinct(w: seq<Letter>) {
    DistinctRequests(w) && DistinctResponses(w) && OrderedTimes(w)
  }

  ghost predicate Language(w: seq<Letter>) {
    (Cyclic(w) || Refusal(w)) && Distinct(w)
  }

  /** The occurrences of the answered requests: those of the S and F letters. */
  function Answered(w: seq<Letter>): set<string> {
    set i | 0 <= i < |w| && (w[i].S? || w[i].F?) :: w[i].occurrence
  }

  /** How the request fields mirror the word. */
  ghost predicate Mirrors(s: State, w: seq<Letter>) {
    && Phase(s, w)
    && s.completedRequests == Answered(w)
    && |s.completedRequests| == (|w| + 1) / 3
    && (forall i | 0 <= i < |w| && (w[i].S? || w[i].F?) :: s.lastBoundaryMs.Some? && w[i].at <= s.lastBoundaryMs.value)
  }

  /** The open request or response is the one the word has not closed yet. */
  predicate Phase(s: State, w: seq<Letter>) {
    if Refusal(w) then s.pending.None? && s.openResponseId.None? && s.identity.None?
    else
      && (s.identity.Some? <==> |w| >= 2)
      && (if |w| % 3 == 1 then Pending(s, w[|w| - 1]) && s.openResponseId.None?
          else if |w| % 3 == 2 then s.pending.None? && w[|w| - 1].S? && s.openResponseId == Some(w[|w| - 1].responseId)
          else s.pending.None? && s.openResponseId.None?)
  }

  predicate Pending(s: State, l: Letter) {
    && l.R? && s.pending.Some? && s.pendingStartedAtMs == Some(l.at)
    && s.pending.value.occurrenceId == l.occurrence && s.pending.value.ordinal == l.ordinal
    && s.pending.value.order == l.order
    && l.occurrence !in s.completedRequests
  }

  /** How the admission state follows the word. */
  predicate Follows(s: State, w: seq<Letter>) {
    && (s.disposition.NOT_ADMITTED_MODEL_AT_CAPACITY? ==> Refusal(w))
    && (Refusal(w) ==> s.disposition in {NOT_ADMITTED_MODEL_AT_CAPACITY, ADMISSION_INDETERMINATE})
    && (s.mechanism.M_PROVIDER_COMPLETED? ==> !Refusal(w) && |w| % 3 == 0 && |w| >= 3)
  }

  ghost predicate BoundaryInv(s: State) {
    && Language(Word(s.records))
    && Mirrors(s, Word(s.records))
    && Follows(s, Word(s.records))
    && (forall i | 0 <= i < |s.records| :: KindAgrees(s.records[i]))
  }

  /** Every S letter of the word is a step record of the log. */
  lemma {:induction false} StepsAreRecorded(records: seq<Record>, i: nat)
    requires i < |Word(records)| && Word(records)[i].S?
    requires forall k | 0 <= k < |records| :: KindAgrees(records[k])
    ensures ResponseKnown(records, Str(Word(records)[i].responseId))
  {
    var n := |records| - 1;
    var init := records[..n];
    if i < |Word(init)| {
      StepsAreRecorded(init, i);
      var k :| 0 <= k < |init| && StepsResponse(init[k], Str(Word(init)[i].responseId));
      assert StepsResponse(records[k], Str(Word(records)[i].responseId));
    } else {
      assert StepsResponse(records[n], Str(Word(records)[i].responseId));
    }
  }

  lemma CyclicExtends(w: seq<Letter>, l: Letter)
    requires Cyclic(w) && Fits(w + [l], |w|)
    ensures Cyclic(w + [l])
  {
    forall i | 0 <= i < |w + [l]|
      ensures Fits(w + [l], i)
    {
      if i < |w| {
        assert Fits(w, i);
      }
    }
  }

  lemma DistinctExtends(w: seq<Letter>, l: Letter)
    requires Distinct(w)
    requires forall i | 0 <= i < |w| && w[i].R? && l.R? :: w[i].occurrence != l.occurrence
    requires forall i | 0 <= i < |w| && w[i].S? && l.S? :: w[i].responseId != l.responseId
    requires forall i | 0 <= i < |w| && !w[i].C? && !l.C? :: w[i].at <= l.at
    ensures Distinct(w + [l])
  {
    assert DistinctRequests(w + [l]);
    assert DistinctResponses(w + [l]);
    assert OrderedTimes(w + [l]);
  }

  /** With no request pending, every started request is answered, and before the last boundary. */
  lemma Settled(s: State, w: seq<Letter>, i: nat)
    requires Language(w) && Mirrors(s, w) && s.pending.None? && !Refusal(w)
    requires i < |w| && !w[i].C?
    ensures w[i].occurrence in s.completedRequests
    ensures s.lastBoundaryMs.Some? && w[i].at <= s.lastBoundaryMs.value
  {
    assert Fits(w, i);
    if w[i].R? {
      assert Fits(w, |w| - 1);
      assert i + 1 < |w|;
      assert Fits(w, i + 1);
      assert w[i + 1].occurrence in Answered(w);
    } else {
      assert w[i].occurrence in Answered(w);
    }
  }

  lemma AppendRequest(s: State, w: seq<Letter>, request: Request, at: int)
    requires Language(w) && Mirrors(s, w)
    requires s.pending.None? && s.openResponseId.None? && !Refusal(w)
    requires request.ordinal == request.order == |s.completedRequests|
    requires request.occurrenceId !in s.completedRequests
    requires s.lastBoundaryMs.Some? ==> s.lastBoundaryMs.value <= at
    ensures var w' := w + [R(request.occurrenceId, request.ordinal, request.order, at)];
      Cyclic(w') && Distinct(w') && |w'| % 3 == 1 && Answered(w') == Answered(w)
  {
    var l := R(request.occurrenceId, request.ordinal, request.order, at);
    CyclicExtends(w, l);
    AnsweredExtends(w, l);
    forall i | 0 <= i < |w| && !w[i].C?
      ensures w[i].occurrence != l.occurrence && w[i].at <= at
    {
      Settled(s, w, i);
    }
    DistinctExtends(w, l);
  }

  lemma AnsweredExtends(w: seq<Letter>, l: Letter)
    ensures Answered(w + [l]) == Answered(w) + (if l.S? || l.F? then {l.occurrence} else {})
  {
    var w' := w + [l];
    forall o | o in Answered(w)
      ensures o in Answered(w')
    {
      var i :| 0 <= i < |w| && (w[i].S? || w[i].F?) && w[i].occurrence == o;
      assert w'[i].occurrence == o;
    }
    if l.S? || l.F? {
      assert w'[|w|].occurrence in Answered(w');
    }
  }

  lemma AppendResponse(s: State, w: seq<Letter>, request: Request, responseId: string, at: int)
    requires Language(w) && Mirrors(s, w)
    requires s.pending == Some(request) && !PrecedesPending(s, at)
    requires forall i | 0 <= i < |w| && w[i].S? :: w[i].responseId != responseId
    ensures var w' := w + [S(request.occurrenceId, request.ordinal, request.order, at, responseId)];
      Cyclic(w') && Distinct(w') && |w'| % 3 == 2 && Answered(w') == Answered(w) + {request.occurrenceId}
  {
    var l := S(request.occurrenceId, request.ordinal, request.order, at, responseId);
    PendingIsLast(s, w);
    assert (w + [l])[|w| - 1] == w[|w| - 1];
    CyclicExtends(w, l);
    AnsweredExtends(w, l);
    DistinctExtends(w, l);
  }

  /** While a request is pending the word ends in its R, at or after every earlier time. */
  lemma PendingIsLast(s: State, w: seq<Letter>)
    requires Language(w) && Mirrors(s, w) && s.pending.Some?
    ensures Cyclic(w) && |w| % 3 == 1 && w[|w| - 1].R? && s.pendingStartedAtMs == Some(w[|w| - 1].at)
    ensures forall i | 0 <= i < |w| && !w[i].C? :: w[i].at <= w[|w| - 1].at
  {
  }

  lemma AppendRefusal(s: State, w: seq<Letter>, request: Request, at: int)
    requires Language(w) && Mirrors(s, w)
    requires s.pending == Some(request) && !PrecedesPending(s, at) && s.identity.None?
    ensures var w' := w + [F(request.occurrenceId, request.ordinal, request.order, at)];
      Refusal(w') && !Cyclic(w') && Distinct(w') && Answered(w') == Answered(w) + {request.occurrenceId}
  {
    var l := F(request.occurrenceId, request.ordinal, request.order, at);
    PendingIsLast(s, w);
    assert Fits(w, 0);
    assert !Fits(w + [l], 1);
    AnsweredExtends(w, l);
    DistinctExtends(w, l);
  }

  lemma AppendCompletion(s: State, w: seq<Letter>, responseId: string)
    requires Language(w) && Mirrors(s, w)
    requires s.openResponseId == Some(responseId)
    ensures var w' := w + [C(responseId)];
      Cyclic(w') && Distinct(w') && |w'| % 3 == 0 && Answered(w') == Answered(w)
  {
    CyclicExtends(w, C(responseId));
    AnsweredExtends(w, C(responseId));
    DistinctExtends(w, C(responseId));
  }

  /** A record without a letter leaves the word alone. */
  lemma SilentKeepsBoundary(s: State, s': State, r: Record)
    requires BoundaryInv(s)
    requires s'.records == s.records + [r] && LetterOf(r).None? && KindAgrees(r)
    requires s' == s.(
      records := s'.records, retainedRecordBytes := s'.retainedRecordBytes, clientRequests := s'.clientRequests,
      acquisitionCut := s'.acquisitionCut, disposition := s'.disposition, mechanism := s'.mechanism)
    requires s'.disposition == s.disposition || (s'.disposition.ADMISSION_INDETERMINATE? && s.identity.None?)
    requires s'.mechanism.M_PROVIDER_COMPLETED? ==>
      s.mechanism.M_PROVIDER_COMPLETED? || (s.identity.Some? && s.pending.None? && s.openResponseId.None?)
    ensures BoundaryInv(s')
  {
    WordExtends(s.records, r);
    assert Word(s'.records) == Word(s.records);
    assert Phase(s', Word(s.records));
  }

  /** A record with a letter extends the word by it. */
  lemma LetterKeepsBoundary(s: State, s': State, r: Record, l: Letter)
    requires BoundaryInv(s)
    requires s'.records == s.records + [r] && LetterOf(r) == Some(l) && KindAgrees(r)
    requires var w' := Word(s.records) + [l]; Language(w') && Mirrors(s', w') && Follows(s', w')
    ensures BoundaryInv(s')
  {
    WordExtends(s.records, r);
  }

  lemma RequestKeepsBoundary(cfg: Config, s: State, at: Acquisition, d: Decision)
    requires BoundaryInv(s) && Coupled(s) && Enabled(cfg, s, d) && d.BeginRequest? && Apply(cfg, s, at, d).Done?
    ensures BoundaryInv(Apply(cfg, s, at, d).state)
  {
    var out := Apply(cfg, s, at, d);
    var w := Word(s.records);
    var l := R(d.beginRequest.occurrenceId, d.beginRequest.ordinal, d.beginRequest.order, d.startedAtMs);
    AppendRequest(s, w, d.beginRequest, d.startedAtMs);
    assert Phase(out.state, w + [l]);
    LetterKeepsBoundary(s, out.state, out.record, l);
  }

  lemma FreshResponse(s: State, responseId: string)
    requires BoundaryInv(s) && !ResponseKnown(s.records, Str(responseId))
    ensures forall i | 0 <= i < |Word(s.records)| && Word(s.records)[i].S? :: Word(s.records)[i].responseId != responseId
  {
    forall i | 0 <= i < |Word(s.records)| && Word(s.records)[i].S?
      ensures Word(s.records)[i].responseId != responseId
    {
      StepsAreRecorded(s.records, i);
    }
  }

  /** The fields after `Respond` mirror the word with its S letter. */
  lemma RespondMirrors(cfg: Config, s: State, w: seq<Letter>, request: Request, responseId: string, at: int)
    requires Language(w) && Mirrors(s, w)
    requires s.pending == Some(request) && !PrecedesPending(s, at)
    requires var w' := w + [S(request.occurrenceId, request.ordinal, request.order, at, responseId)];
      Answered(w') == Answered(w) + {request.occurrenceId}
    ensures Mirrors(Respond(cfg, s, request, responseId, at),
      w + [S(request.occurrenceId, request.ordinal, request.order, at, responseId)])
  {
    PendingIsLast(s, w);
  }

  lemma ResponseKeepsBoundary(cfg: Config, s: State, at: Acquisition, d: Decision)
    requires BoundaryInv(s) && Coupled(s) && Enabled(cfg, s, d) && d.BeginResponse? && Apply(cfg, s, at, d).Done?
    ensures BoundaryInv(Apply(cfg, s, at, d).state)
  {
    var out := Apply(cfg, s, at, d);
    var w := Word(s.records);
    var l := S(d.responseRequest.occurrenceId, d.responseRequest.ordinal, d.responseRequest.order,
      d.responseAtMs, d.newResponseId);
    FreshResponse(s, d.newResponseId);
    AppendResponse(s, w, d.responseRequest, d.newResponseId, d.responseAtMs);
    RespondMirrors(cfg, s, w, d.responseRequest, d.newResponseId, d.responseAtMs);
    assert Mirrors(out.state, w + [l]);
    LetterKeepsBoundary(s, out.state, out.record, l);
  }

  lemma ParkKeepsBoundary(cfg: Config, s: State, at: Acquisition, d: Decision)
    requires BoundaryInv(s) && Coupled(s) && Enabled(cfg, s, d) && d.Park? && Apply(cfg, s, at, d).Done?
    ensures BoundaryInv(Apply(cfg, s, at, d).state)
  {
    var out := Apply(cfg, s, at, d);
    var w := Word(s.records);
    var l := F(d.parkRequest.occurrenceId, d.parkRequest.ordinal, d.parkRequest.order, d.parkAtMs);
    PendingIsLast(s, w);
    AppendRefusal(s, w, d.parkRequest, d.parkAtMs);
    LetterKeepsBoundary(s, out.state, out.record, l);
  }

  lemma FinishKeepsBoundary(cfg: Config, s: State, at: Acquisition, d: Decision)
    requires BoundaryInv(s) && Coupled(s) && Enabled(cfg, s, d) && d.FinishResponse? && Apply(cfg, s, at, d).Done?
    ensures BoundaryInv(Apply(cfg, s, at, d).state)
  {
    var out := Apply(cfg, s, at, d);
    var w := Word(s.records);
    AppendCompletion(s, w, d.finishedResponseId);
    LetterKeepsBoundary(s, out.state, out.record, C(d.finishedResponseId));
  }

  lemma SilentApplyKeepsBoundary(cfg: Config, s: State, at: Acquisition, d: Decision)
    requires BoundaryInv(s) && Coupled(s) && Enabled(cfg, s, d) && Apply(cfg, s, at, d).Done?
    requires !d.BeginRequest? && !d.BeginResponse? && !d.Park? && !d.FinishResponse?
    ensures BoundaryInv(Apply(cfg, s, at, d).state)
  {
    var out := Apply(cfg, s, at, d);
    SilentKeepsBoundary(s, out.state, out.record);
  }

  lemma ApplyKeepsBoundary(cfg: Config, s: State, at: Acquisition, d: Decision)
    requires BoundaryInv(s) && Coupled(s) && Enabled(cfg, s, d) && Apply(cfg, s, at, d).Done?
    ensures BoundaryInv(Apply(cfg, s, at, d).state)
  {
    match d
    case BeginRequest(_, _, _) => RequestKeepsBoundary(cfg, s, at, d);
    case BeginResponse(_, _, _, _) => ResponseKeepsBoundary(cfg, s, at, d);
    case Park(_, _, _, _, _) => ParkKeepsBoundary(cfg, s, at, d);
    case FinishResponse(_, _) => FinishKeepsBoundary(cfg, s, at, d);
    case _ => SilentApplyKeepsBoundary(cfg, s, at, d);
  }

  lemma BoundaryIgnoresBookkeeping(s: State, s1: State)
    requires BoundaryInv(s) && Prepared(s, s1)
    ensures BoundaryInv(s1)
  {
  }

  /** Every reachable mapper's log is in the boundary language, and its fields mirror it. */
  lemma {:induction false} RunSpeaksLanguage(cfg: Config, ops: seq<Op>)
    ensures BoundaryInv(Run(cfg, ops))
  {
    if ops == [] {
      assert Word([]) == [];
    } else {
      var init := ops[..|ops| - 1];
      var op := ops[|ops| - 1];
      var s := Run(cfg, init);
      RunSpeaksLanguage(cfg, init);
      RunInvariant(cfg, init);
      if Step(cfg, s, op).Done? {
        var s1, at, d := Decompose(cfg, s, op);
        BoundaryIgnoresBookkeeping(s, s1);
        ApplyKeepsBoundary(cfg, s1, at, d);
      } else {
        RaisedKeepsState(cfg, s, op);
        BoundaryIgnoresBookkeeping(s, Step(cfg, s, op).state);
      }
    }
  }

  /** A completed provider turn is one or more whole request-response-completion cycles. */
  lemma CompletionIsWhole(cfg: Config, ops: seq<Op>)
    requires Run(cfg, ops).mechanism.M_PROVIDER_COMPLETED?
    ensures var w := Word(Run(cfg, ops).records);
      Cyclic(w) && Distinct(w) && |w| >= 3 && |w| % 3 == 0
  {
    RunSpeaksLanguage(cfg, ops);
  }

  /** A parked dispatch made exactly one request, and it was refused. */
  lemma ParkingIsOneRefusal(cfg: Config, ops: seq<Op>)
    requires Run(cfg, ops).mechanism.M_PARKED_NOT_ADMITTED?
    ensures Refusal(Word(Run(cfg, ops).records))
  {
    RunSpeaksLanguage(cfg, ops);
    RunInvariant(cfg, ops);
  }
}
