/** Two runs that close cleanly: one sampling request answered, with an agent message and the end
    of the turn; and one refused for capacity, which parks the dispatch. What is proved of clean
    runs is not empty. */
module CleanRunWitness {
  import opened Wrappers
  import opened Utf8
  import opened Json
  import opened AppServerProtocol
  import opened ProviderAdmission
  import opened ProviderFacts
  import ClientFacts
  import opened AdmissionLog
  import opened CleanHistory

  const BASE: BaseFields := BaseFields("b", "w", "d", "p", "s", "t", "u", "v", "m")

  function Wire(k: byte): bytes { [k, NEWLINE] }

  function StartedParams(): Object {
    map["threadId" := Str("t"), "turnId" := Str("u"), "requestOccurrenceId" := Str("o"), "samplingOrdinal" := Int(0),
        "requestOrder" := Int(0), "provider" := Str("v"), "model" := Str("m"), "startedAtMs" := Int(0)]
  }

  function ResponseParams(): Object {
    map["threadId" := Str("t"), "turnId" := Str("u"), "requestOccurrenceId" := Str("o"), "samplingOrdinal" := Int(0),
        "requestOrder" := Int(0), "provider" := Str("v"), "model" := Str("m"), "responseId" := Str("r"),
        "observedAtMs" := Int(0)]
  }

  function CompletedParams(): Object {
    map["threadId" := Str("t"), "turnId" := Str("u"), "responseId" := Str("r"), "usage" := Null]
  }

  function ItemParams(): Object {
    map["threadId" := Str("t"), "turnId" := Str("u"),
        "item" := Obj(map["type" := Str("agentMessage"), "text" := Str("done")])]
  }

  function TurnParams(): Object {
    map["threadId" := Str("t"), "turn" := Obj(map["id" := Str("u"), "status" := Str("completed")])]
  }

  function RequestNamed(): Object {
    map["threadId" := Str("t"), "turnId" := Str("u"), "requestOccurrenceId" := Str("o"), "samplingOrdinal" := Int(0),
        "requestOrder" := Int(0), "provider" := Str("v"), "model" := Str("m")]
  }

  function CapacityRefused(): Object {
    map["responseCreated" := Json.Bool(false), "willRetry" := Json.Bool(false), "refusalKind" := Str("modelAtCapacity"),
        "codexErrorInfo" := Str("serverOverloaded"), "retryAfterMs" := Null, "diagnostic" := Str(""),
        "observedAtMs" := Int(0)]
  }

  function RefusedParams(): Object { RequestNamed() + CapacityRefused() }

  function Fields(name: string, params: Object): Object {
    map["method" := Str(name), "params" := Obj(params)]
  }

  /** What the k-th line decodes to. */
  function Line(k: byte): Object {
    if k == 0 then Fields("providerRequest/started", StartedParams())
    else if k == 1 then Fields("rawResponse/started", ResponseParams())
    else if k == 2 then Fields("rawResponse/completed", CompletedParams())
    else if k == 3 then Fields("item/completed", ItemParams())
    else if k == 4 then Fields("turn/completed", TurnParams())
    else Fields("providerAdmission/refused", RefusedParams())
  }

  function Decode(b: bytes): Parsed {
    if |b| == 2 && b[0] < 6 && b[1] == NEWLINE then Parsed(Obj(Line(b[0]))) else Refused("")
  }

  function Digest(b: bytes): string { "" }

  function RecordDigest(body: RecordBody): string { "" }

  function RecordSize(body: RecordBody): nat { 1 }

  function Canonical(v: Json): Option<bytes> { None }

  function Witness(): Config {
    Config(World(Decode, Canonical, Digest, RecordDigest, RecordSize),
           Binding(BASE, "", CAMPAIGN_CODEX_BUILD, "", ""), LegacyV1)
  }

  function Message(k: byte): ServerMessage {
    ServerMessage(Line(k), Some(Wire(k)))
  }

  /** The k-th line as the notification of this ordinal. */
  function Notified(ordinal: int, k: byte): Op {
    Envelope(AcquisitionEnvelope(ordinal, NOTIFICATION, Some(Message(k)), None, None, None))
  }

  function CutAt(highWater: int): AcquisitionCut {
    AcquisitionCut(true, 0, EXITED, highWater, Some("p"), Some("s"))
  }

  /** A request, its response, an agent message, and the end of the turn. */
  function Ops(): (ops: seq<Op>)
    ensures |ops| == 6
  {
    [Notified(0, 0), Notified(1, 1), Notified(2, 2), Notified(3, 3), Notified(4, 4), Cut(CutAt(5))]
  }

  /** A request and its refusal. */
  function ParkingOps(): (ops: seq<Op>)
    ensures |ops| == 3
  {
    [Notified(0, 0), Notified(1, 5), Cut(CutAt(2))]
  }

  // ---- One line ----

  lemma LineNames()
    ensures Names(Line(0), "providerRequest/started") && ParamsOf(Line(0)) == StartedParams()
    ensures Names(Line(1), "rawResponse/started") && ParamsOf(Line(1)) == ResponseParams()
    ensures Names(Line(2), "rawResponse/completed") && ParamsOf(Line(2)) == CompletedParams()
    ensures Names(Line(3), "item/completed") && ParamsOf(Line(3)) == ItemParams()
    ensures Names(Line(4), "turn/completed") && ParamsOf(Line(4)) == TurnParams()
    ensures Names(Line(5), "providerAdmission/refused") && ParamsOf(Line(5)) == RefusedParams()
  {
    hide StartedParams, ResponseParams, CompletedParams, ItemParams, TurnParams, RefusedParams;
    assert |"providerRequest/started"| == 23 && |"rawResponse/started"| == 19 && |"rawResponse/completed"| == 21;
    assert |"item/completed"| == 14 && |"turn/completed"| == 14 && |"providerAdmission/refused"| == 25;
  }

  /** An open mapper with this many records, all of one byte, and nothing outstanding. */
  predicate At(s: State, n: nat) {
    && s.acquisitionCut.None? && s.expectedOrdinal == n && |s.records| == n == s.retainedRecordBytes
    && s.clientRequests == map[]
  }

  lemma LineDelivered(s: State, n: nat, k: byte)
    requires At(s, n) && n <= 6 && k < 6
    ensures Delivered(Witness(), s, Wire(k), Line(k)) && Notified(n, k) == Feed(s, NOTIFICATION, Wire(k), Line(k))
    ensures SelectedEcho(Witness(), s, Message(k)) == Some(false)
  {
    hide Line;
    assert Decode(Wire(k)) == Parsed(Obj(Line(k)));
  }

  /** Every record of the witness fits. */
  lemma Fits(
    s: State, out: Outcome, at: Acquisition, after: State, kind: RecordKind, name: string, raw: Option<RawCustody>,
    n: Normalized)
    requires Keeps(Witness(), s, out, at, after, kind, name, raw, n) && |s.records| <= 6 && s.retainedRecordBytes <= 6
    ensures out.Done? && out.record.body.kind == kind && out.record.body.normalized == n
    ensures out.state == after.(records := s.records + [out.record], retainedRecordBytes := s.retainedRecordBytes + 1)
  {
  }

  // ---- The steps ----

  predicate AwaitingRequest(s: State) {
    && At(s, 0) && s.pending.None? && s.openResponseId.None? && s.identity.None? && s.lastBoundaryMs.None?
    && s.completedRequests == {} && s.disposition.UNRESOLVED? && s.mechanism.M_DISPATCHING?
  }

  predicate AwaitingResponse(s: State) {
    && At(s, 1) && s.openResponseId.None? && s.identity.None?
    && s.pending == Some(Request("o", 0, 0, "v", "m")) && s.pendingStartedAtMs == Some(0)
    && s.disposition.UNRESOLVED? && s.mechanism.M_DISPATCHING? && !Stepped(s.records, "r")
  }

  predicate AwaitingCompletion(s: State) {
    && At(s, 2) && s.pending.None? && s.openResponseId == Some("r") && s.identity.Some?
    && s.disposition.EXECUTION_ADMITTED? && s.mechanism.M_EXECUTION_ADMITTED? && Stepped(s.records, "r")
  }

  predicate BetweenRequests(s: State, n: nat) {
    && At(s, n) && s.pending.None? && s.openResponseId.None? && s.identity.Some?
    && s.disposition.EXECUTION_ADMITTED? && s.mechanism.M_RUNNING?
  }

  predicate Ended(s: State, n: nat) {
    At(s, n) && (s.mechanism.M_PROVIDER_COMPLETED? || s.mechanism.M_PARKED_NOT_ADMITTED?)
  }

  lemma OneRecord(r: Record)
    requires r.body.kind == PROVIDER_REQUEST_STARTED
    ensures !Stepped([r], "r")
  {
  }

  lemma StartedMatches(s: State)
    requires AwaitingRequest(s)
    ensures BeginsRequest(BASE, s, StartedParams())
    ensures "requestOccurrenceId" in StartedParams() && StartedParams()["requestOccurrenceId"] == Str("o")
    ensures "startedAtMs" in StartedParams() && StartedParams()["startedAtMs"] == Int(0)
  {
    assert StartedParams().Keys == {"threadId", "turnId", "requestOccurrenceId", "samplingOrdinal", "requestOrder",
                                    "provider", "model", "startedAtMs"};
  }

  lemma RequestStep(s: State)
    requires AwaitingRequest(s)
    ensures var out := Step(Witness(), s, Notified(0, 0)); out.Done? && AwaitingResponse(out.state)
  {
    hide Step, Keeps, Distrusts, Line, Stepped, StartedParams, BeginsRequest, Delivered, SelectedEcho;
    LineNames();
    LineDelivered(s, 0, 0);
    StartedMatches(s);
    RequestStartedExactly(Witness(), s, Wire(0), Line(0));
    var out := Step(Witness(), s, Notified(0, 0));
    Fits(s, out, Origin(s, NOTIFICATION),
      s.(expectedOrdinal := 1, pending := Some(Request("o", 0, 0, "v", "m")), pendingStartedAtMs := Some(0)),
      PROVIDER_REQUEST_STARTED, "providerRequest/started", Some(CustodyOf(Witness().world, Wire(0))),
      RequestStarted("o", 0, 0, 0));
    assert s.records + [out.record] == [out.record];
    OneRecord(out.record);
  }

  lemma ResponseMatches(s: State)
    requires AwaitingResponse(s)
    ensures BeginsResponse(BASE, s, ResponseParams())
    ensures "responseId" in ResponseParams() && ResponseParams()["responseId"] == Str("r")
    ensures "observedAtMs" in ResponseParams() && ResponseParams()["observedAtMs"] == Int(0)
  {
    assert ResponseParams().Keys == {"threadId", "turnId", "requestOccurrenceId", "samplingOrdinal", "requestOrder",
                                     "provider", "model", "responseId", "observedAtMs"};
  }

  lemma ResponseStep(s: State)
    requires AwaitingResponse(s)
    ensures var out := Step(Witness(), s, Notified(1, 1)); out.Done? && AwaitingCompletion(out.state)
  {
    hide Step, Keeps, Distrusts, Line, ResponseParams, BeginsResponse, Delivered, SelectedEcho;
    LineNames();
    LineDelivered(s, 1, 1);
    ResponseMatches(s);
    ResponseStartedExactly(Witness(), s, Wire(1), Line(1));
    var out, after := Step(Witness(), s, Notified(1, 1)), Responding(BASE, s, "r", 0);
    Fits(s, out, Origin(s, NOTIFICATION), after, PROVIDER_EXECUTION_STEP, "rawResponse/started",
      Some(CustodyOf(Witness().world, Wire(1))),
      ExecutionStep(after.identity.value, StepIdentity("v", "m", "t", "u", "o", 0, 0, "r"), true, 0));
    assert IsStep((s.records + [out.record])[|s.records|], "r");
  }

  lemma CompletionMatches(s: State)
    requires AwaitingCompletion(s)
    ensures EndsResponse(BASE, s, CompletedParams())
  {
    assert CompletedParams().Keys == {"threadId", "turnId", "responseId", "usage"};
  }

  lemma CompletionStep(s: State)
    requires AwaitingCompletion(s)
    ensures var out := Step(Witness(), s, Notified(2, 2)); out.Done? && BetweenRequests(out.state, 3)
  {
    hide Step, Keeps, Distrusts, Line, Stepped, CompletedParams, EndsResponse, Delivered, SelectedEcho;
    LineNames();
    LineDelivered(s, 2, 2);
    CompletionMatches(s);
    ResponseCompletedExactly(Witness(), s, Wire(2), Line(2));
    Fits(s, Step(Witness(), s, Notified(2, 2)), Origin(s, NOTIFICATION),
      s.(expectedOrdinal := 3, openResponseId := None, mechanism := M_RUNNING), PROVIDER_RESPONSE_COMPLETED,
      "rawResponse/completed", Some(CustodyOf(Witness().world, Wire(2))), ResponseCompleted("r"));
  }

  lemma ItemStep(s: State)
    requires BetweenRequests(s, 3)
    ensures var out := Step(Witness(), s, Notified(3, 3)); out.Done? && BetweenRequests(out.state, 4)
  {
    hide Step, Keeps, Distrusts, Line;
    LineNames();
    LineDelivered(s, 3, 3);
    var name := "item/completed";
    assert OtherName(name) && name != "error" && !ProviderSpace(name) by {
      assert name[0] == 'i' && "turn/completed"[0] == 't' && "turn/started"[0] == 't' && "thread/started"[0] == 't';
      assert "providerRequest/started"[0] == 'p' && "rawResponse/started"[0] == 'r' && "rawResponse/completed"[0] == 'r';
      assert "providerAdmission/refused"[0] == 'p' && "error"[0] == 'e';
      assert "providerAdmission/"[0] == 'p' && "providerRequest/"[0] == 'p' && "rawResponse/"[0] == 'r';
    }
    OtherNotificationExactly(Witness(), s, Wire(3), Line(3), name);
    Fits(s, Step(Witness(), s, Notified(3, 3)), Origin(s, NOTIFICATION), s.(expectedOrdinal := 4),
      ACQUISITION_WATERMARK, name, Some(CustodyOf(Witness().world, Wire(3))), ProvesNothing);
  }

  lemma TurnMatches()
    ensures OwnFact(BASE, "turn/completed", TurnParams())
  {
    assert "turn/completed"[1] == 'u' && "thread/started"[1] == 'h';
  }

  lemma TurnStep(s: State)
    requires BetweenRequests(s, 4)
    ensures var out := Step(Witness(), s, Notified(4, 4));
      out.Done? && Ended(out.state, 5) && out.state.mechanism.M_PROVIDER_COMPLETED?
  {
    hide Step, Keeps, Distrusts, Line, TurnParams, OwnFact, Delivered, SelectedEcho;
    LineNames();
    LineDelivered(s, 4, 4);
    TurnMatches();
    TurnFactExactly(Witness(), s, Wire(4), Line(4), "turn/completed");
    Fits(s, Step(Witness(), s, Notified(4, 4)), Origin(s, NOTIFICATION),
      s.(expectedOrdinal := 5, mechanism := M_PROVIDER_COMPLETED), LOCAL_TURN_FACT, "turn/completed",
      Some(CustodyOf(Witness().world, Wire(4))), ProvesNothing);
  }

  lemma RequestIsNamed()
    ensures OfTurn(BASE, RequestNamed()) && OfRequest(RequestNamed(), "o", 0, 0)
    ensures RequestNamed().Keys ==
      {"threadId", "turnId", "requestOccurrenceId", "samplingOrdinal", "requestOrder", "provider", "model"}
  {
  }

  lemma CapacityIsRefused()
    ensures var p := CapacityRefused();
      && p.Keys == {"responseCreated", "willRetry", "refusalKind", "codexErrorInfo", "retryAfterMs", "diagnostic",
                    "observedAtMs"}
      && p["responseCreated"] == Json.Bool(false) && p["willRetry"] == Json.Bool(false)
      && p["refusalKind"] == Str("modelAtCapacity") && p["codexErrorInfo"] == Str("serverOverloaded")
      && p["retryAfterMs"] == Null && p["diagnostic"] == Str("") && p["observedAtMs"] == Int(0)
  {
  }

  lemma Apart()
    ensures RequestNamed().Keys !! CapacityRefused().Keys
  {
    hide RequestNamed, CapacityRefused;
    RequestIsNamed();
    CapacityIsRefused();
    assert |"threadId"| == 8 && |"turnId"| == 6 && |"requestOccurrenceId"| == 19 && |"samplingOrdinal"| == 15;
    assert |"requestOrder"| == 12 && |"provider"| == 8 && |"model"| == 5;
    assert |"responseCreated"| == 15 && "responseCreated"[0] == 'r' && "samplingOrdinal"[0] == 's';
    assert |"willRetry"| == 9 && |"refusalKind"| == 11 && |"codexErrorInfo"| == 14 && |"retryAfterMs"| == 12;
    assert "requestOrder"[2] == 'q' && "retryAfterMs"[2] == 't';
    assert |"diagnostic"| == 10 && |"observedAtMs"| == 12 && "observedAtMs"[0] == 'o' && "requestOrder"[0] == 'r';
  }

  lemma RefusalMatches(s: State)
    requires AwaitingResponse(s)
    ensures RefusesForCapacity(BASE, s, RefusedParams()) && RetryAfter(RefusedParams()) == None
    ensures "diagnostic" in RefusedParams() && RefusedParams()["diagnostic"] == Str("")
    ensures "observedAtMs" in RefusedParams() && RefusedParams()["observedAtMs"] == Int(0)
  {
    hide Stepped, RequestNamed, CapacityRefused;
    RequestIsNamed();
    CapacityIsRefused();
    Apart();
    assert RequestNamed().Keys + CapacityRefused().Keys == {
      "threadId", "turnId", "requestOccurrenceId", "samplingOrdinal", "requestOrder", "provider", "model",
      "responseCreated", "willRetry", "refusalKind", "codexErrorInfo", "retryAfterMs", "diagnostic", "observedAtMs"};
    assert OfPending(BASE, s, RefusedParams());
  }

  lemma RefusalStep(s: State)
    requires AwaitingResponse(s)
    ensures var out := Step(Witness(), s, Notified(1, 5));
      out.Done? && Ended(out.state, 2) && out.state.mechanism.M_PARKED_NOT_ADMITTED?
  {
    hide Step, Keeps, Distrusts, Line, Stepped, RefusedParams, RefusesForCapacity, Delivered, SelectedEcho;
    LineNames();
    LineDelivered(s, 1, 5);
    RefusalMatches(s);
    RefusedExactly(Witness(), s, Wire(5), Line(5));
    Fits(s, Step(Witness(), s, Notified(1, 5)), Origin(s, NOTIFICATION),
      s.(expectedOrdinal := 2, pending := None, pendingStartedAtMs := None, lastBoundaryMs := Some(0),
         completedRequests := s.completedRequests + {"o"}, disposition := NOT_ADMITTED_MODEL_AT_CAPACITY,
         mechanism := M_PARKED_NOT_ADMITTED),
      PROVIDER_ADMISSION_REFUSED, "providerAdmission/refused", Some(CustodyOf(Witness().world, Wire(5))),
      AdmissionRefused("o", 0, 0, None, "", 0));
  }

  lemma CutStep(s: State, n: nat)
    requires Ended(s, n) && n <= 5
    ensures var out := Step(Witness(), s, Cut(CutAt(n)));
      out.Done? && CleanlyCut(out.state) && out.state.mechanism == s.mechanism
  {
    hide Step, Keeps;
    ClientFacts.CutExactly(Witness(), s, CutAt(n));
    var facts := CutFacts("p", "s", true, 0, EXITED, n, n, 0, true);
    assert ClientFacts.AllWell(s, CutAt(n)) && |s.clientRequests| == 0;
    Fits(s, Step(Witness(), s, Cut(CutAt(n))), UNORDERED, s.(acquisitionCut := Some(facts)), RecordKind.ACQUISITION_CUT,
      "adapter/acquisition-cut", None, CutNormalized(facts));
  }

  lemma StartsOpen()
    ensures AwaitingRequest(INITIAL)
  {
  }

  // ---- The runs ----

  /** The call at one place of the run goes through. */
  ghost predicate GoesThrough(ops: seq<Op>, i: nat)
    requires i < |ops|
  {
    Step(Witness(), Run(Witness(), ops[..i]), ops[i]).Done?
  }

  lemma OneMore(ops: seq<Op>, i: nat)
    requires i < |ops|
    ensures Run(Witness(), ops[..i + 1]) == Step(Witness(), Run(Witness(), ops[..i]), ops[i]).state
  {
    hide Step;
    assert ops[..i + 1] == ops[..i] + [ops[i]];
    RunExtends(Witness(), ops[..i], ops[i]);
  }

  /** Every call of the run goes through, and its fifth completes the turn. */
  lemma EveryCallGoesThrough()
    ensures forall i: nat | i < |Ops()| :: GoesThrough(Ops(), i)
    ensures Ended(Run(Witness(), Ops()[..5]), 5) && Run(Witness(), Ops()[..5]).mechanism.M_PROVIDER_COMPLETED?
    ensures CleanlyCut(Run(Witness(), Ops()[..6])) && Run(Witness(), Ops()[..6]).mechanism.M_PROVIDER_COMPLETED?
  {
    hide Step, AwaitingRequest, AwaitingResponse, AwaitingCompletion, BetweenRequests, Ended, Notified;
    var ops := Ops();
    StartsOpen();
    assert ops[..0] == [];
    RequestStep(INITIAL);
    OneMore(ops, 0);
    ResponseStep(Run(Witness(), ops[..1]));
    OneMore(ops, 1);
    CompletionStep(Run(Witness(), ops[..2]));
    OneMore(ops, 2);
    ItemStep(Run(Witness(), ops[..3]));
    OneMore(ops, 3);
    TurnStep(Run(Witness(), ops[..4]));
    OneMore(ops, 4);
    CutStep(Run(Witness(), ops[..5]), 5);
    OneMore(ops, 5);
    forall i: nat | i < |ops|
      ensures GoesThrough(ops, i)
    {
      assert i == 0 || i == 1 || i == 2 || i == 3 || i == 4 || i == 5;
    }
  }

  /** There is a run that closes cleanly with its provider completed. */
  lemma CleanRunExists()
    ensures CleanlyCut(Run(Witness(), Ops())) && Run(Witness(), Ops()).mechanism.M_PROVIDER_COMPLETED?
  {
    hide Step, Run;
    EveryCallGoesThrough();
    assert Ops()[..6] == Ops();
  }

  /** And one that closes cleanly with its dispatch parked. */
  lemma ParkedRunExists()
    ensures CleanlyCut(Run(Witness(), ParkingOps())) && Run(Witness(), ParkingOps()).mechanism.M_PARKED_NOT_ADMITTED?
  {
    hide Step, AwaitingRequest, AwaitingResponse, Ended, Notified;
    var ops := ParkingOps();
    StartsOpen();
    assert ops[..0] == [] && ops[..3] == ops;
    RequestStep(INITIAL);
    OneMore(ops, 0);
    RefusalStep(Run(Witness(), ops[..1]));
    OneMore(ops, 1);
    CutStep(Run(Witness(), ops[..2]), 2);
    OneMore(ops, 2);
  }
}
