/** What a direct run's record says about the response it came from: told from the fields of the
    response, for one run and over every interleaving. */
module DirectResponses {
  import opened Wrappers
  import opened Utf8
  import opened Json
  import opened DirectApi
  import opened LedgerSafety
  import opened ContactSafety

  // ---- The response, field by field ----

  /** A non-negative JSON number of this value. */
  predicate Counts(value: Json, x: real) {
    (value.Int? && value.n >= 0 && x == value.n as real) || (value.Float? && value.r >= 0.0 && x == value.r)
  }

  predicate UsageField(response: Object, name: string, x: real) {
    && "usage" in response && response["usage"].Obj?
    && name in response["usage"].fields && Counts(response["usage"].fields[name], x)
  }

  /** The response reports prompt, completion and total tokens. */
  predicate Reports(response: Object, u: Usage) {
    && UsageField(response, "prompt_tokens", u.promptTokens)
    && UsageField(response, "completion_tokens", u.completionTokens)
    && UsageField(response, "total_tokens", u.totalTokens)
  }

  /** The response is of the enrolled model and has one choice with this text. */
  predicate Answers(modelId: string, response: Object, text: string) {
    && "model" in response && response["model"] == Str(modelId)
    && "choices" in response && response["choices"].Arr?
    && var choices := response["choices"].items;
    && |choices| == 1 && choices[0].Obj?
    && "message" in choices[0].fields && choices[0].fields["message"].Obj?
    && var message := choices[0].fields["message"].fields;
    && "content" in message && message["content"] == Str(text)
  }

  /** The transport came back in time with status 200 and this object. */
  predicate Replies(decode: bytes -> Decoding, request: Request, outcome: Outcome, response: Object) {
    && outcome.Responds? && outcome.status == 200 && !outcome.cancelledAfter
    && |outcome.raw| <= request.maximumResponseBytes
    && decode(outcome.raw) == Decoded(Obj(response))
  }

  predicate WithinEnvelope(e: Enrollment, u: Usage) {
    && u.promptTokens <= e.maximumPromptTokens as real
    && u.completionTokens <= e.maximumCompletionTokens as real
    && u.totalTokens <= e.maximumTotalTokens as real
  }

  lemma OneUsage(response: Object, u: Usage, v: Usage)
    requires Reports(response, u) && Reports(response, v)
    ensures u == v
  {
  }

  // ---- One run ----

  predicate Fresh(s: Store, request: Request) {
    Claim(s, request).0.Ok? && Claim(s, request).0.value.1
  }

  lemma FreshClaims(s: Store, request: Request)
    requires Fresh(s, request)
    ensures Claim(s, request).0.value.0 == ClaimRecord(request)
  {
  }

  /** A run that is answered with a text within its bound and with token counts completes with
      exactly that text and those counts if and only if each count is within its own maximum,
      or nothing was enrolled. */
  lemma AnsweredRun(
    decode: bytes -> Decoding, s: Store, request: Request, outcome: Outcome, response: Object, text: string, u: Usage)
    requires Fresh(s, request) && Replies(decode, request, outcome, response)
    requires Answers(request.modelId, response, text) && |Encode(text)| <= request.maximumOutputBytes
    requires Reports(response, u)
    ensures RunAlone(decode, s, request, Ready, outcome).0 == Ok(
      if request.enrollment.None? || WithinEnvelope(request.enrollment.value, u)
      then Record(request.dispatch, PROVIDER_COMPLETED, RESPONSE_OBSERVED, Some(u), Some(text))
      else Record(request.dispatch, TOKEN_USAGE_OVER_BOUND, RESPONSE_OBSERVED, Some(u), None))
  {
    FreshClaims(s, request);
  }

  /** Without token counts it completes with the text alone. */
  lemma UncountedRun(
    decode: bytes -> Decoding, s: Store, request: Request, outcome: Outcome, response: Object, text: string)
    requires Fresh(s, request) && Replies(decode, request, outcome, response)
    requires Answers(request.modelId, response, text) && |Encode(text)| <= request.maximumOutputBytes
    requires forall u :: !Reports(response, u)
    ensures RunAlone(decode, s, request, Ready, outcome).0 ==
      Ok(Record(request.dispatch, PROVIDER_COMPLETED, RESPONSE_OBSERVED, None, Some(text)))
  {
    FreshClaims(s, request);
    UsageIsReported(response);
  }

  lemma UsageIsReported(response: Object)
    ensures ObservedUsage(response).Some? ==> Reports(response, ObservedUsage(response).value)
  {
  }

  /** The record of a completed run, as far as its response is concerned. */
  ghost predicate Explained(decode: bytes -> Decoding, request: Request, outcome: Outcome, record: Record) {
    exists response: Object, text: string ::
      && Replies(decode, request, outcome, response) && Answers(request.modelId, response, text)
      && |Encode(text)| <= request.maximumOutputBytes
      && record.workerOutput == Some(text) && UsageAsReported(request, response, record.usage)
  }

  ghost predicate UsageAsReported(request: Request, response: Object, usage: Option<Usage>) {
    match usage
    case None => forall u :: !Reports(response, u)
    case Some(u) => Reports(response, u) && (request.enrollment.Some? ==> WithinEnvelope(request.enrollment.value, u))
  }

  lemma SettleExplains(decode: bytes -> Decoding, request: Request, outcome: Outcome)
    ensures var record := Settle(decode, request, ArmedRecord(request), outcome);
      record.state.PROVIDER_COMPLETED? ==> Explained(decode, request, outcome, record)
  {
    var record := Settle(decode, request, ArmedRecord(request), outcome);
    if record.state.PROVIDER_COMPLETED? {
      var response := decode(outcome.raw).value.fields;
      UsageIsReported(response);
      if record.usage.None? {
        forall u
          ensures !Reports(response, u)
        {
        }
      }
      assert Replies(decode, request, outcome, response)
        && Answers(request.modelId, response, record.workerOutput.value);
    }
  }

  /** A fresh run completes only on such a response. */
  lemma CompletedRunIsExplained(
    decode: bytes -> Decoding, s: Store, request: Request, preparation: Preparation, outcome: Outcome)
    requires Fresh(s, request)
    ensures var r := RunAlone(decode, s, request, preparation, outcome).0;
      r.Ok? && (r.value.state.PROVIDER_COMPLETED? ==> preparation.Ready? && Explained(decode, request, outcome, r.value))
  {
    FreshClaims(s, request);
    SettleExplains(decode, request, outcome);
  }

  /** A refused run: what each status means. */
  lemma RefusedRun(decode: bytes -> Decoding, s: Store, request: Request, status: int, raw: bytes)
    requires Fresh(s, request) && status != 200 && |raw| <= request.maximumResponseBytes
    ensures var r := RunAlone(decode, s, request, Ready, Responds(status, raw, false)).0;
      && r.Ok? && r.value.contact == RESPONSE_OBSERVED && r.value.usage.None? && r.value.workerOutput.None?
      && (r.value.state == AUTHENTICATION_FAILED <==> status in {401, 403})
      && (r.value.state == QUOTA_EXHAUSTED <==> status == 402)
      && (r.value.state == RATE_OR_CAPACITY_REFUSED <==> status == 429)
      && (r.value.state == PROVIDER_CAPACITY_UNAVAILABLE <==> status == 503)
      && (r.value.state == PROVIDER_TIMEOUT_OUTCOME_UNKNOWN <==> status in {408, 504})
      && (r.value.state == PROVIDER_REFUSED <==> status !in {401, 402, 403, 408, 429, 503, 504})
  {
    FreshClaims(s, request);
  }

  /** The other ways a run ends without an acceptable answer. */
  lemma FruitlessRun(decode: bytes -> Decoding, s: Store, request: Request, raw: bytes, status: int)
    requires Fresh(s, request)
    ensures var armed := Record(request.dispatch, OUTCOME_UNKNOWN, CONTACT_STARTED_OUTCOME_UNKNOWN, None, None);
      && RunAlone(decode, s, request, Ready, Fails(TimedOut)).0 == Ok(armed.(state := LOCAL_TIMEOUT_OUTCOME_UNKNOWN))
      && RunAlone(decode, s, request, Ready, Fails(Cancelled)).0
           == Ok(armed.(state := CANCELLED_AFTER_CONTACT_OUTCOME_UNKNOWN))
      && RunAlone(decode, s, request, Ready, Fails(OtherException)).0 == Ok(armed.(state := TRANSPORT_OUTCOME_UNKNOWN))
      && RunAlone(decode, s, request, Ready, Fails(OverBound)).0
           == Ok(armed.(state := RESPONSE_OVER_BOUND, contact := RESPONSE_OBSERVED))
      && (|raw| > request.maximumResponseBytes ==>
            forall cancelled :: RunAlone(decode, s, request, Ready, Responds(status, raw, cancelled)).0
              == Ok(armed.(state := RESPONSE_OVER_BOUND, contact := RESPONSE_OBSERVED)))
      && (|raw| <= request.maximumResponseBytes ==>
            RunAlone(decode, s, request, Ready, Responds(status, raw, true)).0
              == Ok(armed.(state := CANCELLED_AFTER_CONTACT_OUTCOME_UNKNOWN)))
  {
    FreshClaims(s, request);
  }

  /** A reply of status 200 that is no JSON object, or whose decoding fails in an unforeseen way. */
  lemma UndecodedRun(decode: bytes -> Decoding, s: Store, request: Request, raw: bytes)
    requires Fresh(s, request) && |raw| <= request.maximumResponseBytes
    ensures var armed := Record(request.dispatch, OUTCOME_UNKNOWN, CONTACT_STARTED_OUTCOME_UNKNOWN, None, None);
      var r := RunAlone(decode, s, request, Ready, Responds(200, raw, false)).0;
      && (decode(raw).Undecodable? || (decode(raw).Decoded? && !decode(raw).value.Obj?) ==>
            r == Ok(armed.(state := MALFORMED_RESPONSE_OUTCOME_UNKNOWN, contact := RESPONSE_OBSERVED)))
      && (decode(raw).Fatal? ==> r == Ok(armed.(state := TRANSPORT_OUTCOME_UNKNOWN)))
  {
    FreshClaims(s, request);
  }

  /** A run that never gets as far as the provider. */
  lemma EarlyRun(decode: bytes -> Decoding, s: Store, request: Request, outcome: Outcome)
    requires Fresh(s, request)
    ensures var claimed := Record(request.dispatch, OUTCOME_UNKNOWN, NOT_CONTACTED, None, None);
      && RunAlone(decode, s, request, CancelledEarly, outcome).0 == Ok(claimed.(state := CANCELLED_BEFORE_CONTACT))
      && RunAlone(decode, s, request, NoCredential, outcome).0 == Ok(claimed.(state := AUTHENTICATION_UNAVAILABLE))
      && RunAlone(decode, s, request, FailsEarly(TimedOut), outcome).0
           == Ok(claimed.(state := LOCAL_TIMEOUT_OUTCOME_UNKNOWN))
      && RunAlone(decode, s, request, FailsEarly(Cancelled), outcome).0
           == Ok(claimed.(state := CANCELLED_AFTER_CONTACT_OUTCOME_UNKNOWN))
      && RunAlone(decode, s, request, FailsEarly(OtherException), outcome).0
           == Ok(claimed.(state := TRANSPORT_OUTCOME_UNKNOWN))
  {
    FreshClaims(s, request);
  }

  /** A decoded response of status 200 that is not acceptable. */
  lemma UnacceptableRun(decode: bytes -> Decoding, s: Store, request: Request, outcome: Outcome, response: Object)
    requires Fresh(s, request) && Replies(decode, request, outcome, response)
    ensures var r := RunAlone(decode, s, request, Ready, outcome).0;
      && r.Ok? && r.value.contact == RESPONSE_OBSERVED
      && r.value.state in {MODEL_IDENTITY_MISMATCH, MALFORMED_RESPONSE_OUTCOME_UNKNOWN,
                           OUTPUT_UNAVAILABLE_OR_OVER_BOUND, TOKEN_USAGE_OVER_BOUND, PROVIDER_COMPLETED}
      && (r.value.state == MODEL_IDENTITY_MISMATCH <==>
            "model" !in response || response["model"] != Str(request.modelId))
      && (r.value.state == MALFORMED_RESPONSE_OUTCOME_UNKNOWN <==>
            && "model" in response && response["model"] == Str(request.modelId)
            && !("choices" in response && response["choices"].Arr? && |response["choices"].items| == 1
                 && response["choices"].items[0].Obj?))
      && (r.value.state in {PROVIDER_COMPLETED, TOKEN_USAGE_OVER_BOUND} <==>
            exists text :: Answers(request.modelId, response, text) && |Encode(text)| <= request.maximumOutputBytes)
  {
    FreshClaims(s, request);
    var r := RunAlone(decode, s, request, Ready, outcome).0.value;
    if r.state in {PROVIDER_COMPLETED, TOKEN_USAGE_OVER_BOUND} {
      var text := OutputOf(response).value.s;
      assert Answers(request.modelId, response, text);
    }
  }

  // ---- Every interleaving ----

  /** A completed record is explained by what its dispatch's contact came to. */
  ghost predicate Founded(decode: bytes -> Decoding, s: System, request: Request, record: Record) {
    record.state.PROVIDER_COMPLETED? ==>
      request.dispatch in s.learned && Explained(decode, request, s.learned[request.dispatch], record)
  }

  ghost predicate RowFounded(decode: bytes -> Decoding, s: System, d: string)
    requires d in s.store.runs
  {
    s.store.runs[d].request.dispatch == d && Founded(decode, s, s.store.runs[d].request, s.store.runs[d].record)
  }

  ghost predicate RunFounded(decode: bytes -> Decoding, who: seq<Request>, s: System, i: nat)
    requires i < |who| == |s.phases|
  {
    Busy(s.phases[i]) ==> Founded(decode, s, who[i], s.phases[i].record)
  }

  ghost predicate AllFounded(decode: bytes -> Decoding, who: seq<Request>, s: System) {
    && |who| == |s.phases|
    && (forall d | d in s.store.runs :: RowFounded(decode, s, d))
    && (forall i: nat | i < |who| :: RunFounded(decode, who, s, i))
  }

  /** A step that learns nothing, stores at most what a run holds, and gives runs no completed
      record that they did not hold. */
  lemma QuietStep(decode: bytes -> Decoding, who: seq<Request>, s: System, s': System)
    requires AllFounded(decode, who, s) && |s'.phases| == |who| && s'.learned == s.learned
    requires forall d | d in s'.store.runs ::
      && s'.store.runs[d].request.dispatch == d
      && ((d in s.store.runs && s'.store.runs[d] == s.store.runs[d])
          || Founded(decode, s, s'.store.runs[d].request, s'.store.runs[d].record))
    requires forall i: nat | i < |who| ::
      s'.phases[i] == s.phases[i] || (Busy(s'.phases[i]) ==> Founded(decode, s, who[i], s'.phases[i].record))
    ensures AllFounded(decode, who, s')
  {
    hide Explained;
    forall d | d in s'.store.runs
      ensures RowFounded(decode, s', d)
    {
      assert d in s.store.runs ==> RowFounded(decode, s, d);
    }
    forall i: nat | i < |who|
      ensures RunFounded(decode, who, s', i)
    {
      assert RunFounded(decode, who, s, i);
    }
  }

  /** The one contact of a dispatch tells what it came to before any record claims completion. */
  lemma LearnFounds(decode: bytes -> Decoding, who: seq<Request>, s: System, i: nat, outcome: Outcome)
    requires AllFounded(decode, who, s) && Careful(who, s) && i < |who| && s.phases[i].Asked?
    ensures AllFounded(decode, who, Act(decode, who, s, Learn(i, outcome)))
  {
    hide Explained, Settle;
    var s', mine := Act(decode, who, s, Learn(i, outcome)), who[i].dispatch;
    assert Owns(who, s, i);
    SettleExplains(decode, who[i], outcome);
    SettleKeepsDispatch(decode, who[i], s.phases[i].record, outcome);
    forall d | d in s'.store.runs
      ensures RowFounded(decode, s', d)
    {
      assert RowFounded(decode, s, d);
    }
    forall j: nat | j < |who|
      ensures RunFounded(decode, who, s', j)
    {
      assert RunFounded(decode, who, s, j);
      if j != i && Busy(s.phases[j]) {
        OneOwner(who, s, i, j);
      }
    }
  }

  lemma ClaimFounds(decode: bytes -> Decoding, who: seq<Request>, s: System, i: nat)
    requires AllFounded(decode, who, s) && i < |who| && s.phases[i].Begun?
    ensures AllFounded(decode, who, Act(decode, who, s, TakeClaim(i)))
  {
    hide Explained, TotalReserved, ActiveCount;
    var s' := Act(decode, who, s, TakeClaim(i));
    forall d | d in s.store.runs
      ensures s.store.runs[d].request.dispatch == d
    {
      assert RowFounded(decode, s, d);
    }
    QuietStep(decode, who, s, s');
  }

  lemma StoreFounds(decode: bytes -> Decoding, who: seq<Request>, s: System, i: nat, record: Record, phase: Phase)
    requires AllFounded(decode, who, s) && Careful(who, s) && i < |who| && Busy(s.phases[i]) && Busy(phase)
    requires record.dispatch == who[i].dispatch && phase.record == record && Founded(decode, s, who[i], record)
    ensures AllFounded(decode, who, Become(s.(store := Update(s.store, record)), i, phase))
  {
    hide Explained;
    assert Owns(who, s, i);
    forall d | d in s.store.runs
      ensures s.store.runs[d].request.dispatch == d
    {
      assert RowFounded(decode, s, d);
    }
    QuietStep(decode, who, s, Become(s.(store := Update(s.store, record)), i, phase));
  }

  lemma ActKeepsFounded(decode: bytes -> Decoding, who: seq<Request>, s: System, a: Action)
    requires |who| == |s.phases| && AllFounded(decode, who, s) && Careful(who, s)
    ensures AllFounded(decode, who, Act(decode, who, s, a))
  {
    hide Explained, Settle, AllFounded, Careful, Claim, Update, CloseSlot;
    if a.who < |who| {
      var i: nat := a.who;
      var phase := s.phases[i];
      match a
      case TakeClaim(_) =>
        if phase.Begun? {
          ClaimFounds(decode, who, s, i);
        }
      case Learn(_, outcome) =>
        if phase.Asked? {
          LearnFounds(decode, who, s, i, outcome);
        }
      case Save(_) =>
        if phase.Finished? {
          SaveFounds(decode, who, s, i);
        }
      case Arm(_, stored) =>
        if phase.Claimed? {
          ArmFounds(decode, who, s, i, stored);
        }
      case _ => IdleFounds(decode, who, s, a);
    } else {
      assert Act(decode, who, s, a) == s;
    }
  }

  lemma SaveFounds(decode: bytes -> Decoding, who: seq<Request>, s: System, i: nat)
    requires AllFounded(decode, who, s) && Careful(who, s) && i < |who| && s.phases[i].Finished?
    ensures AllFounded(decode, who, Act(decode, who, s, Save(i)))
  {
    hide Explained, Update;
    assert Owns(who, s, i) && RunFounded(decode, who, s, i);
    StoreFounds(decode, who, s, i, s.phases[i].record, Stored(s.phases[i].record));
  }

  lemma ArmFounds(decode: bytes -> Decoding, who: seq<Request>, s: System, i: nat, stored: bool)
    requires AllFounded(decode, who, s) && Careful(who, s) && i < |who| && s.phases[i].Claimed?
    ensures AllFounded(decode, who, Act(decode, who, s, Arm(i, stored)))
  {
    hide Explained, Update;
    assert Owns(who, s, i);
    if stored {
      StoreFounds(decode, who, s, i, ArmedRecord(who[i]), Armed(ArmedRecord(who[i])));
    } else {
      SameRows(decode, who, s);
      QuietStep(decode, who, s, Act(decode, who, s, Arm(i, stored)));
    }
  }

  lemma SameRows(decode: bytes -> Decoding, who: seq<Request>, s: System)
    requires AllFounded(decode, who, s)
    ensures forall d | d in s.store.runs :: s.store.runs[d].request.dispatch == d
  {
    forall d | d in s.store.runs
      ensures s.store.runs[d].request.dispatch == d
    {
      assert RowFounded(decode, s, d);
    }
  }

  /** Giving up, contacting, releasing and crashing move a run on with nothing completed in hand. */
  lemma IdleFounds(decode: bytes -> Decoding, who: seq<Request>, s: System, a: Action)
    requires AllFounded(decode, who, s) && Careful(who, s) && a.who < |who|
    requires a.GiveUp? || a.Contact? || a.Release? || a.Crash?
    ensures AllFounded(decode, who, Act(decode, who, s, a))
  {
    hide Explained, Deactivated;
    assert Owns(who, s, a.who) && RunFounded(decode, who, s, a.who);
    SameRows(decode, who, s);
    QuietStep(decode, who, s, Act(decode, who, s, a));
  }

  /** Over every interleaving and crash: whatever is stored as completed was answered just so. */
  lemma {:induction false} RunsAreFounded(decode: bytes -> Decoding, who: seq<Request>, actions: seq<Action>)
    requires AllValid(who)
    ensures AllFounded(decode, who, Execute(decode, who, actions))
  {
    if actions != [] {
      var init := actions[..|actions| - 1];
      RunsAreFounded(decode, who, init);
      RunsAreCareful(decode, who, init);
      ActKeepsFounded(decode, who, Execute(decode, who, init), actions[|actions| - 1]);
    }
  }

  // ---- Money, told from the responses ----

  /** A token count of the response. */
  function Tokens(response: Object, name: string): Option<real> {
    if "usage" in response && response["usage"].Obj? && name in response["usage"].fields then
      match response["usage"].fields[name]
      case Int(n) => if n >= 0 then Some(n as real) else None
      case Float(r) => if r >= 0.0 then Some(r) else None
      case _ => None
    else None
  }

  /** What a response costs at fixed prices, if it reports all its counts. */
  function Price(config: LedgerConfig, response: Object): real {
    var prompt, completion, total :=
      Tokens(response, "prompt_tokens"), Tokens(response, "completion_tokens"), Tokens(response, "total_tokens");
    if prompt.Some? && completion.Some? && total.Some? then
      prompt.value * config.promptTokenPriceMicros as real + completion.value * config.completionTokenPriceMicros as real
    else 0.0
  }

  function OutcomePrice(decode: bytes -> Decoding, config: LedgerConfig, outcome: Outcome): real {
    match outcome
    case Responds(_, raw, _) =>
      (match decode(raw)
       case Decoded(Obj(response)) => Price(config, response)
       case _ => 0.0)
    case Fails(_) => 0.0
  }

  /** What the completed runs among these reservations were answered with costs together. */
  function ResponsesCost(decode: bytes -> Decoding, s: System, rows: seq<Reservation>, scope: string): real {
    if rows == [] then 0.0
    else
      var last := rows[|rows| - 1];
      ResponsesCost(decode, s, rows[..|rows| - 1], scope) +
      if && last.scope == scope && scope in s.store.configs && last.dispatch in s.learned
         && last.dispatch in s.store.runs && s.store.runs[last.dispatch].record.state.PROVIDER_COMPLETED?
      then OutcomePrice(decode, s.store.configs[scope], s.learned[last.dispatch]) else 0.0
  }

  lemma TokensAreReported(response: Object, u: Usage)
    ensures Reports(response, u) <==>
      && Tokens(response, "prompt_tokens") == Some(u.promptTokens)
      && Tokens(response, "completion_tokens") == Some(u.completionTokens)
      && Tokens(response, "total_tokens") == Some(u.totalTokens)
  {
  }

  lemma ExplainedCost(decode: bytes -> Decoding, config: LedgerConfig, request: Request, outcome: Outcome, record: Record)
    requires record.state.PROVIDER_COMPLETED? && Explained(decode, request, outcome, record)
    ensures Cost(config, record) == OutcomePrice(decode, config, outcome)
  {
    hide Reports, Answers;
    var response, text :|
      && Replies(decode, request, outcome, response) && Answers(request.modelId, response, text)
      && |Encode(text)| <= request.maximumOutputBytes
      && record.workerOutput == Some(text) && UsageAsReported(request, response, record.usage);
    var prompt, completion, total :=
      Tokens(response, "prompt_tokens"), Tokens(response, "completion_tokens"), Tokens(response, "total_tokens");
    if record.usage.Some? {
      TokensAreReported(response, record.usage.value);
    } else if prompt.Some? && completion.Some? && total.Some? {
      TokensAreReported(response, Usage(prompt.value, completion.value, total.value));
      assert false;
    }
  }

  lemma {:induction false} ResponsesAreSpent(
    decode: bytes -> Decoding, who: seq<Request>, s: System, rows: seq<Reservation>, scope: string)
    requires AllFounded(decode, who, s)
    ensures ResponsesCost(decode, s, rows, scope) == Spent(s.store, rows, scope)
  {
    hide Explained, OutcomePrice, Cost;
    if rows != [] {
      var last := rows[|rows| - 1];
      ResponsesAreSpent(decode, who, s, rows[..|rows| - 1], scope);
      if last.scope == scope && scope in s.store.configs && last.dispatch in s.store.runs {
        var row := s.store.runs[last.dispatch];
        assert RowFounded(decode, s, last.dispatch);
        if row.record.state.PROVIDER_COMPLETED? {
          ExplainedCost(decode, s.store.configs[scope], row.request, s.learned[last.dispatch], row.record);
        } else {
          UnfinishedCostsNothing(s.store.configs[scope], row.record);
        }
      }
    }
  }

  lemma UnfinishedCostsNothing(config: LedgerConfig, record: Record)
    requires !record.state.PROVIDER_COMPLETED?
    ensures Cost(config, record) == 0.0
  {
  }

  /** Over every interleaving and crash: the token counts in the responses that completed the runs
      of a scope, at the enrolled prices, never sum to more than its budget. */
  lemma ResponsesStayWithinBudget(decode: bytes -> Decoding, who: seq<Request>, actions: seq<Action>, scope: string)
    requires AllValid(who)
    requires scope in Execute(decode, who, actions).store.configs
    ensures var s := Execute(decode, who, actions);
      ResponsesCost(decode, s, s.store.reservations, scope) <= s.store.configs[scope].spendBudgetMicros as real
  {
    hide Execute, ResponsesCost, Spent;
    var s := Execute(decode, who, actions);
    RunsAreFounded(decode, who, actions);
    ResponsesAreSpent(decode, who, s, s.store.reservations, scope);
    SpendStaysWithinBudget(decode, who, actions, scope);
  }
}
