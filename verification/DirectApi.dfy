/** The direct API run: the reservation ledger, the claim that precedes contact, and what a
    transport's behaviour makes of the run's record. */
module DirectApi {
  import opened Wrappers
  import opened Utf8
  import opened Json

  const MAXIMUM_TOKENS: int := 2_000_000
  const MAXIMUM_MICROS: int := 1_000_000_000_000
  const PROMPT_OVERHEAD: int := 512

  // ---- Requests ----

  /** The configuration a budget scope is pinned to. */
  datatype LedgerConfig = LedgerConfig(
    maximumConcurrentRequests: int, spendBudgetMicros: int, promptTokenPriceMicros: int, completionTokenPriceMicros: int)

  /** What the enrolled request schemas add. `scope` stands for the digest of owner, account
      and budget. */
  datatype Enrollment = Enrollment(
    scope: string, config: LedgerConfig, reservedSpendMicros: int,
    maximumPromptTokens: int, maximumCompletionTokens: int, maximumTotalTokens: int)

  /** One owner-bound request with its exact input bytes. */
  datatype Request = Request(
    dispatch: string, modelId: string, admittedInput: bytes, ownerBinding: Json,
    maximumInputBytes: int, maximumResponseBytes: int, maximumOutputBytes: int, enrollment: Option<Enrollment>)

  predicate WithinMicros(value: int) { 1 <= value <= MAXIMUM_MICROS }

  predicate WithinTokens(value: int) { 1 <= value <= MAXIMUM_TOKENS }

  /** The token and spend arithmetic of `validate`. */
  predicate ValidEnrollment(request: Request, e: Enrollment) {
    && WithinTokens(e.maximumPromptTokens) && WithinTokens(e.maximumCompletionTokens) && WithinTokens(e.maximumTotalTokens)
    && e.maximumPromptTokens + e.maximumCompletionTokens <= e.maximumTotalTokens
    && request.maximumInputBytes + PROMPT_OVERHEAD <= e.maximumPromptTokens
    && 1 <= e.config.maximumConcurrentRequests <= 64
    && WithinMicros(e.config.spendBudgetMicros) && WithinMicros(e.reservedSpendMicros)
    && WithinMicros(e.config.promptTokenPriceMicros) && WithinMicros(e.config.completionTokenPriceMicros)
    && e.reservedSpendMicros <= e.config.spendBudgetMicros
    && e.reservedSpendMicros ==
       e.maximumPromptTokens * e.config.promptTokenPriceMicros
       + e.maximumCompletionTokens * e.config.completionTokenPriceMicros
  }

  predicate ValidRequest(request: Request) {
    && |request.admittedInput| <= request.maximumInputBytes
    && (request.enrollment.Some? ==> ValidEnrollment(request, request.enrollment.value))
  }

  // ---- Records ----

  datatype ContactState = NOT_CONTACTED | CONTACT_STARTED_OUTCOME_UNKNOWN | RESPONSE_OBSERVED

  datatype RunState =
    | OUTCOME_UNKNOWN
    | CANCELLED_BEFORE_CONTACT
    | AUTHENTICATION_UNAVAILABLE
    | RESPONSE_OVER_BOUND
    | CANCELLED_AFTER_CONTACT_OUTCOME_UNKNOWN
    | AUTHENTICATION_FAILED
    | QUOTA_EXHAUSTED
    | RATE_OR_CAPACITY_REFUSED
    | PROVIDER_CAPACITY_UNAVAILABLE
    | PROVIDER_TIMEOUT_OUTCOME_UNKNOWN
    | PROVIDER_REFUSED
    | MALFORMED_RESPONSE_OUTCOME_UNKNOWN
    | MODEL_IDENTITY_MISMATCH
    | OUTPUT_UNAVAILABLE_OR_OVER_BOUND
    | TOKEN_USAGE_OVER_BOUND
    | PROVIDER_COMPLETED
    | LOCAL_TIMEOUT_OUTCOME_UNKNOWN
    | TRANSPORT_OUTCOME_UNKNOWN

  /** `state.endswith("OUTCOME_UNKNOWN")`. */
  predicate EndsInOutcomeUnknown(state: RunState) {
    || state.OUTCOME_UNKNOWN? || state.CANCELLED_AFTER_CONTACT_OUTCOME_UNKNOWN?
    || state.PROVIDER_TIMEOUT_OUTCOME_UNKNOWN? || state.MALFORMED_RESPONSE_OUTCOME_UNKNOWN?
    || state.LOCAL_TIMEOUT_OUTCOME_UNKNOWN? || state.TRANSPORT_OUTCOME_UNKNOWN?
  }

  datatype Usage = Usage(promptTokens: real, completionTokens: real, totalTokens: real)

  datatype Record = Record(
    dispatch: string, state: RunState, contact: ContactState, usage: Option<Usage>, workerOutput: Option<string>)

  function ClaimRecord(request: Request): Record {
    Record(request.dispatch, OUTCOME_UNKNOWN, NOT_CONTACTED, None, None)
  }

  /** Whether the finished record gives its concurrency slot back. */
  predicate Conclusive(record: Record) {
    !record.contact.CONTACT_STARTED_OUTCOME_UNKNOWN? && !EndsInOutcomeUnknown(record.state)
  }

  // ---- The three tables ----

  datatype RunRow = RunRow(request: Request, record: Record)

  datatype Reservation = Reservation(dispatch: string, scope: string, reservedMicros: int, active: bool)

  datatype Store = Store(
    runs: map<string, RunRow>, reservations: seq<Reservation>, configs: map<string, LedgerConfig>)

  const EMPTY: Store := Store(map[], [], map[])

  function TotalReserved(rows: seq<Reservation>, scope: string): int {
    if rows == [] then 0
    else
      var last := rows[|rows| - 1];
      TotalReserved(rows[..|rows| - 1], scope) + if last.scope == scope then last.reservedMicros else 0
  }

  function ActiveCount(rows: seq<Reservation>, scope: string): nat {
    if rows == [] then 0
    else
      var last := rows[|rows| - 1];
      ActiveCount(rows[..|rows| - 1], scope) + if last.scope == scope && last.active then 1 else 0
  }

  datatype Error =
    | DispatchReuse | LedgerConfigurationDiffers | ConcurrentLimitExhausted | SpendBudgetExhausted

  /** The ledger part of `claim` for an enrolled request. */
  function Reserve(s: Store, dispatch: string, e: Enrollment): Result<Store, Error> {
    if e.scope in s.configs && s.configs[e.scope] != e.config then Err(LedgerConfigurationDiffers)
    else if ActiveCount(s.reservations, e.scope) >= e.config.maximumConcurrentRequests then Err(ConcurrentLimitExhausted)
    else if TotalReserved(s.reservations, e.scope) + e.reservedSpendMicros > e.config.spendBudgetMicros then
      Err(SpendBudgetExhausted)
    else
      Ok(s.(configs := s.configs[e.scope := e.config],
            reservations := s.reservations + [Reservation(dispatch, e.scope, e.reservedSpendMicros, true)]))
  }

  /** `claim`: one transaction, which a refusal rolls back whole. */
  function Claim(s: Store, request: Request): (Result<(Record, bool), Error>, Store) {
    if request.dispatch in s.runs then
      if s.runs[request.dispatch].request != request then (Err(DispatchReuse), s)
      else (Ok((s.runs[request.dispatch].record, false)), s)
    else
      var record := ClaimRecord(request);
      var ledger := if request.enrollment.Some? then Reserve(s, request.dispatch, request.enrollment.value) else Ok(s);
      match ledger
      case Err(why) => (Err(why), s)
      case Ok(reserved) =>
        (Ok((record, true)), reserved.(runs := s.runs[request.dispatch := RunRow(request, record)]))
  }

  /** `update`. */
  function Update(s: Store, record: Record): Store {
    if record.dispatch in s.runs
    then s.(runs := s.runs[record.dispatch := s.runs[record.dispatch].(record := record)]) else s
  }

  function Deactivated(rows: seq<Reservation>, dispatch: string): seq<Reservation> {
    if rows == [] then []
    else
      var last := rows[|rows| - 1];
      Deactivated(rows[..|rows| - 1], dispatch) + [if last.dispatch == dispatch then last.(active := false) else last]
  }

  /** `close_concurrency_slot`: the monetary reservation stays. */
  function CloseSlot(s: Store, dispatch: string): Store {
    s.(reservations := Deactivated(s.reservations, dispatch))
  }

  // ---- One run ----

  /** What happens before the provider can be contacted. */
  datatype Preparation = CancelledEarly | NoCredential | Ready | FailsEarly(early: Failure)

  /** The exception classes `run` tells apart. */
  datatype Failure = OverBound | Cancelled | TimedOut | OtherException

  /** What the transport does. */
  datatype Outcome = Fails(failure: Failure) | Responds(status: int, raw: bytes, cancelledAfter: bool)

  datatype Decoding = Decoded(value: Json) | Undecodable | Fatal

  /** The handlers of `run`; only an over-bound response settles the contact. */
  function Handle(record: Record, failure: Failure): Record {
    match failure
    case OverBound => record.(state := RESPONSE_OVER_BOUND, contact := RESPONSE_OBSERVED)
    case Cancelled => record.(state := CANCELLED_AFTER_CONTACT_OUTCOME_UNKNOWN)
    case TimedOut => record.(state := LOCAL_TIMEOUT_OUTCOME_UNKNOWN)
    case OtherException => record.(state := TRANSPORT_OUTCOME_UNKNOWN)
  }

  /** `_status_state`. */
  function StatusState(status: int): RunState {
    if status == 401 || status == 403 then AUTHENTICATION_FAILED
    else if status == 402 then QUOTA_EXHAUSTED
    else if status == 429 then RATE_OR_CAPACITY_REFUSED
    else if status == 503 then PROVIDER_CAPACITY_UNAVAILABLE
    else if status == 408 || status == 504 then PROVIDER_TIMEOUT_OUTCOME_UNKNOWN
    else PROVIDER_REFUSED
  }

  /** `_number`. */
  function Number(value: Json): Option<real> {
    match value
    case Int(n) => if n < 0 then None else Some(n as real)
    case Float(r) => if r < 0.0 then None else Some(r)
    case _ => None
  }

  function ObservedUsage(response: Object): Option<Usage> {
    var usage := Get(response, "usage");
    var prompt, completion, total :=
      Number(GetIn(usage, "prompt_tokens")), Number(GetIn(usage, "completion_tokens")), Number(GetIn(usage, "total_tokens"));
    if prompt.Some? && completion.Some? && total.Some?
    then Some(Usage(prompt.value, completion.value, total.value)) else None
  }

  predicate UsageWithin(e: Enrollment, usage: Usage) {
    && usage.promptTokens <= e.maximumPromptTokens as real
    && usage.completionTokens <= e.maximumCompletionTokens as real
    && usage.totalTokens <= e.maximumTotalTokens as real
  }

  /** The single choice's text. */
  function OutputOf(response: Object): Option<Json> {
    var choices := Get(response, "choices");
    if choices.Arr? && |choices.items| == 1 && choices.items[0].Obj?
    then Some(GetIn(Get(choices.items[0].fields, "message"), "content")) else None
  }

  /** A decoded response of status 200. */
  function Accept(request: Request, record: Record, response: Object): Record {
    if Get(response, "model") != Str(request.modelId) then
      record.(state := MODEL_IDENTITY_MISMATCH, contact := RESPONSE_OBSERVED)
    else
      match OutputOf(response)
      case None => record.(state := MALFORMED_RESPONSE_OUTCOME_UNKNOWN, contact := RESPONSE_OBSERVED)
      case Some(output) =>
        if !output.Str? || |Encode(output.s)| > request.maximumOutputBytes then
          record.(state := OUTPUT_UNAVAILABLE_OR_OVER_BOUND, contact := RESPONSE_OBSERVED)
        else
          var usage := ObservedUsage(response);
          var counted := if usage.Some? then record.(usage := usage) else record;
          if usage.Some? && request.enrollment.Some? && !UsageWithin(request.enrollment.value, usage.value) then
            counted.(state := TOKEN_USAGE_OVER_BOUND, contact := RESPONSE_OBSERVED)
          else counted.(state := PROVIDER_COMPLETED, contact := RESPONSE_OBSERVED, workerOutput := Some(output.s))
  }

  /** Everything after the transport has been asked. */
  function Settle(decode: bytes -> Decoding, request: Request, record: Record, outcome: Outcome): Record {
    match outcome
    case Fails(failure) => Handle(record, failure)
    case Responds(status, raw, cancelledAfter) =>
      if |raw| > request.maximumResponseBytes then record.(state := RESPONSE_OVER_BOUND, contact := RESPONSE_OBSERVED)
      else if cancelledAfter then record.(state := CANCELLED_AFTER_CONTACT_OUTCOME_UNKNOWN)
      else if status != 200 then record.(state := StatusState(status), contact := RESPONSE_OBSERVED)
      else
        match decode(raw)
        case Fatal => Handle(record, OtherException)
        case Undecodable => record.(state := MALFORMED_RESPONSE_OUTCOME_UNKNOWN, contact := RESPONSE_OBSERVED)
        case Decoded(value) =>
          if !value.Obj? then record.(state := MALFORMED_RESPONSE_OUTCOME_UNKNOWN, contact := RESPONSE_OBSERVED)
          else Accept(request, record, value.fields)
  }

  /** The record when the run ends before any contact. */
  function Abandon(record: Record, preparation: Preparation): Record
    requires !preparation.Ready?
  {
    match preparation
    case CancelledEarly => record.(state := CANCELLED_BEFORE_CONTACT)
    case NoCredential => record.(state := AUTHENTICATION_UNAVAILABLE)
    case FailsEarly(early) => Handle(record, early)
  }

  /** The whole run without interference, from its claim on: the returned record and the store. */
  function RunAlone(
    decode: bytes -> Decoding, s: Store, request: Request, preparation: Preparation, outcome: Outcome)
    : (Result<Record, Error>, Store)
  {
    var (claimed, s1) := Claim(s, request);
    match claimed
    case Err(why) => (Err(why), s1)
    case Ok((record, created)) =>
      if !created then (Ok(record), s1)
      else
        var started := record.(contact := CONTACT_STARTED_OUTCOME_UNKNOWN);
        var last := if preparation.Ready? then Settle(decode, request, started, outcome) else Abandon(record, preparation);
        var s2 := Update(if preparation.Ready? then Update(s1, started) else s1, last);
        (Ok(last), if Conclusive(last) then CloseSlot(s2, request.dispatch) else s2)
  }

  class RunStore {
    var runs: map<string, RunRow>
    var reservations: seq<Reservation>
    var configs: map<string, LedgerConfig>

    function Contents(): Store
      reads this
    {
      Store(runs, reservations, configs)
    }

    constructor ()
      ensures Contents() == EMPTY
    {
      runs, reservations, configs := map[], [], map[];
    }

    /** The two aggregate queries of `claim`, as one pass over the table. */
    method Totals(scope: string) returns (active: nat, total: int)
      ensures active == ActiveCount(reservations, scope) && total == TotalReserved(reservations, scope)
    {
      active, total := 0, 0;
      for i := 0 to |reservations|
        invariant active == ActiveCount(reservations[..i], scope)
        invariant total == TotalReserved(reservations[..i], scope)
      {
        assert reservations[..i + 1][..i] == reservations[..i];
        var row := reservations[i];
        if row.scope == scope {
          total := total + row.reservedMicros;
          if row.active {
            active := active + 1;
          }
        }
      }
      assert reservations[..|reservations|] == reservations;
    }

    method ClaimRun(request: Request) returns (r: Result<(Record, bool), Error>)
      modifies this
      ensures (r, Contents()) == Claim(old(Contents()), request)
    {
      if request.dispatch in runs {
        if runs[request.dispatch].request != request {
          return Err(DispatchReuse);
        }
        return Ok((runs[request.dispatch].record, false));
      }
      var record := ClaimRecord(request);
      if request.enrollment.Some? {
        var e := request.enrollment.value;
        if e.scope in configs && configs[e.scope] != e.config {
          return Err(LedgerConfigurationDiffers);
        }
        var active, total := Totals(e.scope);
        if active >= e.config.maximumConcurrentRequests {
          return Err(ConcurrentLimitExhausted);
        }
        if total + e.reservedSpendMicros > e.config.spendBudgetMicros {
          return Err(SpendBudgetExhausted);
        }
        configs := configs[e.scope := e.config];
        reservations := reservations + [Reservation(request.dispatch, e.scope, e.reservedSpendMicros, true)];
      }
      runs := runs[request.dispatch := RunRow(request, record)];
      return Ok((record, true));
    }

    method UpdateRun(record: Record)
      modifies this
      ensures Contents() == Update(old(Contents()), record)
    {
      if record.dispatch in runs {
        runs := runs[record.dispatch := runs[record.dispatch].(record := record)];
      }
    }

    method CloseConcurrencySlot(dispatch: string)
      modifies this
      ensures Contents() == CloseSlot(old(Contents()), dispatch)
    {
      var rows := [];
      for i := 0 to |reservations|
        invariant rows == Deactivated(reservations[..i], dispatch)
        invariant Contents() == old(Contents())
      {
        assert reservations[..i + 1][..i] == reservations[..i];
        var row := reservations[i];
        rows := rows + [if row.dispatch == dispatch then row.(active := false) else row];
      }
      assert reservations[..|reservations|] == reservations;
      reservations := rows;
    }

    /** `run`. */
    method RunRequest(decode: bytes -> Decoding, request: Request, preparation: Preparation, outcome: Outcome)
      returns (r: Result<Record, Error>)
      requires ValidRequest(request)
      modifies this
      ensures (r, Contents()) == RunAlone(decode, old(Contents()), request, preparation, outcome)
    {
      hide Update, CloseSlot, TotalReserved, ActiveCount;
      var claimed := ClaimRun(request);
      if claimed.Err? {
        return Err(claimed.error);
      }
      var (record, created) := claimed.value;
      if !created {
        return Ok(record);
      }
      if preparation.Ready? {
        record := record.(contact := CONTACT_STARTED_OUTCOME_UNKNOWN);
        UpdateRun(record);
        record := Settle(decode, request, record, outcome);
      } else {
        record := Abandon(record, preparation);
      }
      UpdateRun(record);
      if Conclusive(record) {
        CloseConcurrencySlot(record.dispatch);
      }
      return Ok(record);
    }
  }
}
