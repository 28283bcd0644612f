/** When a direct run is admitted and when it gives its slot back, told from the rows of the ledger. */
module ClaimFacts {
  import opened Wrappers
  import opened Utf8
  import opened DirectApi
  import opened DirectResponses

  // ---- What a scope holds ----

  /** The places of the active reservations of a scope. */
  function ActivePlaces(rows: seq<Reservation>, scope: string): set<int> {
    set i | 0 <= i < |rows| && rows[i].scope == scope && rows[i].active
  }

  /** What a scope has reserved in all, the oldest reservation first. */
  function ScopeSum(rows: seq<Reservation>, scope: string): int {
    if rows == [] then 0 else (if rows[0].scope == scope then rows[0].reservedMicros else 0) + ScopeSum(rows[1..], scope)
  }

  lemma {:induction false} ActiveIsCounted(rows: seq<Reservation>, scope: string)
    ensures ActiveCount(rows, scope) == |ActivePlaces(rows, scope)|
  {
    if rows != [] {
      var n := |rows| - 1;
      ActiveIsCounted(rows[..n], scope);
      var counted := rows[n].scope == scope && rows[n].active;
      assert ActivePlaces(rows, scope) == ActivePlaces(rows[..n], scope) + if counted then {n} else {};
    }
  }

  lemma {:induction false} SumLast(rows: seq<Reservation>, row: Reservation, scope: string)
    ensures ScopeSum(rows + [row], scope) == ScopeSum(rows, scope) + if row.scope == scope then row.reservedMicros else 0
  {
    if rows == [] {
      assert rows + [row] == [row];
    } else {
      SumLast(rows[1..], row, scope);
      assert (rows + [row])[1..] == rows[1..] + [row];
    }
  }

  lemma {:induction false} TotalIsSummed(rows: seq<Reservation>, scope: string)
    ensures TotalReserved(rows, scope) == ScopeSum(rows, scope)
  {
    if rows != [] {
      var n := |rows| - 1;
      TotalIsSummed(rows[..n], scope);
      SumLast(rows[..n], rows[n], scope);
      assert rows[..n] + [rows[n]] == rows;
    }
  }

  // ---- Claims ----

  /** The scope is new or pinned to this very configuration, has a slot free, and can bear the
      reservation. */
  predicate Bears(s: Store, e: Enrollment) {
    && (e.scope in s.configs ==> s.configs[e.scope] == e.config)
    && |ActivePlaces(s.reservations, e.scope)| < e.config.maximumConcurrentRequests
    && ScopeSum(s.reservations, e.scope) + e.reservedSpendMicros <= e.config.spendBudgetMicros
  }

  /** A known dispatch is returned to the same request and refused to any other. An unknown one is
      claimed exactly when its scope bears it, and then it is reserved for and inserted at once; a
      refusal changes nothing. */
  lemma ClaimExactly(s: Store, request: Request)
    ensures var (r, s') := Claim(s, request);
      if request.dispatch in s.runs then
        && s' == s
        && r == if s.runs[request.dispatch].request == request then Ok((s.runs[request.dispatch].record, false))
                else Err(DispatchReuse)
      else if request.enrollment.None? then
        && r == Ok((Record(request.dispatch, OUTCOME_UNKNOWN, NOT_CONTACTED, None, None), true))
        && s' == Store(s.runs[request.dispatch := RunRow(request, r.value.0)], s.reservations, s.configs)
      else
        var e := request.enrollment.value;
        if Bears(s, e) then
          && r == Ok((Record(request.dispatch, OUTCOME_UNKNOWN, NOT_CONTACTED, None, None), true))
          && s' == Store(
               s.runs[request.dispatch := RunRow(request, r.value.0)],
               s.reservations + [Reservation(request.dispatch, e.scope, e.reservedSpendMicros, true)],
               s.configs[e.scope := e.config])
        else r.Err? && s' == s
  {
    if request.enrollment.Some? {
      ActiveIsCounted(s.reservations, request.enrollment.value.scope);
      TotalIsSummed(s.reservations, request.enrollment.value.scope);
    }
  }

  // ---- Slots ----

  /** Nobody knows what became of the request. */
  predicate Unsettled(record: Record) {
    || record.contact == CONTACT_STARTED_OUTCOME_UNKNOWN
    || record.state in {OUTCOME_UNKNOWN, CANCELLED_AFTER_CONTACT_OUTCOME_UNKNOWN, PROVIDER_TIMEOUT_OUTCOME_UNKNOWN,
                        MALFORMED_RESPONSE_OUTCOME_UNKNOWN, LOCAL_TIMEOUT_OUTCOME_UNKNOWN, TRANSPORT_OUTCOME_UNKNOWN}
  }

  lemma {:induction false} DeactivatedAt(rows: seq<Reservation>, dispatch: string)
    ensures var rows' := Deactivated(rows, dispatch);
      && |rows'| == |rows|
      && forall i | 0 <= i < |rows| ::
           rows'[i] == if rows[i].dispatch == dispatch then rows[i].(active := false) else rows[i]
  {
    if rows != [] {
      DeactivatedAt(rows[..|rows| - 1], dispatch);
    }
  }

  /** A fresh run ends with its record stored. Its reservation stays, with the slot still taken
      exactly when nobody knows what became of the request; other dispatches are not touched. */
  lemma SlotFreedExactly(
    decode: bytes -> Decoding, s: Store, request: Request, preparation: Preparation, outcome: Outcome)
    requires Fresh(s, request) && request.enrollment.Some?
    ensures var (r, s') := RunAlone(decode, s, request, preparation, outcome);
      && r.Ok?
      && s'.runs == s.runs[request.dispatch := RunRow(request, r.value)]
      && s'.configs == s.configs[request.enrollment.value.scope := request.enrollment.value.config]
      && |s'.reservations| == |s.reservations| + 1
      && s'.reservations[|s.reservations|] == Reservation(
           request.dispatch, request.enrollment.value.scope, request.enrollment.value.reservedSpendMicros, Unsettled(r.value))
      && forall i | 0 <= i < |s.reservations| && s.reservations[i].dispatch != request.dispatch ::
           s'.reservations[i] == s.reservations[i]
  {
    hide Settle, Abandon, Claim, Deactivated, Bears;
    ClaimExactly(s, request);
    DeactivatedAt(Claim(s, request).1.reservations, request.dispatch);
    var claimed := Claim(s, request).0.value.0;
    var last := if preparation.Ready?
                then Settle(decode, request, claimed.(contact := CONTACT_STARTED_OUTCOME_UNKNOWN), outcome)
                else Abandon(claimed, preparation);
    LastKeepsDispatch(decode, request, claimed, preparation, outcome);
    assert RunAlone(decode, s, request, preparation, outcome).0 == Ok(last);
  }

  lemma LastKeepsDispatch(
    decode: bytes -> Decoding, request: Request, claimed: Record, preparation: Preparation, outcome: Outcome)
    ensures Settle(decode, request, claimed, outcome).dispatch == claimed.dispatch
    ensures Settle(decode, request, claimed.(contact := CONTACT_STARTED_OUTCOME_UNKNOWN), outcome).dispatch
      == claimed.dispatch
    ensures !preparation.Ready? ==> Abandon(claimed, preparation).dispatch == claimed.dispatch
  {
  }
}
