/** Any number of direct runs on one store, with every transaction atomic and a crash possible
    between any two: what the ledger never exceeds, and what contact and release imply. */
module LedgerSafety {
  import opened Utf8
  import opened DirectApi

  /** Where a run is between two durable steps. */
  datatype Phase =
    | Begun
    | Claimed(record: Record)      // fresh claim, nothing sent
    | Armed(record: Record)        // contact is on record, transport not yet asked
    | Asked(record: Record)        // transport asked, outcome not yet known
    | Finished(record: Record)     // outcome known, to be stored
    | Stored(record: Record)       // stored, slot possibly to be released
    | Ended

  datatype Action =
    | TakeClaim(who: nat)
    | GiveUp(who: nat, preparation: Preparation)
    | Arm(who: nat, stored: bool)
    | Contact(who: nat)
    | Learn(who: nat, outcome: Outcome)
    | Save(who: nat)
    | Release(who: nat)
    | Crash(who: nat)

  /** The store and the runs, and the history: who claimed what, the contacts made, and what the
      contact of each dispatch came to. */
  datatype System = System(
    store: Store, phases: seq<Phase>, owners: seq<(string, nat)>, contacts: seq<string>,
    learned: map<string, Outcome>)

  function Start(count: nat): System {
    System(EMPTY, seq(count, i => Begun), [], [], map[])
  }

  function Become(s: System, who: nat, phase: Phase): System
    requires who < |s.phases|
  {
    s.(phases := s.phases[who := phase])
  }

  /** One step of one run. An `Arm` whose store write fails is an exception before contact. */
  function Act(decode: bytes -> Decoding, who: seq<Request>, s: System, a: Action): System
    requires |who| == |s.phases|
  {
    if a.who >= |who| then s
    else
      var me, phase := who[a.who], s.phases[a.who];
      match a
      case TakeClaim(i) =>
        if !phase.Begun? then s
        else
          var (r, store) := Claim(s.store, me);
          if r.Ok? && r.value.1
          then Become(s.(store := store, owners := s.owners + [(me.dispatch, i)]), i, Claimed(r.value.0))
          else Become(s, i, Ended)
      case GiveUp(i, preparation) =>
        if phase.Claimed? && !preparation.Ready?
        then Become(s, i, Finished(Abandon(phase.record, preparation))) else s
      case Arm(i, stored) =>
        if !phase.Claimed? then s
        else
          var record := phase.record.(contact := CONTACT_STARTED_OUTCOME_UNKNOWN);
          if stored then Become(s.(store := Update(s.store, record)), i, Armed(record))
          else Become(s, i, Finished(Handle(record, OtherException)))
      case Contact(i) =>
        if phase.Armed? then Become(s.(contacts := s.contacts + [me.dispatch]), i, Asked(phase.record)) else s
      case Learn(i, outcome) =>
        if phase.Asked?
        then Become(s.(learned := s.learned[me.dispatch := outcome]), i,
                    Finished(Settle(decode, me, phase.record, outcome)))
        else s
      case Save(i) =>
        if phase.Finished? then Become(s.(store := Update(s.store, phase.record)), i, Stored(phase.record)) else s
      case Release(i) =>
        if !phase.Stored? then s
        else if Conclusive(phase.record) then Become(s.(store := CloseSlot(s.store, me.dispatch)), i, Ended)
        else Become(s, i, Ended)
      case Crash(i) => Become(s, i, Ended)
  }

  function Execute(decode: bytes -> Decoding, who: seq<Request>, actions: seq<Action>): (s: System)
    ensures |s.phases| == |who|
  {
    if actions == [] then Start(|who|)
    else Act(decode, who, Execute(decode, who, actions[..|actions| - 1]), actions[|actions| - 1])
  }

  predicate AllValid(who: seq<Request>) {
    forall i | 0 <= i < |who| :: ValidRequest(who[i])
  }

  // ---- The ledger ----

  /** A scope is within what it was pinned to. */
  predicate WithinScope(s: Store, scope: string)
    requires scope in s.configs
  {
    && TotalReserved(s.reservations, scope) <= s.configs[scope].spendBudgetMicros
    && ActiveCount(s.reservations, scope) <= s.configs[scope].maximumConcurrentRequests
  }

  /** A reservation belongs to a claimed run with that enrollment, under the pinned
      configuration. */
  predicate Backed(s: Store, row: Reservation) {
    && row.dispatch in s.runs
    && s.runs[row.dispatch].request.dispatch == row.dispatch
    && ValidRequest(s.runs[row.dispatch].request)
    && s.runs[row.dispatch].request.enrollment.Some?
    && var e := s.runs[row.dispatch].request.enrollment.value;
    && e.scope == row.scope && e.reservedSpendMicros == row.reservedMicros
    && row.scope in s.configs && s.configs[row.scope] == e.config
  }

  ghost predicate Solvent(s: Store) {
    && (forall scope | scope in s.configs :: WithinScope(s, scope))
    && (forall k | 0 <= k < |s.reservations| :: Backed(s, s.reservations[k]))
    && (forall j, k | 0 <= j < k < |s.reservations| :: s.reservations[j].dispatch != s.reservations[k].dispatch)
  }

  lemma AppendTotals(rows: seq<Reservation>, row: Reservation, scope: string)
    ensures TotalReserved(rows + [row], scope) ==
      TotalReserved(rows, scope) + if row.scope == scope then row.reservedMicros else 0
    ensures ActiveCount(rows + [row], scope) ==
      ActiveCount(rows, scope) + if row.scope == scope && row.active then 1 else 0
  {
    assert (rows + [row])[..|rows|] == rows;
  }

  lemma {:induction false} NoRowsNoTotals(rows: seq<Reservation>, scope: string)
    requires forall k | 0 <= k < |rows| :: rows[k].scope != scope
    ensures TotalReserved(rows, scope) == 0 && ActiveCount(rows, scope) == 0
  {
    if rows != [] {
      NoRowsNoTotals(rows[..|rows| - 1], scope);
    }
  }

  /** Closing a slot keeps every row but its own activity. */
  lemma {:induction false} DeactivatedRows(rows: seq<Reservation>, dispatch: string)
    ensures |Deactivated(rows, dispatch)| == |rows|
    ensures forall k | 0 <= k < |rows| ::
      Deactivated(rows, dispatch)[k] == if rows[k].dispatch == dispatch then rows[k].(active := false) else rows[k]
  {
    if rows != [] {
      DeactivatedRows(rows[..|rows| - 1], dispatch);
    }
  }

  lemma {:induction false} DeactivatedTotals(rows: seq<Reservation>, dispatch: string, scope: string)
    ensures TotalReserved(Deactivated(rows, dispatch), scope) == TotalReserved(rows, scope)
    ensures ActiveCount(Deactivated(rows, dispatch), scope) <= ActiveCount(rows, scope)
  {
    if rows != [] {
      var last := rows[|rows| - 1];
      DeactivatedTotals(rows[..|rows| - 1], dispatch, scope);
      AppendTotals(Deactivated(rows[..|rows| - 1], dispatch),
        if last.dispatch == dispatch then last.(active := false) else last, scope);
    }
  }

  /** A successful reservation stays within its scope and leaves the others alone. */
  lemma ReserveKeepsScopes(s: Store, dispatch: string, e: Enrollment, scope: string)
    requires Reserve(s, dispatch, e).Ok? && scope in Reserve(s, dispatch, e).value.configs
    requires scope in s.configs ==> WithinScope(s, scope)
    ensures WithinScope(Reserve(s, dispatch, e).value, scope)
  {
    AppendTotals(s.reservations, Reservation(dispatch, e.scope, e.reservedSpendMicros, true), scope);
  }

  lemma ClaimKeepsSolvent(s: Store, request: Request)
    requires Solvent(s) && ValidRequest(request)
    ensures Solvent(Claim(s, request).1)
  {
    var s' := Claim(s, request).1;
    if s' != s {
      hide TotalReserved, ActiveCount;
      forall k | 0 <= k < |s'.reservations|
        ensures Backed(s', s'.reservations[k])
      {
        if k < |s.reservations| {
          assert Backed(s, s.reservations[k]);
        }
      }
      forall j, k | 0 <= j < k < |s'.reservations|
        ensures s'.reservations[j].dispatch != s'.reservations[k].dispatch
      {
        assert Backed(s, s.reservations[j]);
      }
      forall scope | scope in s'.configs
        ensures WithinScope(s', scope)
      {
        assert scope in s.configs ==> WithinScope(s, scope);
        if request.enrollment.Some? {
          ReserveKeepsScopes(s, request.dispatch, request.enrollment.value, scope);
        }
      }
    }
  }

  lemma UpdateKeepsSolvent(s: Store, record: Record)
    requires Solvent(s)
    ensures Solvent(Update(s, record))
  {
    var s' := Update(s, record);
    forall scope | scope in s'.configs
      ensures WithinScope(s', scope)
    {
      assert WithinScope(s, scope);
    }
    forall k | 0 <= k < |s'.reservations|
      ensures Backed(s', s'.reservations[k])
    {
      assert Backed(s, s.reservations[k]);
    }
  }

  lemma CloseKeepsSolvent(s: Store, dispatch: string)
    requires Solvent(s)
    ensures Solvent(CloseSlot(s, dispatch))
  {
    var s' := CloseSlot(s, dispatch);
    DeactivatedRows(s.reservations, dispatch);
    forall scope | scope in s'.configs
      ensures WithinScope(s', scope)
    {
      assert WithinScope(s, scope);
      DeactivatedTotals(s.reservations, dispatch, scope);
    }
    forall k | 0 <= k < |s'.reservations|
      ensures Backed(s', s'.reservations[k])
    {
      assert Backed(s, s.reservations[k]);
    }
  }

  lemma {:induction false} LedgerIsSafe(decode: bytes -> Decoding, who: seq<Request>, actions: seq<Action>)
    requires AllValid(who)
    ensures Solvent(Execute(decode, who, actions).store)
  {
    if actions != [] {
      var s, a := Execute(decode, who, actions[..|actions| - 1]), actions[|actions| - 1];
      LedgerIsSafe(decode, who, actions[..|actions| - 1]);
      if a.who < |who| {
        match a
        case TakeClaim(i) => ClaimKeepsSolvent(s.store, who[i]);
        case Arm(i, stored) =>
          if s.phases[i].Claimed? {
            UpdateKeepsSolvent(s.store, s.phases[i].record.(contact := CONTACT_STARTED_OUTCOME_UNKNOWN));
          }
        case Save(i) =>
          if s.phases[i].Finished? {
            UpdateKeepsSolvent(s.store, s.phases[i].record);
          }
        case Release(i) => CloseKeepsSolvent(s.store, who[i].dispatch);
        case _ =>
      }
    }
  }

  /** A scope's configuration is pinned by its first claim. */
  ghost predicate Pinned(s: Store, s': Store) {
    forall scope | scope in s.configs :: scope in s'.configs && s'.configs[scope] == s.configs[scope]
  }

  lemma {:induction false} ConfigurationStaysPinned(
    decode: bytes -> Decoding, who: seq<Request>, actions: seq<Action>, more: seq<Action>)
    ensures Pinned(Execute(decode, who, actions).store, Execute(decode, who, actions + more).store)
  {
    if more == [] {
      assert actions + more == actions;
    } else {
      var init := more[..|more| - 1];
      ConfigurationStaysPinned(decode, who, actions, init);
      assert (actions + more)[..|actions + more| - 1] == actions + init;
      ActPins(decode, who, Execute(decode, who, actions + init), more[|more| - 1]);
    }
  }

  lemma ActPins(decode: bytes -> Decoding, who: seq<Request>, s: System, a: Action)
    requires |who| == |s.phases|
    ensures Pinned(s.store, Act(decode, who, s, a).store)
  {
    hide TotalReserved, ActiveCount, Settle;
  }

  /** A run without interference takes exactly these steps: the sequential `run` is one thread
      of the machine. */
  lemma RunAloneIsOneThread(
    decode: bytes -> Decoding, who: seq<Request>, s: System, i: nat, preparation: Preparation, outcome: Outcome)
    requires i < |who| == |s.phases| && s.phases[i].Begun?
    ensures var s1 := Act(decode, who, s, TakeClaim(i));
      var s2 := if preparation.Ready? then Act(decode, who, Act(decode, who, s1, Arm(i, true)), Contact(i)) else s1;
      var s3 := Act(decode, who, s2, if preparation.Ready? then Learn(i, outcome) else GiveUp(i, preparation));
      Act(decode, who, Act(decode, who, s3, Save(i)), Release(i)).store
        == RunAlone(decode, s.store, who[i], preparation, outcome).1
  {
    hide Claim, Update, CloseSlot, Settle, Abandon, Conclusive;
    var (r, store) := Claim(s.store, who[i]);
    var s1 := Act(decode, who, s, TakeClaim(i));
    if r.Ok? && r.value.1 {
      FreshThread(decode, who, s1, i, r.value.0, preparation, outcome);
    } else {
      RefusedLeaves(s.store, who[i]);
      assert s1.phases[i] == Ended && s1.store == s.store;
    }
  }

  lemma RefusedLeaves(s: Store, request: Request)
    ensures var (r, s') := Claim(s, request);
      (r.Ok? && r.value.1) || s' == s
  {
    hide Reserve;
  }

  /** The same from the fresh claim on. */
  lemma FreshThread(
    decode: bytes -> Decoding, who: seq<Request>, s: System, i: nat, record: Record, preparation: Preparation,
    outcome: Outcome)
    requires i < |who| == |s.phases| && s.phases[i] == Claimed(record)
    ensures var started := record.(contact := CONTACT_STARTED_OUTCOME_UNKNOWN);
      var last := if preparation.Ready? then Settle(decode, who[i], started, outcome) else Abandon(record, preparation);
      var store := Update(if preparation.Ready? then Update(s.store, started) else s.store, last);
      var s2 := if preparation.Ready? then Act(decode, who, Act(decode, who, s, Arm(i, true)), Contact(i)) else s;
      var s3 := Act(decode, who, s2, if preparation.Ready? then Learn(i, outcome) else GiveUp(i, preparation));
      Act(decode, who, Act(decode, who, s3, Save(i)), Release(i)).store
        == if Conclusive(last) then CloseSlot(store, who[i].dispatch) else store
  {
    hide Claim, Update, CloseSlot, Settle, Abandon, Conclusive;
  }

  lemma SettleKeepsDispatch(decode: bytes -> Decoding, request: Request, record: Record, outcome: Outcome)
    ensures Settle(decode, request, record, outcome).dispatch == record.dispatch
  {
  }
}
