/** One contact and conservative release, over every interleaving and crash point of direct
    runs; and what completed runs can have cost together. */
module ContactSafety {
  import opened Utf8
  import opened DirectApi
  import opened LedgerSafety

  function ArmedRecord(request: Request): Record {
    ClaimRecord(request).(contact := CONTACT_STARTED_OUTCOME_UNKNOWN)
  }

  /** A completed run of an enrolled request stayed within its token envelope. */
  predicate Sane(request: Request, record: Record) {
    && record.dispatch == request.dispatch
    && (record.state.PROVIDER_COMPLETED? && record.usage.Some? && request.enrollment.Some? ==>
          UsageWithin(request.enrollment.value, record.usage.value))
  }

  predicate Busy(phase: Phase) {
    !phase.Begun? && !phase.Ended?
  }

  /** The slot of a dispatch, if it has one, is still taken. */
  ghost predicate SlotTaken(s: System, dispatch: string) {
    forall k | 0 <= k < |s.store.reservations| ::
      s.store.reservations[k].dispatch == dispatch ==> s.store.reservations[k].active
  }

  /** What the durable record of a busy run is, and whether the provider was contacted. */
  predicate Durable(me: Request, phase: Phase, stored: Record, contacted: bool)
    requires Busy(phase)
  {
    && Sane(me, phase.record)
    && match phase
       case Claimed(r) => r == stored == ClaimRecord(me) && !contacted
       case Armed(r) => r == stored == ArmedRecord(me) && !contacted
       case Asked(r) => r == stored == ArmedRecord(me)
       case Finished(r) =>
         && (stored == ClaimRecord(me) || stored == ArmedRecord(me))
         && (contacted ==> stored == ArmedRecord(me) && !r.contact.NOT_CONTACTED?)
       case Stored(r) => r == stored
  }

  /** A busy run owns its dispatch's row, contact and slot. */
  ghost predicate Owns(who: seq<Request>, s: System, i: nat)
    requires i < |who| == |s.phases|
  {
    Busy(s.phases[i]) ==>
      && (who[i].dispatch, i) in s.owners
      && who[i].dispatch in s.store.runs
      && s.store.runs[who[i].dispatch].request == who[i]
      && Durable(who[i], s.phases[i], s.store.runs[who[i].dispatch].record, who[i].dispatch in s.contacts)
      && SlotTaken(s, who[i].dispatch)
  }

  predicate RowSound(s: System, d: string)
    requires d in s.store.runs
  {
    s.store.runs[d].request.dispatch == d && Sane(s.store.runs[d].request, s.store.runs[d].record)
  }

  /** A contacted dispatch has a record that says so. */
  predicate OnRecord(s: System, d: string) {
    d in s.store.runs && !s.store.runs[d].record.contact.NOT_CONTACTED?
  }

  /** A released slot belongs to a run whose outcome is settled on record. */
  predicate ReleasedSoundly(s: System, row: Reservation) {
    && row.dispatch in s.store.runs
    && (!row.active ==> Conclusive(s.store.runs[row.dispatch].record))
  }

  ghost predicate OwnersUnique(s: System) {
    && (forall k | 0 <= k < |s.owners| :: s.owners[k].0 in s.store.runs)
    && (forall j, k | 0 <= j < k < |s.owners| :: s.owners[j].0 != s.owners[k].0)
  }

  ghost predicate Careful(who: seq<Request>, s: System) {
    && |who| == |s.phases|
    && OwnersUnique(s)
    && (forall i: nat | i < |who| :: Owns(who, s, i))
    && (forall d | d in s.store.runs :: RowSound(s, d))
    && (forall k | 0 <= k < |s.contacts| :: OnRecord(s, s.contacts[k]))
    && (forall j, k | 0 <= j < k < |s.contacts| :: s.contacts[j] != s.contacts[k])
    && (forall k | 0 <= k < |s.store.reservations| :: ReleasedSoundly(s, s.store.reservations[k]))
  }

  lemma OneOwner(who: seq<Request>, s: System, i: nat, j: nat)
    requires Careful(who, s) && i < |who| && j < |who| && Busy(s.phases[i]) && Busy(s.phases[j])
    ensures who[i].dispatch == who[j].dispatch ==> i == j
  {
    assert Owns(who, s, i) && Owns(who, s, j);
    var a :| 0 <= a < |s.owners| && s.owners[a] == (who[i].dispatch, i);
    var b :| 0 <= b < |s.owners| && s.owners[b] == (who[j].dispatch, j);
  }

  // ---- Steps that only move one run's phase ----

  lemma PhaseKeeps(who: seq<Request>, s: System, i: nat, phase: Phase)
    requires Careful(who, s) && i < |who|
    requires Busy(phase) ==>
      Busy(s.phases[i]) && who[i].dispatch in s.store.runs
      && Durable(who[i], phase, s.store.runs[who[i].dispatch].record, who[i].dispatch in s.contacts)
    ensures Careful(who, Become(s, i, phase))
  {
    var s' := Become(s, i, phase);
    forall j: nat | j < |who|
      ensures Owns(who, s', j)
    {
      assert Owns(who, s, j);
      assert SlotTaken(s, who[j].dispatch) ==> SlotTaken(s', who[j].dispatch);
    }
    forall d | d in s'.store.runs
      ensures RowSound(s', d)
    {
      assert RowSound(s, d);
    }
    forall k | 0 <= k < |s'.contacts|
      ensures OnRecord(s', s'.contacts[k])
    {
      assert OnRecord(s, s.contacts[k]);
    }
    forall k | 0 <= k < |s'.store.reservations|
      ensures ReleasedSoundly(s', s'.store.reservations[k])
    {
      assert ReleasedSoundly(s, s.store.reservations[k]);
    }
  }

  /** What was learned is history alone. */
  lemma NotingKeeps(who: seq<Request>, s: System, s': System)
    requires Careful(who, s) && s' == s.(learned := s'.learned)
    ensures Careful(who, s')
  {
    forall j: nat | j < |who|
      ensures Owns(who, s', j)
    {
      assert Owns(who, s, j);
      assert SlotTaken(s, who[j].dispatch) ==> SlotTaken(s', who[j].dispatch);
    }
    forall d | d in s'.store.runs
      ensures RowSound(s', d)
    {
      assert RowSound(s, d);
    }
    forall k | 0 <= k < |s'.contacts|
      ensures OnRecord(s', s'.contacts[k])
    {
      assert OnRecord(s, s.contacts[k]);
    }
    forall k | 0 <= k < |s'.store.reservations|
      ensures ReleasedSoundly(s', s'.store.reservations[k])
    {
      assert ReleasedSoundly(s, s.store.reservations[k]);
    }
  }

  // ---- Storing a record ----

  /** The owner of a dispatch stores a record that forgets no contact. */
  lemma StoreKeeps(who: seq<Request>, s: System, i: nat, record: Record, phase: Phase)
    requires Careful(who, s) && i < |who| && Busy(s.phases[i]) && Busy(phase)
    requires record.dispatch == who[i].dispatch && Sane(who[i], record)
    requires who[i].dispatch in s.contacts ==> !record.contact.NOT_CONTACTED?
    requires Durable(who[i], phase, record, who[i].dispatch in s.contacts)
    ensures Careful(who, Become(s.(store := Update(s.store, record)), i, phase))
  {
    var s' := Become(s.(store := Update(s.store, record)), i, phase);
    var mine := who[i].dispatch;
    assert Owns(who, s, i);
    forall j: nat | j < |who|
      ensures Owns(who, s', j)
    {
      assert Owns(who, s, j);
      assert SlotTaken(s, who[j].dispatch) ==> SlotTaken(s', who[j].dispatch);
      if j != i && Busy(s.phases[j]) {
        OneOwner(who, s, i, j);
      }
    }
    forall d | d in s'.store.runs
      ensures RowSound(s', d)
    {
      assert RowSound(s, d);
    }
    forall k | 0 <= k < |s'.contacts|
      ensures OnRecord(s', s'.contacts[k])
    {
      assert OnRecord(s, s.contacts[k]);
    }
    forall k | 0 <= k < |s'.store.reservations|
      ensures ReleasedSoundly(s', s'.store.reservations[k])
    {
      assert ReleasedSoundly(s, s.store.reservations[k]);
    }
  }

  // ---- Claiming, contacting, releasing ----

  lemma ClaimKeeps(decode: bytes -> Decoding, who: seq<Request>, s: System, i: nat)
    requires Careful(who, s) && i < |who| && Solvent(s.store) && s.phases[i].Begun?
    ensures Careful(who, Act(decode, who, s, TakeClaim(i)))
  {
    hide TotalReserved, ActiveCount, EndsInOutcomeUnknown;
    var s' := Act(decode, who, s, TakeClaim(i));
    var me := who[i];
    var (r, store) := Claim(s.store, me);
    if r.Ok? && r.value.1 {
      assert s'.owners == s.owners + [(me.dispatch, i)];
      assert (me.dispatch, i) in s'.owners;
      FreshRows(s.store, me);
      forall k | 0 <= k < |s.contacts|
        ensures OnRecord(s', s'.contacts[k]) && s.contacts[k] != me.dispatch
      {
        assert OnRecord(s, s.contacts[k]);
      }
      forall j: nat | j < |who|
        ensures Owns(who, s', j)
      {
        assert Owns(who, s, j);
      }
      forall d | d in s'.store.runs
        ensures RowSound(s', d)
      {
        assert d in s.store.runs ==> RowSound(s, d);
      }
      forall k | 0 <= k < |s'.store.reservations|
        ensures ReleasedSoundly(s', s'.store.reservations[k])
      {
        assert k < |s.store.reservations| ==> ReleasedSoundly(s, s.store.reservations[k]);
      }
    } else {
      PhaseKeeps(who, s, i, Ended);
      assert s' == Become(s, i, Ended);
    }
  }

  /** A fresh claim adds at most one row, its own and active, for a dispatch without any. */
  lemma FreshRows(s: Store, request: Request)
    requires Solvent(s) && Claim(s, request).0.Ok? && Claim(s, request).0.value.1
    ensures var s' := Claim(s, request).1;
      && request.dispatch !in s.runs
      && s'.runs == s.runs[request.dispatch := RunRow(request, ClaimRecord(request))]
      && |s.reservations| <= |s'.reservations| <= |s.reservations| + 1
      && s'.reservations[..|s.reservations|] == s.reservations
      && (forall k | 0 <= k < |s.reservations| :: s.reservations[k].dispatch != request.dispatch)
      && (forall k | |s.reservations| <= k < |s'.reservations| ::
            s'.reservations[k].dispatch == request.dispatch && s'.reservations[k].active)
  {
    forall k | 0 <= k < |s.reservations|
      ensures s.reservations[k].dispatch != request.dispatch
    {
      assert Backed(s, s.reservations[k]);
    }
  }

  lemma ContactKeeps(decode: bytes -> Decoding, who: seq<Request>, s: System, i: nat)
    requires Careful(who, s) && i < |who| && s.phases[i].Armed?
    ensures Careful(who, Act(decode, who, s, Contact(i)))
  {
    var s' := Act(decode, who, s, Contact(i));
    var mine := who[i].dispatch;
    assert Owns(who, s, i);
    assert s'.contacts == s.contacts + [mine];
    forall j: nat | j < |who|
      ensures Owns(who, s', j)
    {
      assert Owns(who, s, j);
      assert SlotTaken(s, who[j].dispatch) ==> SlotTaken(s', who[j].dispatch);
      if j != i && Busy(s.phases[j]) {
        OneOwner(who, s, i, j);
      }
    }
    forall d | d in s'.store.runs
      ensures RowSound(s', d)
    {
      assert RowSound(s, d);
    }
    forall k | 0 <= k < |s'.contacts|
      ensures OnRecord(s', s'.contacts[k])
    {
      assert k < |s.contacts| ==> OnRecord(s, s.contacts[k]);
    }
    forall k | 0 <= k < |s'.store.reservations|
      ensures ReleasedSoundly(s', s'.store.reservations[k])
    {
      assert ReleasedSoundly(s, s.store.reservations[k]);
    }
  }

  /** Releasing one slot leaves the others taken, and every released one settled. */
  lemma ReleasedSlots(s: System, s': System, dispatch: string)
    requires s'.store == CloseSlot(s.store, dispatch)
    requires dispatch in s.store.runs && Conclusive(s.store.runs[dispatch].record)
    requires forall k | 0 <= k < |s.store.reservations| :: ReleasedSoundly(s, s.store.reservations[k])
    ensures forall k | 0 <= k < |s'.store.reservations| :: ReleasedSoundly(s', s'.store.reservations[k])
    ensures forall other | other != dispatch && SlotTaken(s, other) :: SlotTaken(s', other)
  {
    DeactivatedRows(s.store.reservations, dispatch);
    forall k | 0 <= k < |s'.store.reservations|
      ensures ReleasedSoundly(s', s'.store.reservations[k])
    {
      assert ReleasedSoundly(s, s.store.reservations[k]);
    }
  }

  lemma ReleaseKeeps(decode: bytes -> Decoding, who: seq<Request>, s: System, i: nat)
    requires Careful(who, s) && i < |who| && s.phases[i].Stored? && Conclusive(s.phases[i].record)
    ensures Careful(who, Act(decode, who, s, Release(i)))
  {
    var s' := Act(decode, who, s, Release(i));
    assert Owns(who, s, i);
    ReleasedSlots(s, s', who[i].dispatch);
    forall j: nat | j < |who|
      ensures Owns(who, s', j)
    {
      assert Owns(who, s, j);
      if j != i && Busy(s.phases[j]) {
        OneOwner(who, s, i, j);
      }
    }
    forall d | d in s'.store.runs
      ensures RowSound(s', d)
    {
      assert RowSound(s, d);
    }
    forall k | 0 <= k < |s'.contacts|
      ensures OnRecord(s', s'.contacts[k])
    {
      assert OnRecord(s, s.contacts[k]);
    }
  }

  // ---- Outcomes ----

  /** Whatever the transport does, the record stays within the envelope and never forgets that
      contact was started. */
  lemma SettleIsSane(decode: bytes -> Decoding, request: Request, outcome: Outcome)
    ensures var r := Settle(decode, request, ArmedRecord(request), outcome);
      Sane(request, r) && !r.contact.NOT_CONTACTED?
  {
  }

  lemma ActKeepsCareful(decode: bytes -> Decoding, who: seq<Request>, s: System, a: Action)
    requires Careful(who, s) && Solvent(s.store)
    ensures Careful(who, Act(decode, who, s, a))
  {
    if a.who < |who| {
      var i: nat := a.who;
      var me, phase := who[i], s.phases[i];
      assert Owns(who, s, i);
      match a
      case TakeClaim(_) =>
        if phase.Begun? {
          ClaimKeeps(decode, who, s, i);
        }
      case GiveUp(_, preparation) =>
        if phase.Claimed? && !preparation.Ready? {
          PhaseKeeps(who, s, i, Finished(Abandon(phase.record, preparation)));
        }
      case Arm(_, stored) =>
        if phase.Claimed? {
          if stored {
            StoreKeeps(who, s, i, ArmedRecord(me), Armed(ArmedRecord(me)));
          } else {
            PhaseKeeps(who, s, i, Finished(Handle(ArmedRecord(me), OtherException)));
          }
        }
      case Contact(_) =>
        if phase.Armed? {
          ContactKeeps(decode, who, s, i);
        }
      case Learn(_, outcome) =>
        if phase.Asked? {
          SettleIsSane(decode, me, outcome);
          var noted := s.(learned := s.learned[me.dispatch := outcome]);
          NotingKeeps(who, s, noted);
          PhaseKeeps(who, noted, i, Finished(Settle(decode, me, phase.record, outcome)));
        }
      case Save(_) =>
        if phase.Finished? {
          StoreKeeps(who, s, i, phase.record, Stored(phase.record));
        }
      case Release(_) =>
        if phase.Stored? {
          if Conclusive(phase.record) {
            ReleaseKeeps(decode, who, s, i);
          } else {
            PhaseKeeps(who, s, i, Ended);
          }
        }
      case Crash(_) => PhaseKeeps(who, s, i, Ended);
    }
  }

  lemma {:induction false} RunsAreCareful(decode: bytes -> Decoding, who: seq<Request>, actions: seq<Action>)
    requires AllValid(who)
    ensures Careful(who, Execute(decode, who, actions))
  {
    if actions != [] {
      var init := actions[..|actions| - 1];
      RunsAreCareful(decode, who, init);
      LedgerIsSafe(decode, who, init);
      ActKeepsCareful(decode, who, Execute(decode, who, init), actions[|actions| - 1]);
    }
  }

  /** Every dispatch is contacted at most once, and only while its durable record says that
      contact has started. A slot is free only for a run whose durable record shows no contact
      or an observed response, and an outcome that is known. */
  lemma OneContactConservativeRelease(decode: bytes -> Decoding, who: seq<Request>, actions: seq<Action>)
    requires AllValid(who)
    ensures var s := Execute(decode, who, actions);
      && (forall j, k | 0 <= j < k < |s.contacts| :: s.contacts[j] != s.contacts[k])
      && (forall d | d in s.contacts :: d in s.store.runs && !s.store.runs[d].record.contact.NOT_CONTACTED?)
      && (forall row | row in s.store.reservations && !row.active ::
            && row.dispatch in s.store.runs
            && (s.store.runs[row.dispatch].record.contact.NOT_CONTACTED?
                || s.store.runs[row.dispatch].record.contact.RESPONSE_OBSERVED?)
            && !EndsInOutcomeUnknown(s.store.runs[row.dispatch].record.state))
  {
    var s := Execute(decode, who, actions);
    RunsAreCareful(decode, who, actions);
    forall row | row in s.store.reservations && !row.active
      ensures row.dispatch in s.store.runs && Conclusive(s.store.runs[row.dispatch].record)
    {
      var k :| 0 <= k < |s.store.reservations| && s.store.reservations[k] == row;
      assert ReleasedSoundly(s, s.store.reservations[k]);
    }
    forall d | d in s.contacts
      ensures OnRecord(s, d)
    {
      var k :| 0 <= k < |s.contacts| && s.contacts[k] == d;
      assert OnRecord(s, s.contacts[k]);
    }
  }

  // ---- Money ----

  /** The fixed-price cost of a run that completed with observed usage. */
  function Cost(config: LedgerConfig, record: Record): real {
    if record.state.PROVIDER_COMPLETED? && record.usage.Some? then
      record.usage.value.promptTokens * config.promptTokenPriceMicros as real
      + record.usage.value.completionTokens * config.completionTokenPriceMicros as real
    else 0.0
  }

  /** What the completed runs among these reservations cost together. */
  function Spent(s: Store, rows: seq<Reservation>, scope: string): real {
    if rows == [] then 0.0
    else
      var last := rows[|rows| - 1];
      Spent(s, rows[..|rows| - 1], scope) +
      if last.scope == scope && last.dispatch in s.runs && scope in s.configs
      then Cost(s.configs[scope], s.runs[last.dispatch].record) else 0.0
  }

  lemma Product(tokens: real, maximum: int, price: int)
    requires tokens <= maximum as real && price >= 1
    ensures tokens * price as real <= (maximum * price) as real
  {
    assert tokens * price as real <= maximum as real * price as real;
  }

  /** One run never costs more than it reserved. */
  lemma CostIsReserved(s: System, row: Reservation)
    requires Backed(s.store, row) && RowSound(s, row.dispatch)
    ensures Cost(s.store.configs[row.scope], s.store.runs[row.dispatch].record) <= row.reservedMicros as real
  {
    var run := s.store.runs[row.dispatch];
    var e := run.request.enrollment.value;
    if run.record.state.PROVIDER_COMPLETED? && run.record.usage.Some? {
      Product(run.record.usage.value.promptTokens, e.maximumPromptTokens, e.config.promptTokenPriceMicros);
      Product(run.record.usage.value.completionTokens, e.maximumCompletionTokens, e.config.completionTokenPriceMicros);
    }
  }

  lemma {:induction false} SpentIsReserved(s: System, rows: seq<Reservation>, scope: string)
    requires forall k | 0 <= k < |rows| :: Backed(s.store, rows[k]) && RowSound(s, rows[k].dispatch)
    ensures Spent(s.store, rows, scope) <= TotalReserved(rows, scope) as real
  {
    if rows != [] {
      var last := rows[|rows| - 1];
      SpentIsReserved(s, rows[..|rows| - 1], scope);
      CostIsReserved(s, last);
    }
  }

  /** Over every interleaving and crash: what the completed runs of a scope cost at the enrolled
      prices never sums to more than the budget the scope is pinned to. */
  lemma SpendStaysWithinBudget(decode: bytes -> Decoding, who: seq<Request>, actions: seq<Action>, scope: string)
    requires AllValid(who)
    requires scope in Execute(decode, who, actions).store.configs
    ensures var s := Execute(decode, who, actions).store;
      Spent(s, s.reservations, scope) <= s.configs[scope].spendBudgetMicros as real
  {
    var s := Execute(decode, who, actions);
    LedgerIsSafe(decode, who, actions);
    RunsAreCareful(decode, who, actions);
    forall k | 0 <= k < |s.store.reservations|
      ensures Backed(s.store, s.store.reservations[k]) && RowSound(s, s.store.reservations[k].dispatch)
    {
    }
    SpentIsReserved(s, s.store.reservations, scope);
    assert WithinScope(s.store, scope);
  }
}
