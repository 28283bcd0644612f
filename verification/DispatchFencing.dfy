/** Any number of runners and closers on one store, in any interleaving of their transactions
    and with crashes anywhere: who may contact the provider, and what never changes. */
module DispatchFencing {
  import opened Wrappers
  import opened Json
  import opened DispatchStore

  /** Where a process is between two transactions. `Waiting` has looked and found nothing, or is
      a closer that never looks; `Owner` holds a fresh claim. */
  datatype Phase =
    | Begun
    | Waiting
    | Owner(record: Record)
    | Contacting(record: Record)
    | Ended

  datatype Action =
    | Look(who: nat)
    | TakeClaim(who: nat)
    | TakeClosure(who: nat, closure: Closure)
    | StartBackend(who: nat)
    | Save(who: nat, state: RecordState, evidence: Json)
    | Stop(who: nat)

  /** What a process did to the store for its dispatch. */
  datatype Event = FreshClaim(dispatch: string, claimant: nat) | FreshClosure(dispatch: string, closer: nat)

  datatype System = System(table: Table, phases: seq<Phase>, events: seq<Event>)

  function Start(count: nat): System {
    System(map[], seq(count, i => Begun), [])
  }

  function Become(s: System, who: nat, phase: Phase): System
    requires who < |s.phases|
  {
    s.(phases := s.phases[who := phase])
  }

  /** One transaction of one process; a step that process cannot take changes nothing. A runner
      closes or claims only after its look found nothing; a closer closes without looking. */
  function Act(rules: Rules, who: seq<Admitted>, s: System, a: Action): System
    requires |who| == |s.phases|
  {
    if a.who >= |who| then s
    else
      var me, phase := who[a.who], s.phases[a.who];
      match a
      case Look(i) =>
        if !phase.Begun? then s
        else Become(s, i, if Lookup(s.table, me) == Ok(None) then Waiting else Ended)
      case TakeClaim(i) =>
        if !phase.Waiting? then s
        else
          var (r, table) := Claim(s.table, me);
          if r.Ok? && r.value.1
          then Become(s.(table := table, events := s.events + [FreshClaim(me.dispatch, i)]), i, Owner(r.value.0))
          else Become(s, i, Ended)
      case TakeClosure(i, closure) =>
        if !phase.Begun? && !phase.Waiting? then s
        else
          var (r, table) := ClosePrelaunch(rules, s.table, me, closure);
          var events := if table != s.table then s.events + [FreshClosure(me.dispatch, i)] else s.events;
          Become(s.(table := table, events := events), i, Ended)
      case StartBackend(i) => if phase.Owner? then Become(s, i, Contacting(phase.record)) else s
      case Save(i, state, evidence) =>
        if (phase.Owner? || phase.Contacting?) && !state.PRELAUNCH_CLOSED? then
          var record := phase.record.(state := state, evidence := evidence);
          Become(s.(table := Update(s.table, record)), i,
                 if phase.Owner? then Owner(record) else Contacting(record))
        else s
      case Stop(i) => Become(s, i, Ended)
  }

  function Execute(rules: Rules, who: seq<Admitted>, actions: seq<Action>): (s: System)
    ensures |s.phases| == |who|
  {
    if actions == [] then Start(|who|)
    else Act(rules, who, Execute(rules, who, actions[..|actions| - 1]), actions[|actions| - 1])
  }

  // ---- What every interleaving keeps ----

  predicate Holds(phase: Phase) {
    phase.Owner? || phase.Contacting?
  }

  /** A process with a fresh claim still has exactly its own row. */
  predicate Owns(who: seq<Admitted>, s: System, i: nat)
    requires i < |who| == |s.phases|
  {
    Holds(s.phases[i]) ==>
      && who[i].dispatch in s.table
      && s.table[who[i].dispatch] == Row(who[i].inputs, s.phases[i].record)
      && s.phases[i].record.dispatch == who[i].dispatch
      && s.phases[i].record.dispatchRecord == who[i].dispatchRecord
      && FreshClaim(who[i].dispatch, i) in s.events
  }

  predicate RowKind(s: System, dispatch: string) {
    dispatch in s.table ==>
      && s.table[dispatch].record.dispatch == dispatch
      && (s.table[dispatch].record.state.PRELAUNCH_CLOSED? <==> s.table[dispatch].record.prelaunchClosure.Some?)
  }

  /** The event that created a row tells what the row is, for good. */
  predicate EventKind(s: System, e: Event) {
    && e.dispatch in s.table
    && (s.table[e.dispatch].record.state.PRELAUNCH_CLOSED? <==> e.FreshClosure?)
  }

  ghost predicate Fenced(who: seq<Admitted>, s: System) {
    && |who| == |s.phases|
    && (forall i: nat | i < |who| :: Owns(who, s, i))
    && (forall d | d in s.table :: RowKind(s, d))
    && (forall k | 0 <= k < |s.events| :: EventKind(s, s.events[k]))
    && (forall j, k | 0 <= j < k < |s.events| :: s.events[j].dispatch != s.events[k].dispatch)
  }

  lemma ClaimKeepsFenced(rules: Rules, who: seq<Admitted>, s: System, i: nat)
    requires Fenced(who, s) && i < |who|
    ensures Fenced(who, Act(rules, who, s, TakeClaim(i)))
  {
    var s' := Act(rules, who, s, TakeClaim(i));
    if s.phases[i].Waiting? && who[i].dispatch !in s.table {
      var e := FreshClaim(who[i].dispatch, i);
      assert s'.events == s.events + [e];
      assert e in s'.events;
      forall k | 0 <= k < |s.events|
        ensures s.events[k].dispatch != e.dispatch && EventKind(s', s.events[k])
      {
        assert EventKind(s, s.events[k]);
      }
      forall j: nat | j < |who|
        ensures Owns(who, s', j)
      {
        assert Owns(who, s, j);
      }
      forall d | d in s'.table
        ensures RowKind(s', d)
      {
        assert d in s.table ==> RowKind(s, d);
      }
    } else {
      PhaseKeepsFenced(who, s, i, s'.phases[i]);
      assert s' == Become(s, i, s'.phases[i]);
    }
  }

  lemma PhaseKeepsFenced(who: seq<Admitted>, s: System, i: nat, phase: Phase)
    requires Fenced(who, s) && i < |who| && (Holds(phase) ==> Holds(s.phases[i]) && phase.record == s.phases[i].record)
    ensures Fenced(who, Become(s, i, phase))
  {
    var s' := Become(s, i, phase);
    forall j: nat | j < |who|
      ensures Owns(who, s', j)
    {
      assert Owns(who, s, j);
    }
    forall d | d in s'.table
      ensures RowKind(s', d)
    {
      assert RowKind(s, d);
    }
    forall k | 0 <= k < |s'.events|
      ensures EventKind(s', s'.events[k])
    {
      assert EventKind(s, s.events[k]);
    }
  }

  lemma ClosureKeepsFenced(rules: Rules, who: seq<Admitted>, s: System, i: nat, closure: Closure)
    requires Fenced(who, s) && i < |who|
    ensures Fenced(who, Act(rules, who, s, TakeClosure(i, closure)))
  {
    var s' := Act(rules, who, s, TakeClosure(i, closure));
    var (r, table) := ClosePrelaunch(rules, s.table, who[i], closure);
    if (s.phases[i].Begun? || s.phases[i].Waiting?) && table != s.table {
      var e := FreshClosure(who[i].dispatch, i);
      assert s'.events == s.events + [e];
      forall k | 0 <= k < |s.events|
        ensures s.events[k].dispatch != e.dispatch && EventKind(s', s.events[k])
      {
        assert EventKind(s, s.events[k]);
      }
      forall j: nat | j < |who|
        ensures Owns(who, s', j)
      {
        assert Owns(who, s, j);
      }
      forall d | d in s'.table
        ensures RowKind(s', d)
      {
        assert d in s.table ==> RowKind(s, d);
      }
    } else {
      PhaseKeepsFenced(who, s, i, s'.phases[i]);
      assert s' == Become(s, i, s'.phases[i]);
    }
  }

  /** Two processes cannot both hold a fresh claim of the same dispatch. */
  lemma OneOwner(who: seq<Admitted>, s: System, i: nat, j: nat)
    requires Fenced(who, s) && i < |who| && j < |who| && Holds(s.phases[i]) && Holds(s.phases[j])
    ensures who[i].dispatch == who[j].dispatch ==> i == j
  {
    assert Owns(who, s, i) && Owns(who, s, j);
    var a :| 0 <= a < |s.events| && s.events[a] == FreshClaim(who[i].dispatch, i);
    var b :| 0 <= b < |s.events| && s.events[b] == FreshClaim(who[j].dispatch, j);
  }

  lemma SaveKeepsFenced(rules: Rules, who: seq<Admitted>, s: System, i: nat, state: RecordState, evidence: Json)
    requires Fenced(who, s) && i < |who|
    ensures Fenced(who, Act(rules, who, s, Save(i, state, evidence)))
  {
    var s' := Act(rules, who, s, Save(i, state, evidence));
    if Holds(s.phases[i]) && !state.PRELAUNCH_CLOSED? {
      assert Owns(who, s, i);
      var mine := who[i].dispatch;
      assert RowKind(s, mine);
      var a :| 0 <= a < |s.events| && s.events[a] == FreshClaim(mine, i);
      assert EventKind(s, s.events[a]);
      forall j: nat | j < |who|
        ensures Owns(who, s', j)
      {
        assert Owns(who, s, j);
        if j != i && Holds(s.phases[j]) {
          OneOwner(who, s, i, j);
        }
      }
      forall d | d in s'.table
        ensures RowKind(s', d)
      {
        assert RowKind(s, d);
      }
      forall k | 0 <= k < |s'.events|
        ensures EventKind(s', s'.events[k])
      {
        assert EventKind(s, s.events[k]);
      }
    }
  }

  lemma ActKeepsFenced(rules: Rules, who: seq<Admitted>, s: System, a: Action)
    requires Fenced(who, s)
    ensures Fenced(who, Act(rules, who, s, a))
  {
    if a.who < |who| {
      match a
      case Look(i) =>
        if s.phases[i].Begun? {
          PhaseKeepsFenced(who, s, i, if Lookup(s.table, who[i]) == Ok(None) then Waiting else Ended);
        }
      case TakeClaim(i) => ClaimKeepsFenced(rules, who, s, i);
      case TakeClosure(i, closure) => ClosureKeepsFenced(rules, who, s, i, closure);
      case StartBackend(i) =>
        if s.phases[i].Owner? {
          PhaseKeepsFenced(who, s, i, Contacting(s.phases[i].record));
        }
      case Save(i, state, evidence) => SaveKeepsFenced(rules, who, s, i, state, evidence);
      case Stop(i) => PhaseKeepsFenced(who, s, i, Ended);
    }
  }

  lemma {:induction false} RunsAreFenced(rules: Rules, who: seq<Admitted>, actions: seq<Action>)
    ensures Fenced(who, Execute(rules, who, actions))
  {
    if actions != [] {
      RunsAreFenced(rules, who, actions[..|actions| - 1]);
      ActKeepsFenced(rules, who, Execute(rules, who, actions[..|actions| - 1]), actions[|actions| - 1]);
    }
  }

  /** Over every interleaving: two processes at the provider for one dispatch are the same
      process, and none is there for a dispatch that is or ever was closed before launch. A
      dispatch is freshly claimed or freshly closed at most once, and never both. */
  lemma AtMostOneContact(rules: Rules, who: seq<Admitted>, actions: seq<Action>, i: nat, j: nat)
    requires i < |who| && j < |who| && who[i].dispatch == who[j].dispatch
    requires Execute(rules, who, actions).phases[i].Contacting?
    ensures Execute(rules, who, actions).phases[j].Contacting? ==> i == j
    ensures forall e | e in Execute(rules, who, actions).events :: e.dispatch == who[i].dispatch ==>
      e == FreshClaim(who[i].dispatch, i)
  {
    var s := Execute(rules, who, actions);
    RunsAreFenced(rules, who, actions);
    if s.phases[j].Contacting? {
      OneOwner(who, s, i, j);
    }
    assert Owns(who, s, i);
    var b :| 0 <= b < |s.events| && s.events[b] == FreshClaim(who[i].dispatch, i);
  }

  // ---- What never changes ----

  /** Rows are never removed, their admitted bytes never change, and a closed row never
      changes at all. */
  ghost predicate Keeps(t: Table, t': Table) {
    forall d | d in t ::
      && d in t' && t'[d].inputs == t[d].inputs
      && t'[d].record.dispatchRecord == t[d].record.dispatchRecord
      && (t[d].record.state.PRELAUNCH_CLOSED? <==> t'[d].record.state.PRELAUNCH_CLOSED?)
      && (t[d].record.state.PRELAUNCH_CLOSED? ==> t'[d] == t[d])
  }

  lemma ActKeepsRows(rules: Rules, who: seq<Admitted>, s: System, a: Action)
    requires Fenced(who, s)
    ensures Keeps(s.table, Act(rules, who, s, a).table)
  {
    if a.who < |who| && Holds(s.phases[a.who]) {
      assert Owns(who, s, a.who);
      var k :| 0 <= k < |s.events| && s.events[k] == FreshClaim(who[a.who].dispatch, a.who);
      assert EventKind(s, s.events[k]);
    }
  }

  /** Over any continuation of any interleaving. */
  lemma {:induction false} RunsKeepRows(rules: Rules, who: seq<Admitted>, actions: seq<Action>, more: seq<Action>)
    ensures Keeps(Execute(rules, who, actions).table, Execute(rules, who, actions + more).table)
  {
    if more == [] {
      assert actions + more == actions;
    } else {
      var init := more[..|more| - 1];
      RunsKeepRows(rules, who, actions, init);
      assert (actions + more)[..|actions + more| - 1] == actions + init;
      RunsAreFenced(rules, who, actions + init);
      ActKeepsRows(rules, who, Execute(rules, who, actions + init), more[|more| - 1]);
    }
  }

  // ---- Where rows come from ----

  /** The process whose transaction made the row. */
  function Creator(e: Event): nat {
    match e
    case FreshClaim(_, i) => i
    case FreshClosure(_, i) => i
  }

  /** The row is still of what its creator brought, and of the closure that was made for it. */
  ghost predicate Created(rules: Rules, who: seq<Admitted>, t: Table, e: Event) {
    && Creator(e) < |who| && who[Creator(e)].dispatch == e.dispatch && e.dispatch in t
    && var maker, row := who[Creator(e)], t[e.dispatch];
    && row.inputs == maker.inputs && row.record.dispatchRecord == maker.dispatchRecord
    && (e.FreshClosure? ==>
          && row.record.prelaunchClosure.Some?
          && var closure := row.record.prelaunchClosure.value;
          && rules.valid(closure) && closure.binding == rules.binding(maker))
  }

  ghost predicate Originated(rules: Rules, who: seq<Admitted>, s: System) {
    && (forall k | 0 <= k < |s.events| :: Created(rules, who, s.table, s.events[k]))
    && (forall d | d in s.table :: exists k :: 0 <= k < |s.events| && s.events[k].dispatch == d)
  }

  /** A step makes no row, or one row and its event. */
  lemma ActCreates(rules: Rules, who: seq<Admitted>, s: System, a: Action)
    requires |who| == |s.phases|
    requires forall i: nat | i < |who| :: Owns(who, s, i)
    ensures var s' := Act(rules, who, s, a);
      || (s'.events == s.events && s'.table.Keys == s.table.Keys)
      || (&& |s'.events| == |s.events| + 1 && s'.events[..|s.events|] == s.events
          && var e := s'.events[|s.events|];
          && s'.table.Keys == s.table.Keys + {e.dispatch} && Created(rules, who, s'.table, e))
  {
    if a.who < |who| {
      assert Owns(who, s, a.who);
    }
  }

  lemma StaysCreated(rules: Rules, who: seq<Admitted>, s: System, t': Table, e: Event)
    requires Created(rules, who, s.table, e) && EventKind(s, e) && Keeps(s.table, t')
    ensures Created(rules, who, t', e)
  {
  }

  lemma ActOriginates(rules: Rules, who: seq<Admitted>, s: System, a: Action)
    requires Fenced(who, s) && Originated(rules, who, s)
    ensures Originated(rules, who, Act(rules, who, s, a))
  {
    hide Act, Keeps, Created;
    var s' := Act(rules, who, s, a);
    ActKeepsRows(rules, who, s, a);
    ActCreates(rules, who, s, a);
    forall k | 0 <= k < |s.events|
      ensures Created(rules, who, s'.table, s.events[k]) && s'.events[k] == s.events[k]
    {
      StaysCreated(rules, who, s, s'.table, s.events[k]);
    }
    forall d | d in s'.table
      ensures exists k :: 0 <= k < |s'.events| && s'.events[k].dispatch == d
    {
      if d in s.table {
        var k :| 0 <= k < |s.events| && s.events[k].dispatch == d;
        assert s'.events[k].dispatch == d;
      } else {
        assert s'.events[|s.events|].dispatch == d;
      }
    }
  }

  lemma {:induction false} RunsOriginate(rules: Rules, who: seq<Admitted>, actions: seq<Action>)
    ensures Originated(rules, who, Execute(rules, who, actions))
  {
    hide Act, Fenced, Originated;
    if actions == [] {
      StartOriginates(rules, who);
    } else {
      var init := actions[..|actions| - 1];
      RunsOriginate(rules, who, init);
      RunsAreFenced(rules, who, init);
      ActOriginates(rules, who, Execute(rules, who, init), actions[|actions| - 1]);
    }
  }

  lemma StartOriginates(rules: Rules, who: seq<Admitted>)
    ensures Originated(rules, who, Start(|who|))
  {
  }

  /** Over every interleaving: a dispatch is unknown exactly while nobody claimed or closed it; after
      that its retained record is handed out exactly to those who bring the same request, brief,
      backend and dispatch record as the one who did, and a closure is a valid one of that one's own
      binding. */
  lemma ReuseIsExact(rules: Rules, who: seq<Admitted>, actions: seq<Action>, i: nat)
    requires i < |who|
    ensures var s, me := Execute(rules, who, actions), who[i];
      var found := Lookup(s.table, me);
      && (found == Ok(None) <==> forall e | e in s.events :: e.dispatch != me.dispatch)
      && forall e | e in s.events && e.dispatch == me.dispatch ::
           && Creator(e) < |who| && me.dispatch in s.table
           && var maker, record := who[Creator(e)], s.table[me.dispatch].record;
           && (found.Ok? <==>
                 && maker.inputs.request == me.inputs.request && maker.inputs.brief == me.inputs.brief
                 && maker.inputs.backend == me.inputs.backend && maker.dispatchRecord == me.dispatchRecord)
           && (found.Ok? ==> found.value == Some(record))
           && (e.FreshClosure? <==> record.prelaunchClosure.Some?)
           && (e.FreshClosure? ==>
                 rules.valid(record.prelaunchClosure.value) && record.prelaunchClosure.value.binding == rules.binding(maker))
  {
    hide Execute;
    var s, me := Execute(rules, who, actions), who[i];
    RunsOriginate(rules, who, actions);
    RunsAreFenced(rules, who, actions);
    forall e | e in s.events && e.dispatch == me.dispatch
      ensures Created(rules, who, s.table, e) && EventKind(s, e) && RowKind(s, me.dispatch)
    {
      var k :| 0 <= k < |s.events| && s.events[k] == e;
      assert Created(rules, who, s.table, s.events[k]) && EventKind(s, s.events[k]);
    }
    if me.dispatch in s.table {
      var k :| 0 <= k < |s.events| && s.events[k].dispatch == me.dispatch;
      assert s.events[k] in s.events;
    }
  }

  /** A closure that was accepted is accepted again, by anyone, unchanged; and from then on
      nobody gets a fresh claim and nobody else's closure. */
  lemma ReclosureIsIdempotent(rules: Rules, t: Table, a: Admitted, closure: Closure, other: Closure)
    requires ClosePrelaunch(rules, t, a, closure).0.Ok?
    ensures var t' := ClosePrelaunch(rules, t, a, closure).1;
      && ClosePrelaunch(rules, t', a, closure) == (Ok(closure), t')
      && Claim(t', a).1 == t' && (Claim(t', a).0.Ok? ==> !Claim(t', a).0.value.1)
      && (other != closure ==> ClosePrelaunch(rules, t', a, other).0.Err? && ClosePrelaunch(rules, t', a, other).1 == t')
  {
  }
}
