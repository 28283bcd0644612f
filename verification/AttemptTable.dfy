/** The whole attempts table under any interleaving of adapters: each attempt's row, taken by
    itself, runs as the one-row machine does. */
module AttemptTable {
  import opened Wrappers
  import opened AttemptStore
  import opened AttemptTerminality
  import opened SealedMessage

  /** One transaction on the table: an admission, or a step on one attempt. */
  datatype Step = Admit(id: string) | On(attempt: string, action: Action)

  /** What is known of an attempt besides its row. */
  datatype Books = Books(phases: seq<Phase>, observed: set<string>, sealings: seq<Sealing>)

  datatype Store = Store(table: Table, books: map<string, Books>)

  ghost predicate Matched(st: Store) {
    st.table.Keys == st.books.Keys
  }

  /** One attempt by itself. */
  function View(st: Store, id: string): System
    requires id in st.table && id in st.books
  {
    System(st.table[id], st.books[id].phases, st.books[id].observed, st.books[id].sealings)
  }

  /** The one UPDATE a step issues, if it issues any. */
  function UpdateOf(rules: Rules, s: System, a: Action): Option<Write> {
    match a
    case Ordinary(w) => if w.Seal? then None else Some(w)
    case CheckCut(i) =>
      if i < |s.phases| && s.phases[i].Cutting? && !Confirmed(s.phases[i].cut) then Some(MarkIndeterminate) else None
    case TrySeal(i) =>
      if i < |s.phases| && s.phases[i].Loaded? then
        var receipt := rules.receiptOf(s.phases[i].message);
        Some(if receipt.None? then MarkIndeterminate else Seal(receipt.value))
      else None
    case _ => None
  }

  function Perform(rules: Rules, adapters: nat, st: Store, step: Step): Store {
    match step
    case Admit(id) =>
      if id in st.table then st
      else Store(st.table[id := FRESH], st.books[id := Books(seq(adapters, i => Idle), {}, [])])
    case On(id, a) =>
      if id !in st.table || id !in st.books then st
      else
        var s := View(st, id);
        var update, s' := UpdateOf(rules, s, a), Act(rules, s, a);
        Store(if update.Some? then Written(st.table, id, update.value, rules.maximumOutputBytes).1 else st.table,
              st.books[id := Books(s'.phases, s'.observed, s'.sealings)])
  }

  function ExecuteStore(rules: Rules, adapters: nat, steps: seq<Step>): Store {
    if steps == [] then Store(map[], map[])
    else Perform(rules, adapters, ExecuteStore(rules, adapters, steps[..|steps| - 1]), steps[|steps| - 1])
  }

  /** The steps on one attempt since it was admitted. */
  function ActionsOn(steps: seq<Step>, id: string): seq<Action> {
    if steps == [] then []
    else
      var init, last := steps[..|steps| - 1], steps[|steps| - 1];
      ActionsOn(init, id) + if last.On? && last.attempt == id && Admit(id) in init then [last.action] else []
  }

  /** The one-row view of an update of the table. */
  lemma OneRowOfTheStore(rules: Rules, t: Table, id: string, w: Write)
    requires id in t
    ensures Written(t, id, w, rules.maximumOutputBytes).1 == t[id := Write1(rules, t[id], w)]
  {
    assert ChangesOf(w, rules.maximumOutputBytes) != NO_CHANGES;
  }

  /** A step changes the row by its one update and in no other way. */
  lemma ActUpdates(rules: Rules, s: System, a: Action)
    ensures var update := UpdateOf(rules, s, a);
      Act(rules, s, a).row == if update.Some? then Write1(rules, s.row, update.value) else s.row
  {
    hide Write1;
  }

  lemma PerformOn(rules: Rules, adapters: nat, st: Store, id: string, a: Action)
    requires Matched(st) && id in st.table
    ensures var st' := Perform(rules, adapters, st, On(id, a));
      && Matched(st') && st'.table.Keys == st.table.Keys
      && View(st', id) == Act(rules, View(st, id), a)
      && forall other | other in st.table && other != id :: View(st', other) == View(st, other)
  {
    hide Act, Written, UpdateOf;
    var s := View(st, id);
    ActUpdates(rules, s, a);
    if UpdateOf(rules, s, a).Some? {
      OneRowOfTheStore(rules, st.table, id, UpdateOf(rules, s, a).value);
    }
  }

  /** Over every interleaving on the whole table, every attempt is where its own steps since its
      admission lead: no attempt ever touches another. */
  lemma {:induction false} StoreRunsAreRowRuns(rules: Rules, adapters: nat, steps: seq<Step>)
    ensures var st := ExecuteStore(rules, adapters, steps);
      && Matched(st)
      && (forall id :: id in st.table <==> Admit(id) in steps)
      && forall id | id in st.table :: View(st, id) == Execute(rules, adapters, ActionsOn(steps, id))
  {
    hide Act, Written, UpdateOf;
    if steps != [] {
      var init, last := steps[..|steps| - 1], steps[|steps| - 1];
      var st, st' := ExecuteStore(rules, adapters, init), ExecuteStore(rules, adapters, steps);
      StoreRunsAreRowRuns(rules, adapters, init);
      assert steps == init + [last];
      if last.On? && last.attempt in st.table {
        PerformOn(rules, adapters, st, last.attempt, last.action);
      }
      forall id | id in st'.table
        ensures View(st', id) == Execute(rules, adapters, ActionsOn(steps, id))
      {
        var acts := ActionsOn(init, id);
        if last == Admit(id) && id !in st.table {
          NoneBefore(init, id);
        } else if last.On? && last.attempt == id {
          assert (acts + [last.action])[..|acts|] == acts;
        } else {
          assert ActionsOn(steps, id) == acts;
        }
      }
    }
  }

  lemma {:induction false} NoneBefore(steps: seq<Step>, id: string)
    requires Admit(id) !in steps
    ensures ActionsOn(steps, id) == []
  {
    if steps != [] {
      NoneBefore(steps[..|steps| - 1], id);
    }
  }

  /** So what is proved of one row holds of every attempt of the table. */
  lemma EveryAttemptIsSound(rules: Rules, adapters: nat, steps: seq<Step>, id: string)
    requires Admit(id) in steps
    ensures var st := ExecuteStore(rules, adapters, steps);
      && id in st.table && id in st.books && Sound(rules, View(st, id))
      && (Undisturbed(ActionsOn(steps, id)) && st.table[id].status.TERMINAL? ==>
            && st.table[id].finalMessage.Some?
            && st.table[id].receipt == rules.receiptOf(st.table[id].finalMessage.value))
  {
    StoreRunsAreRowRuns(rules, adapters, steps);
    TerminalMeans(rules, adapters, ActionsOn(steps, id));
    if Undisturbed(ActionsOn(steps, id)) {
      UndisturbedSealMatches(rules, adapters, ActionsOn(steps, id));
    }
  }
}
