/** Any number of adapters writing one attempt row, in any interleaving: what is absorbing, when
    a receipt exists, and what a terminal row was sealed from. */
module AttemptTerminality {
  import opened Wrappers
  import opened Utf8
  import opened AppServerProtocol
  import opened BoundedText
  import opened AttemptStore

  /** How far one `collect` has come. */
  datatype Phase =
    | Idle
    | Cutting(cut: AcquisitionCut)
    | Finalized(cut: AcquisitionCut)
    | Loaded(cut: AcquisitionCut, message: string)
    | Ended

  /** One transaction of one adapter. An ordinary write is any of the adapter's own but the
      seal, which only `collect` makes. */
  datatype Action =
    | Ordinary(write: Write)
    | TakeCut(who: nat, cut: AcquisitionCut)
    | CheckCut(who: nat)
    | LoadMessage(who: nat)
    | TrySeal(who: nat)

  /** What a terminal row was made from. */
  datatype Sealing = Sealing(cut: AcquisitionCut, message: string)

  /** The row, the collectors, and the history: every final agent text any turn was observed
      with, and every sealing. */
  datatype System = System(row: Attempt, phases: seq<Phase>, observed: set<string>, sealings: seq<Sealing>)

  /** The fixed surroundings: the output bound, and the receipt an exact outcome leads to. */
  datatype Rules = Rules(maximumOutputBytes: nat, receiptOf: string -> Option<string>)

  function Write1(rules: Rules, row: Attempt, w: Write): Attempt {
    var c := ChangesOf(w, rules.maximumOutputBytes);
    if Permitted(row.status, c) then Changed(row, c) else row
  }

  function TextOf(w: Write): set<string> {
    if w.Observed? && w.text.Some? then {w.text.value} else {}
  }

  function Become(s: System, who: nat, phase: Phase): System
    requires who < |s.phases|
  {
    s.(phases := s.phases[who := phase])
  }

  function Act(rules: Rules, s: System, a: Action): System {
    match a
    case Ordinary(w) =>
      if w.Seal? then s
      else s.(row := Write1(rules, s.row, w), observed := s.observed + TextOf(w))
    case TakeCut(i, cut) => if i < |s.phases| && s.phases[i].Idle? then Become(s, i, Cutting(cut)) else s
    case CheckCut(i) =>
      if i >= |s.phases| || !s.phases[i].Cutting? then s
      else if !Confirmed(s.phases[i].cut) then Become(s.(row := Write1(rules, s.row, MarkIndeterminate)), i, Ended)
      else if s.row.status.INDETERMINATE? then Become(s, i, Ended)
      else Become(s, i, Finalized(s.phases[i].cut))
    case LoadMessage(i) =>
      if i >= |s.phases| || !s.phases[i].Finalized? then s
      else if s.row.status.PROVIDER_COMPLETED? && s.row.finalMessage.Some?
      then Become(s, i, Loaded(s.phases[i].cut, s.row.finalMessage.value))
      else Become(s, i, Ended)
    case TrySeal(i) =>
      if i >= |s.phases| || !s.phases[i].Loaded? then s
      else
        var Loaded(cut, message) := s.phases[i];
        match rules.receiptOf(message)
        case None => Become(s.(row := Write1(rules, s.row, MarkIndeterminate)), i, Ended)
        case Some(receipt) =>
          var row := Write1(rules, s.row, Seal(receipt));
          var sealings := if row != s.row then s.sealings + [Sealing(cut, message)] else s.sealings;
          Become(s.(row := row, sealings := sealings), i, Ended)
  }

  function Execute(rules: Rules, adapters: nat, actions: seq<Action>): System {
    if actions == [] then System(FRESH, seq(adapters, i => Idle), {}, [])
    else Act(rules, Execute(rules, adapters, actions[..|actions| - 1]), actions[|actions| - 1])
  }

  // ---- Absorbing states ----

  /** Nothing leaves indeterminacy, and nothing at all changes a terminal row. */
  predicate Absorbs(row: Attempt, row': Attempt) {
    && (row.status.INDETERMINATE? ==> row'.status.INDETERMINATE?)
    && (row.status.TERMINAL? ==> row' == row)
  }

  lemma ActAbsorbs(rules: Rules, s: System, a: Action)
    ensures Absorbs(s.row, Act(rules, s, a).row)
  {
  }

  lemma {:induction false} RunsAbsorb(rules: Rules, adapters: nat, actions: seq<Action>, more: seq<Action>)
    ensures Absorbs(Execute(rules, adapters, actions).row, Execute(rules, adapters, actions + more).row)
  {
    if more == [] {
      assert actions + more == actions;
    } else {
      var init := more[..|more| - 1];
      RunsAbsorb(rules, adapters, actions, init);
      assert (actions + more)[..|actions + more| - 1] == actions + init;
      ActAbsorbs(rules, Execute(rules, adapters, actions + init), more[|more| - 1]);
    }
  }

  // ---- What a terminal row means ----

  /** A text some observed turn really ended with, within the bound: nothing was cut off. */
  predicate Whole(rules: Rules, observed: set<string>, message: string) {
    message in observed && |Encode(message)| <= rules.maximumOutputBytes
  }

  /** A collector past its check holds a confirmed cut; past its load, a whole message. */
  predicate PhaseSound(rules: Rules, observed: set<string>, phase: Phase) {
    match phase
    case Finalized(cut) => Confirmed(cut)
    case Loaded(cut, message) => Confirmed(cut) && Whole(rules, observed, message)
    case _ => true
  }

  ghost predicate Sound(rules: Rules, s: System) {
    && (s.row.receipt.Some? <==> s.row.status.TERMINAL?)
    && (!s.row.status.INDETERMINATE? && s.row.finalMessage.Some? ==> Whole(rules, s.observed, s.row.finalMessage.value))
    && (forall i | 0 <= i < |s.phases| :: PhaseSound(rules, s.observed, s.phases[i]))
    && |s.sealings| == (if s.row.status.TERMINAL? then 1 else 0)
    && (s.row.status.TERMINAL? ==>
          && Confirmed(s.sealings[0].cut) && Whole(rules, s.observed, s.sealings[0].message)
          && s.row.receipt == rules.receiptOf(s.sealings[0].message))
  }

  lemma WriteKeepsRow(rules: Rules, observed: set<string>, row: Attempt, w: Write)
    requires row.receipt.Some? <==> row.status.TERMINAL?
    requires !row.status.INDETERMINATE? && row.finalMessage.Some? ==> Whole(rules, observed, row.finalMessage.value)
    ensures var row' := Write1(rules, row, w);
      && (row'.receipt.Some? <==> row'.status.TERMINAL?)
      && (!row'.status.INDETERMINATE? && row'.finalMessage.Some? ==>
            Whole(rules, observed + TextOf(w), row'.finalMessage.value))
      && (!w.Seal? ==> (row'.status.TERMINAL? <==> row.status.TERMINAL?))
      && (row.status.TERMINAL? ==> row' == row)
      && (w.Seal? && row' != row ==> row'.status.TERMINAL? && row'.receipt == Some(w.receipt) && !row.status.TERMINAL?)
  {
    if w.Observed? && w.text.Some? {
      BoundedIsLongest(w.text.value, rules.maximumOutputBytes);
    }
  }

  lemma SealKeepsSound(rules: Rules, s: System, i: nat)
    requires Sound(rules, s) && i < |s.phases|
    ensures Sound(rules, Act(rules, s, TrySeal(i)))
  {
    hide ChangesOf, Permitted, Changed;
    WriteKeepsRow(rules, s.observed, s.row, MarkIndeterminate);
    assert PhaseSound(rules, s.observed, s.phases[i]);
    if s.phases[i].Loaded? && rules.receiptOf(s.phases[i].message).Some? {
      WriteKeepsRow(rules, s.observed, s.row, Seal(rules.receiptOf(s.phases[i].message).value));
    }
  }

  lemma ActKeepsSound(rules: Rules, s: System, a: Action)
    requires Sound(rules, s)
    ensures Sound(rules, Act(rules, s, a))
  {
    hide ChangesOf, Permitted, Changed;
    match a
    case Ordinary(w) => WriteKeepsRow(rules, s.observed, s.row, w);
    case CheckCut(i) => WriteKeepsRow(rules, s.observed, s.row, MarkIndeterminate);
    case TrySeal(i) =>
      if i < |s.phases| {
        SealKeepsSound(rules, s, i);
      }
    case _ =>
  }

  /** Over every interleaving: a receipt exists exactly when the attempt is terminal, and a
      terminal attempt was sealed once, from a whole message, by a collector that held a
      quiesced, lossless cut with confirmed exit. */
  lemma {:induction false} TerminalMeans(rules: Rules, adapters: nat, actions: seq<Action>)
    ensures Sound(rules, Execute(rules, adapters, actions))
    ensures var s := Execute(rules, adapters, actions);
      s.row.status == TERMINAL ==>
        && |s.sealings| == 1
        && var cut := s.sealings[0].cut;
        && cut.streamQuiesced && cut.lossGeneration == 0
        && cut.processDisposition in {EXITED, EXITED_AFTER_TERMINATE, EXITED_AFTER_KILL}
  {
    if actions != [] {
      TerminalMeans(rules, adapters, actions[..|actions| - 1]);
      ActKeepsSound(rules, Execute(rules, adapters, actions[..|actions| - 1]), actions[|actions| - 1]);
    }
  }
}
