/** Which message a terminal attempt's receipt was read from, told from the order of the steps
    alone: for every run, and under the occurrence lock. */
module SealedMessage {
  import opened Wrappers
  import opened Utf8
  import opened AppServerProtocol
  import opened BoundedText
  import opened AttemptStore
  import opened AttemptTerminality

  // ---- What the steps say about the stored message ----

  /** The text of the last turn observed, if any was. An inner None is a turn without one. */
  function LastObserved(actions: seq<Action>): Option<Option<string>> {
    if actions == [] then None
    else
      match actions[|actions| - 1]
      case Ordinary(Observed(text, _)) => Some(text)
      case _ => LastObserved(actions[..|actions| - 1])
  }

  function MessageAfter(actions: seq<Action>): Option<string> {
    var last := LastObserved(actions);
    if last.Some? then last.value else None
  }

  /** The last update of any kind that is not a seal. */
  function LastWrite(actions: seq<Action>): Option<Write> {
    if actions == [] then None
    else
      match actions[|actions| - 1]
      case Ordinary(w) => if w.Seal? then LastWrite(actions[..|actions| - 1]) else Some(w)
      case _ => LastWrite(actions[..|actions| - 1])
  }

  /** The status an attempt has after this update. */
  function StatusAfter(last: Option<Write>): Status {
    match last
    case None => ADMITTED
    case Some(ThreadStarted(_)) => STARTING
    case Some(TurnStarted(_)) => RUNNING_TURN
    case Some(UserMessageSeen) => RUNNING_TURN
    case Some(ApprovalSurfaced) => WAITING_APPROVAL
    case Some(Observed(_, completed)) => if completed then PROVIDER_COMPLETED else RUNNING_TURN
    case Some(MarkIndeterminate) => INDETERMINATE
    case Some(Seal(_)) => TERMINAL
  }

  predicate Open(row: Attempt) {
    !row.status.INDETERMINATE? && !row.status.TERMINAL?
  }

  /** The update gives up an open attempt: a turn that ends over the output bound, or a mark. */
  predicate GivesUp(rules: Rules, w: Write) {
    w.MarkIndeterminate? || (w.Observed? && w.text.Some? && |Encode(w.text.value)| > rules.maximumOutputBytes)
  }

  /** What an update makes of an open row, column by column. */
  lemma WriteOnOpen(rules: Rules, row: Attempt, w: Write)
    requires Open(row)
    ensures var row' := Write1(rules, row, w);
      && (row'.status.INDETERMINATE? <==> GivesUp(rules, w))
      && (!GivesUp(rules, w) ==>
            && row'.status == StatusAfter(Some(w))
            && row'.finalMessage == (if w.Observed? then w.text else row.finalMessage))
      && row'.threadId == (if w.ThreadStarted? then Some(w.threadId) else row.threadId)
      && row'.turnId == (if w.TurnStarted? then Some(w.turnId) else row.turnId)
      && row'.queueId == row.queueId && row'.receipt == (if w.Seal? then Some(w.receipt) else row.receipt)
  {
    if w.Observed? && w.text.Some? {
      BoundedIsLongest(w.text.value, rules.maximumOutputBytes);
    }
  }

  /** No update opens a row again. */
  lemma WriteNeverOpens(rules: Rules, row: Attempt, w: Write)
    requires !Open(row)
    ensures !Open(Write1(rules, row, w))
  {
  }

  /** A turn over the bound, a mark, a cut that is not confirmed, or an outcome that is not exact. */
  predicate ActGivesUp(rules: Rules, s: System, a: Action) {
    match a
    case Ordinary(w) => GivesUp(rules, w)
    case CheckCut(i) => i < |s.phases| && s.phases[i].Cutting? && !Confirmed(s.phases[i].cut)
    case TrySeal(i) => i < |s.phases| && s.phases[i].Loaded? && rules.receiptOf(s.phases[i].message).None?
    case _ => false
  }

  /** An action gives up an open attempt exactly in these four cases. */
  lemma GivenUpExactly(rules: Rules, s: System, a: Action)
    requires Open(s.row)
    ensures Act(rules, s, a).row.status.INDETERMINATE? <==> ActGivesUp(rules, s, a)
  {
    hide Write1;
    match a
    case Ordinary(w) => WriteOnOpen(rules, s.row, w);
    case CheckCut(_) => WriteOnOpen(rules, s.row, MarkIndeterminate);
    case TrySeal(i) =>
      WriteOnOpen(rules, s.row, MarkIndeterminate);
      if i < |s.phases| && s.phases[i].Loaded? && rules.receiptOf(s.phases[i].message).Some? {
        WriteOnOpen(rules, s.row, Seal(rules.receiptOf(s.phases[i].message).value));
      }
    case _ =>
  }

  lemma ActOnOpen(rules: Rules, s: System, a: Action)
    requires Open(Act(rules, s, a).row)
    ensures Open(s.row)
    ensures var row := Act(rules, s, a).row;
      if a.Ordinary? && !a.write.Seal? then row == Write1(rules, s.row, a.write) && !GivesUp(rules, a.write)
      else row == s.row
  {
    hide Write1;
    match a
    case Ordinary(w) =>
      if !w.Seal? {
        if Open(s.row) {
          WriteOnOpen(rules, s.row, w);
        } else {
          WriteNeverOpens(rules, s.row, w);
        }
      }
    case CheckCut(i) =>
      if Open(s.row) {
        WriteOnOpen(rules, s.row, MarkIndeterminate);
      } else {
        WriteNeverOpens(rules, s.row, MarkIndeterminate);
      }
    case TrySeal(i) => SealOnOpen(rules, s, i);
    case _ =>
  }

  lemma SealOnOpen(rules: Rules, s: System, i: nat)
    requires Open(Act(rules, s, TrySeal(i)).row)
    ensures Open(s.row) && Act(rules, s, TrySeal(i)).row == s.row
  {
    hide Write1;
    if i < |s.phases| && s.phases[i].Loaded? {
      var receipt := rules.receiptOf(s.phases[i].message);
      var w := if receipt.None? then MarkIndeterminate else Seal(receipt.value);
      if Open(s.row) {
        WriteOnOpen(rules, s.row, w);
      } else {
        WriteNeverOpens(rules, s.row, w);
      }
    }
  }

  /** As long as an attempt is open, its message is the text of the last turn observed, and its
      status is that of its last update. */
  lemma {:induction false} OpenRowHoldsLast(rules: Rules, adapters: nat, actions: seq<Action>)
    requires Open(Execute(rules, adapters, actions).row)
    ensures var row := Execute(rules, adapters, actions).row;
      && row.finalMessage == MessageAfter(actions)
      && row.status == StatusAfter(LastWrite(actions))
      && row.receipt.None?
  {
    hide Act, Write1;
    if actions != [] {
      var init, a := actions[..|actions| - 1], actions[|actions| - 1];
      ActOnOpen(rules, Execute(rules, adapters, init), a);
      OpenRowHoldsLast(rules, adapters, init);
      if a.Ordinary? && !a.write.Seal? {
        WriteOnOpen(rules, Execute(rules, adapters, init).row, a.write);
      }
    }
  }

  /** An attempt counts as completed exactly when nobody gave it up or sealed it and its last
      update was the observation of a completed turn. */
  lemma CompletedExactly(rules: Rules, adapters: nat, actions: seq<Action>)
    ensures Execute(rules, adapters, actions).row.status.PROVIDER_COMPLETED? <==>
      && Open(Execute(rules, adapters, actions).row)
      && LastWrite(actions).Some? && LastWrite(actions).value.Observed? && LastWrite(actions).value.completed
  {
    if Open(Execute(rules, adapters, actions).row) {
      OpenRowHoldsLast(rules, adapters, actions);
    }
  }

  // ---- What a message holds of its turn ----

  /** The message is as much of a text some observed turn ended with as the output bound allows. */
  ghost predicate OfObserved(rules: Rules, observed: set<string>, message: Option<string>) {
    message.Some? ==> exists text :: text in observed && LongestPrefix(text, rules.maximumOutputBytes, message.value)
  }

  lemma WriteKeepsOfObserved(rules: Rules, observed: set<string>, row: Attempt, w: Write)
    requires OfObserved(rules, observed, row.finalMessage)
    ensures OfObserved(rules, observed + TextOf(w), Write1(rules, row, w).finalMessage)
  {
    hide LongestPrefix;
    if row.finalMessage.Some? {
      var text :| text in observed && LongestPrefix(text, rules.maximumOutputBytes, row.finalMessage.value);
      assert text in observed + TextOf(w);
    }
    if w.Observed? && w.text.Some? {
      BoundedIsLongest(w.text.value, rules.maximumOutputBytes);
      assert w.text.value in observed + TextOf(w);
    }
  }

  /** Over every interleaving, and in every status: the stored message is the longest prefix of whole
      code points, within the output bound, of a text a turn was observed with. */
  lemma {:induction false} StoredMessageIsLongest(rules: Rules, adapters: nat, actions: seq<Action>)
    ensures var s := Execute(rules, adapters, actions);
      OfObserved(rules, s.observed, s.row.finalMessage)
  {
    hide Write1, OfObserved;
    if actions == [] {
      NothingStored(rules);
    } else {
      var s, a := Execute(rules, adapters, actions[..|actions| - 1]), actions[|actions| - 1];
      StoredMessageIsLongest(rules, adapters, actions[..|actions| - 1]);
      assert s.observed + TextOf(MarkIndeterminate) == s.observed;
      WriteKeepsOfObserved(rules, s.observed, s.row, MarkIndeterminate);
      match a
      case Ordinary(w) => WriteKeepsOfObserved(rules, s.observed, s.row, w);
      case TrySeal(i) =>
        if i < |s.phases| && s.phases[i].Loaded? && rules.receiptOf(s.phases[i].message).Some? {
          var w := Seal(rules.receiptOf(s.phases[i].message).value);
          assert s.observed + TextOf(w) == s.observed;
          WriteKeepsOfObserved(rules, s.observed, s.row, w);
        }
      case _ =>
    }
  }

  lemma NothingStored(rules: Rules)
    ensures OfObserved(rules, {}, None)
  {
  }

  lemma {:induction false} LastWriteIsLast(actions: seq<Action>)
    ensures LastWrite(actions).Some? && LastWrite(actions).value.Observed? ==>
      LastObserved(actions) == Some(LastWrite(actions).value.text)
  {
    if actions != [] {
      LastWriteIsLast(actions[..|actions| - 1]);
    }
  }

  lemma {:induction false} LastObservedConcat(a: seq<Action>, b: seq<Action>)
    ensures LastObserved(a + b) == if LastObserved(b).Some? then LastObserved(b) else LastObserved(a)
  {
    if b == [] {
      assert a + b == a;
    } else {
      LastObservedConcat(a, b[..|b| - 1]);
      assert (a + b)[..|a + b| - 1] == a + b[..|b| - 1];
    }
  }

  // ---- One collector ----

  predicate PhaseAt(s: System, who: nat, phase: Phase) {
    who < |s.phases| && s.phases[who] == phase
  }

  lemma ActMovesPhase(rules: Rules, s: System, a: Action, who: nat)
    requires who < |s.phases|
    ensures var s' := Act(rules, s, a);
      && |s'.phases| == |s.phases|
      && (s.phases[who].Loaded? ==> s'.phases[who] == if a == TrySeal(who) then Ended else s.phases[who])
      && (s.phases[who].Ended? ==> s'.phases[who].Ended?)
      && (s'.phases[who].Loaded? && !s.phases[who].Loaded? ==>
            && a == LoadMessage(who) && s.phases[who].Finalized? && s.row.status.PROVIDER_COMPLETED?
            && s.row.finalMessage == Some(s'.phases[who].message))
  {
    hide Write1;
  }

  lemma {:induction false} RunHasPhases(rules: Rules, adapters: nat, actions: seq<Action>)
    ensures |Execute(rules, adapters, actions).phases| == adapters
  {
    hide Write1;
    if actions != [] {
      RunHasPhases(rules, adapters, actions[..|actions| - 1]);
    }
  }

  /** A collector that holds a message, or has ended, is moved by nothing but its own seal. */
  lemma {:induction false} PhaseStays(
    rules: Rules, adapters: nat, actions: seq<Action>, more: seq<Action>, who: nat)
    requires who < adapters && TrySeal(who) !in more
    requires |Execute(rules, adapters, actions).phases| == |Execute(rules, adapters, actions + more).phases| == adapters
    requires var phase := Execute(rules, adapters, actions).phases[who]; phase.Loaded? || phase.Ended?
    ensures Execute(rules, adapters, actions + more).phases[who] == Execute(rules, adapters, actions).phases[who]
  {
    hide Act;
    if more == [] {
      assert actions + more == actions;
    } else {
      var init, last := more[..|more| - 1], more[|more| - 1];
      RunHasPhases(rules, adapters, actions + init);
      PhaseStays(rules, adapters, actions, init, who);
      assert (actions + more)[..|actions + more| - 1] == actions + init;
      assert last in more;
      ActMovesPhase(rules, Execute(rules, adapters, actions + init), last, who);
    }
  }

  // ---- The seal ----

  /** From a collector's reading of the message to its next attempt to seal. */
  predicate Bracket(actions: seq<Action>, who: nat, j: nat, i: nat) {
    && j < i < |actions|
    && actions[j] == LoadMessage(who) && actions[i] == TrySeal(who)
    && TrySeal(who) !in actions[j..i]
  }

  /** The collector whose load at j and seal at i took effect. */
  ghost predicate SealedBy(rules: Rules, adapters: nat, actions: seq<Action>, who: nat, j: nat, i: nat) {
    && Bracket(actions, who, j, i) && who < adapters
    && |Execute(rules, adapters, actions[..j]).phases| == adapters
    && Execute(rules, adapters, actions[..j]).phases[who].Finalized?
    && !Execute(rules, adapters, actions[..i]).row.status.TERMINAL?
    && Execute(rules, adapters, actions[..i + 1]).row.status.TERMINAL?
  }

  lemma OneMore(rules: Rules, adapters: nat, actions: seq<Action>, k: nat)
    requires k < |actions|
    ensures Execute(rules, adapters, actions[..k + 1])
      == Act(rules, Execute(rules, adapters, actions[..k]), actions[k])
  {
    assert actions[..k + 1][..k] == actions[..k];
  }

  /** Only a seal makes a row terminal, and it leaves its trace. */
  lemma SealingStep(rules: Rules, s: System, a: Action)
    requires !s.row.status.TERMINAL? && Act(rules, s, a).row.status.TERMINAL?
    ensures a.TrySeal? && a.who < |s.phases| && s.phases[a.who].Loaded? && Open(s.row)
    ensures var s' := Act(rules, s, a);
      && s'.row.finalMessage == s.row.finalMessage
      && s'.sealings == s.sealings + [Sealing(s.phases[a.who].cut, s.phases[a.who].message)]
  {
  }

  /** The load that a held message came from. */
  lemma {:induction false} LoadOf(rules: Rules, adapters: nat, actions: seq<Action>, who: nat) returns (j: nat)
    requires who < |Execute(rules, adapters, actions).phases| && Execute(rules, adapters, actions).phases[who].Loaded?
    ensures j < |actions| && actions[j] == LoadMessage(who) && TrySeal(who) !in actions[j..]
    ensures who < |Execute(rules, adapters, actions[..j]).phases|
    ensures Execute(rules, adapters, actions[..j]).phases[who].Finalized?
  {
    hide Act;
    assert actions != [];
    var init, last := actions[..|actions| - 1], actions[|actions| - 1];
    RunHasPhases(rules, adapters, actions);
    RunHasPhases(rules, adapters, init);
    ActMovesPhase(rules, Execute(rules, adapters, init), last, who);
    if Execute(rules, adapters, init).phases[who].Loaded? {
      j := LoadOf(rules, adapters, init, who);
      assert init[..j] == actions[..j] && actions[j..] == init[j..] + [last];
    } else {
      j := |init|;
      assert actions[j..] == [last];
    }
  }

  /** Every terminal run was sealed by some collector at some step. */
  lemma {:induction false} TerminalWasSealed(rules: Rules, adapters: nat, actions: seq<Action>)
    returns (who: nat, j: nat, i: nat)
    requires Execute(rules, adapters, actions).row.status.TERMINAL?
    ensures SealedBy(rules, adapters, actions, who, j, i)
  {
    hide Act;
    assert actions != [];
    var init, last := actions[..|actions| - 1], actions[|actions| - 1];
    if Execute(rules, adapters, init).row.status.TERMINAL? {
      who, j, i := TerminalWasSealed(rules, adapters, init);
      assert init[..i + 1] == actions[..i + 1] && init[..i] == actions[..i] && init[..j] == actions[..j];
      assert init[j..i] == actions[j..i];
    } else {
      SealingStep(rules, Execute(rules, adapters, init), last);
      who, i := last.who, |init|;
      j := LoadOf(rules, adapters, init, who);
      RunHasPhases(rules, adapters, init[..j]);
      assert init[..j] == actions[..j] && actions[..i + 1] == actions;
      assert init[j..] == actions[j..i];
    }
  }

  /** A terminal row and its sealing are frozen. */
  lemma {:induction false} TerminalStays(rules: Rules, adapters: nat, actions: seq<Action>, more: seq<Action>)
    requires Execute(rules, adapters, actions).row.status.TERMINAL?
    ensures Execute(rules, adapters, actions + more).row == Execute(rules, adapters, actions).row
    ensures Execute(rules, adapters, actions + more).sealings == Execute(rules, adapters, actions).sealings
  {
    if more == [] {
      assert actions + more == actions;
    } else {
      TerminalStays(rules, adapters, actions, more[..|more| - 1]);
      assert (actions + more)[..|actions + more| - 1] == actions + more[..|more| - 1];
    }
  }

  /** The message a collector seals is the one of the last turn observed before its load, and
      the one that stays in the row is that of the last turn observed before its seal. */
  lemma SealIsOfLoad(rules: Rules, adapters: nat, actions: seq<Action>, who: nat, j: nat, i: nat)
    requires SealedBy(rules, adapters, actions, who, j, i)
    ensures var s := Execute(rules, adapters, actions[..i + 1]);
      && |s.sealings| == 1 && Some(s.sealings[0].message) == MessageAfter(actions[..j])
      && LastWrite(actions[..j]) == Some(Observed(Some(s.sealings[0].message), true))
      && s.row.finalMessage == MessageAfter(actions[..i])
  {
    hide Act, LastWrite;
    var before := Execute(rules, adapters, actions[..j]);
    var loaded, at := Execute(rules, adapters, actions[..j + 1]), Execute(rules, adapters, actions[..i]);
    OneMore(rules, adapters, actions, j);
    OneMore(rules, adapters, actions, i);
    RunHasPhases(rules, adapters, actions[..j + 1]);
    RunHasPhases(rules, adapters, actions[..i]);
    SealingStep(rules, at, actions[i]);
    LoadMovesOn(rules, before, who);
    ActMovesPhase(rules, before, actions[j], who);
    assert actions[..i] == actions[..j + 1] + actions[j + 1..i];
    assert forall a | a in actions[j + 1..i] :: a in actions[j..i];
    PhaseStays(rules, adapters, actions[..j + 1], actions[j + 1..i], who);
    OpenRowHoldsLast(rules, adapters, actions[..j]);
    CompletedExactly(rules, adapters, actions[..j]);
    LastWriteIsLast(actions[..j]);
    OpenRowHoldsLast(rules, adapters, actions[..i]);
    TerminalMeans(rules, adapters, actions[..i]);
  }

  lemma LoadMovesOn(rules: Rules, s: System, who: nat)
    requires who < |s.phases| && s.phases[who].Finalized?
    ensures var s' := Act(rules, s, LoadMessage(who));
      who < |s'.phases| && (s'.phases[who].Loaded? || s'.phases[who].Ended?)
  {
  }

  /** For every run: the sealed message is the one of a completed turn, the last thing written
      before the load; which message stays; and exactly when they are the
      same, read off the order of the steps. They are the same if and only if no turn was
      observed between the load and the seal, or the last one that was ended with the very
      message the load had read. */
  lemma SealMatchesExactly(rules: Rules, adapters: nat, actions: seq<Action>, who: nat, j: nat, i: nat)
    requires SealedBy(rules, adapters, actions, who, j, i)
    ensures var s := Execute(rules, adapters, actions);
      && s.row.status.TERMINAL? && |s.sealings| == 1
      && s.row.receipt == rules.receiptOf(s.sealings[0].message)
      && Some(s.sealings[0].message) == MessageAfter(actions[..j])
      && LastWrite(actions[..j]) == Some(Observed(Some(s.sealings[0].message), true))
      && s.row.finalMessage == MessageAfter(actions[..i])
      && (s.row.finalMessage == Some(s.sealings[0].message) <==>
            || LastObserved(actions[j..i]).None?
            || LastObserved(actions[j..i]).value == MessageAfter(actions[..j]))
  {
    hide Act, Execute, LastObserved, LastWrite, Sound;
    SealIsOfLoad(rules, adapters, actions, who, j, i);
    assert actions == actions[..i + 1] + actions[i + 1..];
    TerminalStays(rules, adapters, actions[..i + 1], actions[i + 1..]);
    TerminalMeans(rules, adapters, actions);
    ReceiptOfSealing(rules, Execute(rules, adapters, actions));
    assert actions[..i] == actions[..j] + actions[j..i];
    LastObservedConcat(actions[..j], actions[j..i]);
  }

  lemma ReceiptOfSealing(rules: Rules, s: System)
    requires Sound(rules, s) && s.row.status.TERMINAL?
    ensures |s.sealings| == 1 && s.row.receipt == rules.receiptOf(s.sealings[0].message)
  {
  }

  // ---- The occurrence lock ----

  /** No turn is observed between any load and the seal that follows it. The occurrence lock
      gives this: whoever collects holds the store's only write transaction throughout. */
  ghost predicate Undisturbed(actions: seq<Action>) {
    forall who: nat, j: nat, i: nat | Bracket(actions, who, j, i) :: LastObserved(actions[j..i]).None?
  }

  /** Under the lock every terminal attempt's receipt is of the very message in its row. */
  lemma UndisturbedSealMatches(rules: Rules, adapters: nat, actions: seq<Action>)
    requires Undisturbed(actions)
    ensures var row := Execute(rules, adapters, actions).row;
      row.status.TERMINAL? ==> row.finalMessage.Some? && row.receipt == rules.receiptOf(row.finalMessage.value)
  {
    if Execute(rules, adapters, actions).row.status.TERMINAL? {
      var who, j, i := TerminalWasSealed(rules, adapters, actions);
      SealMatchesExactly(rules, adapters, actions, who, j, i);
    }
  }

  const CONFIRMED: AcquisitionCut := AcquisitionCut(true, 0, EXITED, 0, None, None)

  /** One attempt from admission to its receipt, with a second adapter observing a later turn
      text after the collector has read the first. */
  function Disturbed(first: string, later: string): seq<Action> {
    [Ordinary(ThreadStarted("t")), Ordinary(TurnStarted("u")), Ordinary(Observed(Some(first), true)),
     TakeCut(0, CONFIRMED), CheckCut(0), LoadMessage(0),
     Ordinary(Observed(Some(later), true)), TrySeal(0)]
  }

  /** Without the lock that run ends terminal with one message and the receipt of another. */
  lemma DisturbedSealNeedNotMatch(rules: Rules, adapters: nat, first: string, later: string)
    requires adapters > 0 && first != later && rules.receiptOf(first).Some?
    requires |Encode(first)| <= rules.maximumOutputBytes && |Encode(later)| <= rules.maximumOutputBytes
    ensures var s := Execute(rules, adapters, Disturbed(first, later));
      && s.row.status.TERMINAL? && s.sealings == [Sealing(CONFIRMED, first)]
      && s.row.receipt == rules.receiptOf(first) && s.row.finalMessage == Some(later)
  {
    hide Act, Execute, Write1;
    var a := Disturbed(first, later);
    RowsOfDisturbed(rules, first, later);
    assert a[..0] == [] && a[..8] == a;
    OneMore(rules, adapters, a, 0);
    OneMore(rules, adapters, a, 1);
    OneMore(rules, adapters, a, 2);
    RunHasPhases(rules, adapters, a[..3]);
    Observing(rules, adapters, first);
    OneMore(rules, adapters, a, 3);
    OneMore(rules, adapters, a, 4);
    OneMore(rules, adapters, a, 5);
    OneMore(rules, adapters, a, 6);
    OneMore(rules, adapters, a, 7);
    Collecting(rules, Execute(rules, adapters, a[..3]), first, later);
  }

  lemma Observing(rules: Rules, adapters: nat, first: string)
    requires adapters > 0
    ensures var s0 := Execute(rules, adapters, []);
      var s3 := Act(rules, Act(rules, Act(rules, s0, Ordinary(ThreadStarted("t"))), Ordinary(TurnStarted("u"))),
                    Ordinary(Observed(Some(first), true)));
      && s3.phases == s0.phases && |s0.phases| == adapters && s0.phases[0].Idle? && s3.sealings == []
      && s3.row == Write1(rules, Write1(rules, Write1(rules, FRESH, ThreadStarted("t")), TurnStarted("u")),
                          Observed(Some(first), true))
  {
    hide Write1;
  }

  /** One collector from its cut to its seal, with the later turn observed on the way. */
  lemma Collecting(rules: Rules, s: System, first: string, later: string)
    requires |s.phases| > 0 && s.phases[0].Idle? && s.sealings == []
    requires s.row.status.PROVIDER_COMPLETED? && s.row.finalMessage == Some(first) && rules.receiptOf(first).Some?
    requires var disturbed := Write1(rules, s.row, Observed(Some(later), true));
      && disturbed == s.row.(finalMessage := Some(later))
      && Write1(rules, disturbed, Seal(rules.receiptOf(first).value))
           == disturbed.(status := TERMINAL, receipt := rules.receiptOf(first))
    ensures var loaded := Act(rules, Act(rules, Act(rules, s, TakeCut(0, CONFIRMED)), CheckCut(0)), LoadMessage(0));
      var s' := Act(rules, Act(rules, loaded, Ordinary(Observed(Some(later), true))), TrySeal(0));
      && s'.row.status.TERMINAL? && s'.sealings == [Sealing(CONFIRMED, first)]
      && s'.row.receipt == rules.receiptOf(first) && s'.row.finalMessage == Some(later)
  {
    hide Write1;
    var cut := Act(rules, s, TakeCut(0, CONFIRMED));
    assert cut == s.(phases := s.phases[0 := Cutting(CONFIRMED)]);
    var checked := Act(rules, cut, CheckCut(0));
    assert checked == s.(phases := checked.phases) && checked.phases[0] == Finalized(CONFIRMED);
    var loaded := Act(rules, checked, LoadMessage(0));
    assert loaded == s.(phases := loaded.phases) && loaded.phases[0] == Loaded(CONFIRMED, first);
  }

  lemma RowsOfDisturbed(rules: Rules, first: string, later: string)
    requires rules.receiptOf(first).Some?
    requires |Encode(first)| <= rules.maximumOutputBytes && |Encode(later)| <= rules.maximumOutputBytes
    ensures var started := Write1(rules, Write1(rules, FRESH, ThreadStarted("t")), TurnStarted("u"));
      var observed := Write1(rules, started, Observed(Some(first), true));
      var disturbed := Write1(rules, observed, Observed(Some(later), true));
      var sealed := Write1(rules, disturbed, Seal(rules.receiptOf(first).value));
      && observed == Attempt(PROVIDER_COMPLETED, Some("t"), Some("u"), None, Some(first), None)
      && disturbed == observed.(finalMessage := Some(later))
      && sealed == disturbed.(status := TERMINAL, receipt := rules.receiptOf(first))
  {
  }
}
