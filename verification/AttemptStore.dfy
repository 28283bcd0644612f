/** The adapter's attempt rows: the guarded update, and the way `collect` reaches a terminal
    receipt. */
module AttemptStore {
  import opened Wrappers
  import opened AppServerProtocol
  import opened BoundedText

  datatype Status =
    | ADMITTED | STARTING | RUNNING_TURN | WAITING_APPROVAL | PROVIDER_COMPLETED | INDETERMINATE | TERMINAL

  datatype Attempt = Attempt(
    status: Status, threadId: Option<string>, turnId: Option<string>, queueId: Option<string>,
    finalMessage: Option<string>, receipt: Option<string>)

  const FRESH: Attempt := Attempt(ADMITTED, None, None, None, None, None)

  /** The columns an update names; an inner None is an SQL NULL. */
  datatype Changes = Changes(
    threadId: Option<Option<string>>, turnId: Option<Option<string>>, queueId: Option<Option<string>>,
    status: Option<Status>, finalMessage: Option<Option<string>>, receipt: Option<Option<string>>)

  const NO_CHANGES: Changes := Changes(None, None, None, None, None, None)

  datatype Error = InvalidUpdate | UnknownAttempt | TransitionProhibited(current: Status)

  /** Whether the update could move an attempt out of indeterminacy, or give it a receipt. */
  predicate ProhibitedFromIndeterminate(c: Changes) {
    || (c.status.Some? && !c.status.value.INDETERMINATE?)
    || (c.receipt.Some? && c.receipt.value.Some?)
  }

  predicate Permitted(current: Status, c: Changes) {
    if ProhibitedFromIndeterminate(c) then !current.INDETERMINATE? && !current.TERMINAL? else !current.TERMINAL?
  }

  function Overwritten<T>(current: T, change: Option<T>): T {
    if change.Some? then change.value else current
  }

  function Changed(a: Attempt, c: Changes): Attempt {
    Attempt(Overwritten(a.status, c.status), Overwritten(a.threadId, c.threadId), Overwritten(a.turnId, c.turnId),
            Overwritten(a.queueId, c.queueId), Overwritten(a.finalMessage, c.finalMessage), Overwritten(a.receipt, c.receipt))
  }

  type Table = map<string, Attempt>

  /** `AdapterStore.update`. */
  function Update(t: Table, id: string, c: Changes): (Result<(), Error>, Table) {
    if c == NO_CHANGES then (Err(InvalidUpdate), t)
    else if id !in t then (Err(UnknownAttempt), t)
    else if !Permitted(t[id].status, c) then (Err(TransitionProhibited(t[id].status)), t)
    else (Ok(()), t[id := Changed(t[id], c)])
  }

  // ---- The adapter's own updates ----

  /** Every update the adapter makes. `Observed` is a turn seen in a notification or in a thread
      read, with its final agent text. */
  datatype Write =
    | ThreadStarted(threadId: string)
    | TurnStarted(turnId: string)
    | UserMessageSeen
    | ApprovalSurfaced
    | Observed(text: Option<string>, completed: bool)
    | MarkIndeterminate
    | Seal(receipt: string)

  function BoundedMessage(text: Option<string>, maximum: nat): (Option<string>, bool) {
    if text.None? then (None, false)
    else var (kept, truncated) := Bounded(text.value, maximum); (Some(kept), truncated)
  }

  function ChangesOf(w: Write, maximumOutputBytes: nat): Changes {
    match w
    case ThreadStarted(id) => NO_CHANGES.(threadId := Some(Some(id)), status := Some(STARTING))
    case TurnStarted(id) => NO_CHANGES.(turnId := Some(Some(id)), status := Some(RUNNING_TURN))
    case UserMessageSeen => NO_CHANGES.(status := Some(RUNNING_TURN))
    case ApprovalSurfaced => NO_CHANGES.(status := Some(WAITING_APPROVAL))
    case MarkIndeterminate => NO_CHANGES.(status := Some(INDETERMINATE))
    case Observed(text, completed) =>
      var (kept, truncated) := BoundedMessage(text, maximumOutputBytes);
      NO_CHANGES.(
        status := Some(if truncated then INDETERMINATE else if completed then PROVIDER_COMPLETED else RUNNING_TURN),
        finalMessage := Some(kept))
    case Seal(receipt) => NO_CHANGES.(status := Some(TERMINAL), receipt := Some(Some(receipt)))
  }

  function Written(t: Table, id: string, w: Write, maximumOutputBytes: nat): (Result<(), Error>, Table) {
    Update(t, id, ChangesOf(w, maximumOutputBytes))
  }

  // ---- Collecting ----

  /** The terminal cut that finality needs. */
  predicate Confirmed(cut: AcquisitionCut) {
    cut.streamQuiesced && cut.lossGeneration == 0 && ProcessClosed(cut.processDisposition)
  }

  /** A stored message that is not empty; Python treats an empty string as absent. */
  function MessageOf(a: Attempt): Option<string> {
    if a.finalMessage.Some? && a.finalMessage.value != "" then a.finalMessage else None
  }

  /** All writes of a drain, in order; the first that fails ends it. */
  function Drained(t: Table, id: string, writes: seq<Write>, maximumOutputBytes: nat): (Result<(), Error>, Table) {
    if writes == [] then (Ok(()), t)
    else
      var (r, t1) := Drained(t, id, writes[..|writes| - 1], maximumOutputBytes);
      if r.Err? then (r, t1) else Written(t1, id, writes[|writes| - 1], maximumOutputBytes)
  }

  /** An attempt that is given up is not looked at again. */
  function StatusWrites(a: Attempt, writes: seq<Write>): seq<Write> {
    if a.status.INDETERMINATE? then [] else writes
  }

  predicate WithoutSeal(writes: seq<Write>) {
    forall k | 0 <= k < |writes| :: !writes[k].Seal?
  }

  /** After these updates the attempt is completed with this message: the last of them observed a
      completed turn that ended with it, or there were none and it was so before. */
  predicate EndsCompleted(a: Attempt, writes: seq<Write>, message: Option<string>) {
    if writes == [] then a.status.PROVIDER_COMPLETED? && a.finalMessage == message
    else writes[|writes| - 1] == Observed(message, true)
  }

  /** What sealing takes: an attempt without a receipt, a look and a drain that went through and leave
      it completed with a message that is an exact outcome, one there was before the cut, and a
      quiesced, lossless cut whose process is gone. */
  predicate Sealable(
    t: Table, id: string, seen: seq<Write>, cut: Option<AcquisitionCut>, writes: seq<Write>,
    receiptOf: string -> Option<string>, maximumOutputBytes: nat)
    requires id in t
  {
    var (looked, t1) := Drained(t, id, StatusWrites(t[id], seen), maximumOutputBytes);
    var (drained, t2) := Drained(t1, id, writes, maximumOutputBytes);
    && t[id].receipt.None? && looked.Ok?
    && id in t1 && t1[id].finalMessage.Some? && t1[id].finalMessage.value != ""
    && cut.Some? && cut.value.streamQuiesced && cut.value.lossGeneration == 0
    && cut.value.processDisposition in {EXITED, EXITED_AFTER_TERMINATE, EXITED_AFTER_KILL}
    && drained.Ok? && id in t2 && t2[id].status == PROVIDER_COMPLETED && t2[id].finalMessage.Some?
    && receiptOf(t2[id].finalMessage.value).Some?
  }

  class AdapterStore {
    const maximumOutputBytes: nat
    var attempts: Table

    constructor (maximumOutputBytes: nat)
      ensures this.maximumOutputBytes == maximumOutputBytes && attempts == map[]
    {
      this.maximumOutputBytes, attempts := maximumOutputBytes, map[];
    }

    method UpdateAttempt(id: string, c: Changes) returns (r: Result<(), Error>)
      modifies this
      ensures (r, attempts) == Update(old(attempts), id, c)
    {
      if c == NO_CHANGES {
        return Err(InvalidUpdate);
      }
      if id !in attempts {
        return Err(UnknownAttempt);
      }
      var current := attempts[id];
      var permitted :=
        if ProhibitedFromIndeterminate(c) then !current.status.INDETERMINATE? && !current.status.TERMINAL?
        else !current.status.TERMINAL?;
      if !permitted {
        return Err(TransitionProhibited(current.status));
      }
      attempts := attempts[id := Changed(current, c)];
      return Ok(());
    }

    method Write(id: string, w: Write) returns (r: Result<(), Error>)
      modifies this
      ensures (r, attempts) == Written(old(attempts), id, w, maximumOutputBytes)
    {
      r := UpdateAttempt(id, ChangesOf(w, maximumOutputBytes));
    }

    /** `_drain`, over the updates that what is drained amounts to. */
    method Drain(id: string, writes: seq<Write>) returns (r: Result<(), Error>)
      modifies this
      ensures (r, attempts) == Drained(old(attempts), id, writes, maximumOutputBytes)
    {
      r := Ok(());
      for k := 0 to |writes|
        invariant (r, attempts) == Drained(old(attempts), id, writes[..k], maximumOutputBytes)
        invariant r.Ok?
      {
        assert writes[..k + 1][..k] == writes[..k];
        r := Write(id, writes[k]);
        if r.Err? {
          DrainStops(old(attempts), id, writes, k + 1, maximumOutputBytes);
          return;
        }
      }
      assert writes[..|writes|] == writes;
    }

    /** `status`: what a thread read and a drain amount to, unless the attempt is given up. */
    method Status(id: string, writes: seq<Write>) returns (r: Result<(), Error>)
      requires id in attempts
      modifies this
      ensures (r, attempts) == Drained(old(attempts), id, StatusWrites(old(attempts)[id], writes), maximumOutputBytes)
      ensures old(attempts)[id].status == INDETERMINATE ==> r == Ok(()) && attempts == old(attempts)
      ensures old(attempts)[id].status != INDETERMINATE ==>
        (r, attempts) == Drained(old(attempts), id, writes, maximumOutputBytes)
    {
      r := Drain(id, StatusWrites(attempts[id], writes));
    }

    /** `_finalize_acquisition`: the cut is taken, what is left is drained, and finality is only
        possible under a confirmed cut. None stands for a quiesce that failed. */
    method FinalizeAcquisition(id: string, cut: Option<AcquisitionCut>, writes: seq<Write>)
      returns (final: Result<bool, Error>)
      requires id in attempts
      modifies this
      ensures id in attempts
      ensures final.Ok? ==> final.value == !attempts[id].status.INDETERMINATE?
      ensures var (drained, t) := Drained(old(attempts), id, writes, maximumOutputBytes);
        && (final == Ok(true) <==>
              && cut.Some? && cut.value.streamQuiesced && cut.value.lossGeneration == 0
              && cut.value.processDisposition in {EXITED, EXITED_AFTER_TERMINATE, EXITED_AFTER_KILL}
              && drained.Ok? && id in t && !t[id].status.INDETERMINATE?)
        && (final == Ok(true) ==> attempts == t)
      ensures final.Err? ==> attempts[id].status.TERMINAL?
      ensures WithoutSeal(writes) ==> (attempts[id].status.TERMINAL? <==> old(attempts)[id].status.TERMINAL?)
      ensures old(attempts)[id].status.TERMINAL? ==> attempts[id] == old(attempts)[id]
    {
      DrainedKeepsRow(attempts, id, writes, maximumOutputBytes);
      var drained: Result<(), Error> := Ok(());
      if cut.Some? {
        drained := Drain(id, writes);
      }
      if cut.None? || drained.Err? || !Confirmed(cut.value) {
        var marked := Write(id, MarkIndeterminate);
        if marked.Err? {
          return Err(marked.error);
        }
      }
      return Ok(!attempts[id].status.INDETERMINATE?);
    }

    /** `collect`: a look at the thread, the terminal cut, and the outcome read from the stored
        message sealed. `receiptOf` is None where the outcome is not exact. */
    method Collect(
      id: string, seen: seq<Write>, cut: Option<AcquisitionCut>, writes: seq<Write>, receiptOf: string -> Option<string>)
      returns (sealed: Result<Option<string>, Error>)
      requires id in attempts
      modifies this
      ensures id in attempts
      ensures sealed.Ok? && sealed.value.Some? <==>
        Sealable(old(attempts), id, seen, cut, writes, receiptOf, maximumOutputBytes)
      ensures sealed.Ok? && sealed.value.Some? ==>
        && old(attempts)[id].receipt.None?
        && attempts[id].status.TERMINAL? && attempts[id].finalMessage.Some?
        && attempts[id].receipt == receiptOf(attempts[id].finalMessage.value) == sealed.value
      ensures sealed.Ok? && sealed.value.Some? ==>
        EndsCompleted(old(attempts)[id], StatusWrites(old(attempts)[id], seen) + writes, attempts[id].finalMessage)
      ensures sealed.Err? || sealed.value.None? ==>
        WithoutSeal(seen) && WithoutSeal(writes) ==>
          (attempts[id].status.TERMINAL? <==> old(attempts)[id].status.TERMINAL?)
      ensures old(attempts)[id].status.TERMINAL? ==> attempts[id] == old(attempts)[id]
    {
      hide Drained, EndsCompleted;
      if attempts[id].receipt.Some? {
        return Ok(None);
      }
      DrainedKeepsRow(attempts, id, StatusWrites(attempts[id], seen), maximumOutputBytes);
      var looked := Status(id, seen);
      if looked.Err? {
        return Err(looked.error);
      }
      if MessageOf(attempts[id]).None? {
        return Ok(None);
      }
      var final := FinalizeAcquisition(id, cut, writes);
      if final.Err? {
        return Err(final.error);
      }
      var attempt := attempts[id];
      if !final.value || !attempt.status.PROVIDER_COMPLETED? || attempt.finalMessage.None? {
        return Ok(None);
      }
      BothComplete(old(attempts), id, StatusWrites(old(attempts)[id], seen), writes, maximumOutputBytes);
      var receipt := receiptOf(attempt.finalMessage.value);
      if receipt.None? {
        var marked := Write(id, MarkIndeterminate);
        return Ok(None);
      }
      var sealing := Write(id, Seal(receipt.value));
      assert sealing.Ok?;
      return Ok(receipt);
    }
  }

  lemma {:induction false} DrainStops(t: Table, id: string, writes: seq<Write>, k: nat, maximum: nat)
    requires k <= |writes| && Drained(t, id, writes[..k], maximum).0.Err?
    ensures Drained(t, id, writes, maximum) == Drained(t, id, writes[..k], maximum)
  {
    if k < |writes| {
      assert writes[..|writes| - 1][..k] == writes[..k];
      DrainStops(t, id, writes[..|writes| - 1], k, maximum);
    } else {
      assert writes[..k] == writes;
    }
  }

  lemma {:induction false} DrainedKeepsRow(t: Table, id: string, writes: seq<Write>, maximum: nat)
    requires id in t
    ensures var (r, t') := Drained(t, id, writes, maximum);
      && id in t'
      && (t[id].status.TERMINAL? ==> t'[id] == t[id])
      && (WithoutSeal(writes) ==> (t'[id].status.TERMINAL? <==> t[id].status.TERMINAL?))
  {
    if writes != [] {
      DrainedKeepsRow(t, id, writes[..|writes| - 1], maximum);
    }
  }

  /** Where all updates went through, a completed attempt is one that they completed. */
  lemma {:induction false} DrainedCompletes(t: Table, id: string, writes: seq<Write>, maximum: nat)
    requires id in t && Drained(t, id, writes, maximum).0.Ok?
    ensures var t' := Drained(t, id, writes, maximum).1;
      id in t' && (t'[id].status.PROVIDER_COMPLETED? ==> EndsCompleted(t[id], writes, t'[id].finalMessage))
  {
    DrainedKeepsRow(t, id, writes, maximum);
    if writes != [] {
      DrainedKeepsRow(t, id, writes[..|writes| - 1], maximum);
      var w := writes[|writes| - 1];
      if w.Observed? && w.text.Some? {
        BoundedIsLongest(w.text.value, maximum);
      }
    }
  }

  /** The same of a look and the drain after it. */
  lemma BothComplete(t: Table, id: string, looked: seq<Write>, drained: seq<Write>, maximum: nat)
    requires id in t && Drained(t, id, looked, maximum).0.Ok?
    requires Drained(Drained(t, id, looked, maximum).1, id, drained, maximum).0.Ok?
    ensures var t' := Drained(Drained(t, id, looked, maximum).1, id, drained, maximum).1;
      id in t' && (t'[id].status.PROVIDER_COMPLETED? ==> EndsCompleted(t[id], looked + drained, t'[id].finalMessage))
  {
    DrainedCompletes(t, id, looked, maximum);
    DrainedCompletes(Drained(t, id, looked, maximum).1, id, drained, maximum);
    if drained == [] {
      assert looked + drained == looked;
    }
  }

  /** An update is refused exactly when it names no column, the attempt is unknown or terminal,
      or it would take an indeterminate attempt to another status or give it a receipt; and a
      refused one changes nothing. */
  lemma UpdateRefusedExactly(t: Table, id: string, c: Changes)
    ensures var (r, t') := Update(t, id, c);
      && (r.Err? <==>
            || c == Changes(None, None, None, None, None, None)
            || id !in t
            || t[id].status == TERMINAL
            || (t[id].status == INDETERMINATE
                && ((c.status.Some? && c.status.value != INDETERMINATE) || (c.receipt.Some? && c.receipt.value.Some?))))
      && (r.Err? ==> t' == t)
  {
  }
}
