/** The provider-run table: one row per dispatch, claimed by the runner that will contact the
    provider or closed before launch, never both. */
module DispatchStore {
  import opened Wrappers
  import opened Utf8
  import opened Json

  /** What a caller brings for a dispatch: the exact admitted bytes and the dispatch record. */
  datatype Inputs = Inputs(request: bytes, brief: bytes, backend: bytes)

  datatype Admitted = Admitted(dispatch: string, inputs: Inputs, dispatchRecord: Json)

  datatype RecordState =
    | OUTCOME_UNKNOWN | PROVIDER_COMPLETED | PROVIDER_FAILED | PROVIDER_INTERRUPTED
    | NOT_ADMITTED_MODEL_AT_CAPACITY | PRELAUNCH_CLOSED

  /** A stored record; `evidence` is everything a run fills in later. */
  datatype Record = Record(
    dispatch: string, dispatchRecord: Json, state: RecordState, prelaunchClosure: Option<Closure>, evidence: Json)

  datatype Closure = Closure(binding: Json, body: Json)

  datatype Row = Row(inputs: Inputs, record: Record)

  type Table = map<string, Row>

  /** Closure validation and the binding a closure must name. */
  datatype Rules = Rules(binding: Admitted -> Json, valid: Closure -> bool)

  datatype Error =
    | DispatchReuseWithDifferentInputs | DispatchCustodySubstitution | InvalidClosure | ClosureBindingDiffers
    | ExistingClaimOrConflictingClosure

  // ---- Transactions ----

  /** `lookup`. */
  function Lookup(t: Table, a: Admitted): Result<Option<Record>, Error> {
    if a.dispatch !in t then Ok(None)
    else if t[a.dispatch].inputs != a.inputs then Err(DispatchReuseWithDifferentInputs)
    else if t[a.dispatch].record.dispatchRecord != a.dispatchRecord then Err(DispatchCustodySubstitution)
    else Ok(Some(t[a.dispatch].record))
  }

  function ClaimRecord(a: Admitted): Record {
    Record(a.dispatch, a.dispatchRecord, OUTCOME_UNKNOWN, None, Null)
  }

  /** `claim`: the record in force, whether this call created it, and the table left. */
  function Claim(t: Table, a: Admitted): (Result<(Record, bool), Error>, Table) {
    match Lookup(t, a)
    case Err(why) => (Err(why), t)
    case Ok(Some(record)) => (Ok((record, false)), t)
    case Ok(None) => (Ok((ClaimRecord(a), true)), t[a.dispatch := Row(a.inputs, ClaimRecord(a))])
  }

  function ClosedRecord(a: Admitted, closure: Closure): Record {
    Record(a.dispatch, a.dispatchRecord, PRELAUNCH_CLOSED, Some(closure), Null)
  }

  /** `close_prelaunch`. */
  function ClosePrelaunch(rules: Rules, t: Table, a: Admitted, closure: Closure): (Result<Closure, Error>, Table) {
    if !rules.valid(closure) then (Err(InvalidClosure), t)
    else if closure.binding != rules.binding(a) then (Err(ClosureBindingDiffers), t)
    else
      match Lookup(t, a)
      case Err(why) => (Err(why), t)
      case Ok(Some(prior)) =>
        if !prior.state.PRELAUNCH_CLOSED? || prior.prelaunchClosure != Some(closure)
        then (Err(ExistingClaimOrConflictingClosure), t)
        else (Ok(closure), t)
      case Ok(None) => (Ok(closure), t[a.dispatch := Row(a.inputs, ClosedRecord(a, closure))])
  }

  /** `update`: only the record of an existing row changes. */
  function Update(t: Table, record: Record): Table {
    if record.dispatch in t then t[record.dispatch := t[record.dispatch].(record := record)] else t
  }

  class RunStore {
    const rules: Rules
    var rows: Table

    constructor (rules: Rules)
      ensures this.rules == rules && rows == map[]
    {
      this.rules, rows := rules, map[];
    }

    method FindRecord(a: Admitted) returns (r: Result<Option<Record>, Error>)
      ensures r == Lookup(rows, a)
    {
      if a.dispatch !in rows {
        return Ok(None);
      }
      var row := rows[a.dispatch];
      if row.inputs != a.inputs {
        return Err(DispatchReuseWithDifferentInputs);
      }
      if row.record.dispatchRecord != a.dispatchRecord {
        return Err(DispatchCustodySubstitution);
      }
      return Ok(Some(row.record));
    }

    method ClaimDispatch(a: Admitted) returns (r: Result<(Record, bool), Error>)
      modifies this
      ensures (r, rows) == Claim(old(rows), a)
    {
      if a.dispatch in rows {
        var prior := FindRecord(a);
        return match prior case Err(why) => Err(why) case Ok(found) => Ok((found.value, false));
      }
      var record := ClaimRecord(a);
      rows := rows[a.dispatch := Row(a.inputs, record)];
      return Ok((record, true));
    }

    method CloseDispatch(a: Admitted, closure: Closure) returns (r: Result<Closure, Error>)
      modifies this
      ensures (r, rows) == ClosePrelaunch(rules, old(rows), a, closure)
    {
      if !rules.valid(closure) {
        return Err(InvalidClosure);
      }
      if closure.binding != rules.binding(a) {
        return Err(ClosureBindingDiffers);
      }
      var prior := FindRecord(a);
      if prior.Err? {
        return Err(prior.error);
      }
      if prior.value.Some? {
        var record := prior.value.value;
        if !record.state.PRELAUNCH_CLOSED? || record.prelaunchClosure != Some(closure) {
          return Err(ExistingClaimOrConflictingClosure);
        }
        return Ok(closure);
      }
      rows := rows[a.dispatch := Row(a.inputs, ClosedRecord(a, closure))];
      return Ok(closure);
    }

    method StoreRecord(record: Record)
      modifies this
      ensures rows == Update(old(rows), record)
    {
      if record.dispatch in rows {
        rows := rows[record.dispatch := rows[record.dispatch].(record := record)];
      }
    }

    /** The part of `run` that decides who contacts the provider: a retained record is returned
        as it is, a failed executable capture closes the dispatch, and only a fresh claim goes
        on to start a backend. */
    method Prepare(a: Admitted, captureFailure: Option<Closure>) returns (r: Result<(Record, bool), Error>)
      modifies this
      ensures match Lookup(old(rows), a)
        case Err(why) => r == Err(why) && rows == old(rows)
        case Ok(Some(prior)) => r == Ok((prior, false)) && rows == old(rows)
        case Ok(None) =>
          match captureFailure
          case None => (r, rows) == Claim(old(rows), a)
          case Some(closure) =>
            && rows == ClosePrelaunch(rules, old(rows), a, closure).1
            && match ClosePrelaunch(rules, old(rows), a, closure).0
               case Err(why) => r == Err(why)
               case Ok(_) => r == Ok((ClosedRecord(a, closure), false))
    {
      var prior := FindRecord(a);
      if prior.Err? {
        return Err(prior.error);
      }
      if prior.value.Some? {
        return Ok((prior.value.value, false));
      }
      if captureFailure.Some? {
        var closed := CloseDispatch(a, captureFailure.value);
        if closed.Err? {
          return Err(closed.error);
        }
        var retained := FindRecord(a);
        return Ok((retained.value.value, false));
      }
      r := ClaimDispatch(a);
    }
  }
}
