/** One provider run after its mapper exists: the live drain loop projects the worker output,
    usage and turn status message by message, and every failure becomes a loss. */
module ProviderRunner {
  import opened Wrappers
  import opened Utf8
  import opened Json
  import opened Reasons
  import opened AppServerProtocol
  import opened ProviderAdmission
  import opened AdmissionLog
  import opened ProviderAdmissionMapper

  /** The mapper's configuration, whose binding names the run's thread and turn, and the
      admitted output bound. */
  datatype Settings = Settings(cfg: Config, maximumOutputBytes: nat)

  datatype RunState =
    | OUTCOME_UNKNOWN | RUN_COMPLETED | RUN_FAILED | RUN_INTERRUPTED | RUN_NOT_ADMITTED

  /** The part of the stored record that the run projects. */
  datatype RunRecord = RunRecord(
    workerOutput: Option<string>,
    usage: Json,
    usageTurnId: Option<string>,
    turnStatus: Json,
    providerAdmission: Option<Snapshot>,
    failedLocally: bool,
    state: RunState)

  const FRESH: RunRecord := RunRecord(None, Null, None, Null, None, false, OUTCOME_UNKNOWN)

  /** The run's own state: the calls made on the mapper, and what was projected. */
  datatype Live = Live(calls: seq<Op>, record: RunRecord, outputBytes: nat, attributionFailed: bool)

  const LAUNCHED: Live := Live([], FRESH, 0, false)

  /** One drain: what was on the ordered queue, and whether storing the record then fails. */
  datatype Batch = Batch(events: seq<AcquisitionEnvelope>, storeFails: bool)

  function MapperOf(st: Settings, l: Live): State {
    Run(st.cfg, l.calls)
  }

  /** A step of the run together with whether it went through without an exception. */
  datatype Progress = Progress(live: Live, ok: bool)

  /** A call on the mapper. */
  function Perform(st: Settings, l: Live, op: Op): Progress {
    Progress(l.(calls := l.calls + [op]), Step(st.cfg, MapperOf(st, l), op).Done?)
  }

  const TOKEN_USAGE: string := "thread/tokenUsage/updated"
  const ITEM_COMPLETED: string := "item/completed"
  const TURN_COMPLETED: string := "turn/completed"

  predicate InThread(st: Settings, params: Object) {
    Get(params, "threadId") == Str(st.cfg.binding.base.threadId)
  }

  predicate InTurn(st: Settings, params: Object) {
    Get(params, "turnId") == Str(st.cfg.binding.base.turnId)
  }

  /** `params.get(key, {})`. */
  function Field(params: Object, key: string): Json {
    if key in params then params[key] else Obj(map[])
  }

  /** The agent text of a completed item, if that is what it is. */
  function AgentText(item: Object): Option<string> {
    if Get(item, "type") == Str("agentMessage") && Get(item, "text").Str? then Some(item["text"].s) else None
  }

  function ProjectUsage(st: Settings, l: Live, params: Object): Live {
    if l.attributionFailed then l
    else
      var usage := Get(params, "tokenUsage");
      l.(record := l.record.(
        usage := usage,
        usageTurnId := if usage.Null? then None else Some(st.cfg.binding.base.turnId)))
  }

  function ProjectStatus(st: Settings, l: Live, params: Object): Progress {
    var turn := Field(params, "turn");
    if !turn.Obj? then Progress(l, false)
    else if Get(turn.fields, "id") != Str(st.cfg.binding.base.turnId) then Progress(l, true)
    else Progress(l.(record := l.record.(turnStatus := Get(turn.fields, "status"))), true)
  }

  function ProjectOutput(st: Settings, l: Live, params: Object): Progress {
    var item := Field(params, "item");
    if l.attributionFailed then Progress(l, true)
    else if !item.Obj? then Progress(l, false)
    else
      match AgentText(item.fields)
      case None => Progress(l, true)
      case Some(text) =>
        var counted := l.(outputBytes := l.outputBytes + |Encode(text)|);
        if counted.outputBytes > st.maximumOutputBytes
        then Perform(st, counted, Loss(WorkerOutputExceedsAdmittedBound))
        else Progress(counted.(record := counted.record.(workerOutput := Some(text))), true)
  }

  /** What the loop of `drain` does with a message the mapper has consumed. */
  function Project(st: Settings, l: Live, message: ServerMessage): Progress {
    var params := message.Params();
    var name := message.MethodName();
    if !InThread(st, params) then Progress(l, true)
    else if name in {Some(TOKEN_USAGE), Some(ITEM_COMPLETED)} && !InTurn(st, params) then
      Perform(st, l.(attributionFailed := true,
                     record := l.record.(usage := Null, usageTurnId := None, workerOutput := None)),
              Loss(OutputOrUsageTurnAttributionMismatch))
    else if name == Some(TOKEN_USAGE) then Progress(ProjectUsage(st, l, params), true)
    else if name == Some(TURN_COMPLETED) then ProjectStatus(st, l, params)
    else if name == Some(ITEM_COMPLETED) then ProjectOutput(st, l, params)
    else Progress(l, true)
  }

  function Consume(st: Settings, l: Live, e: AcquisitionEnvelope): Progress {
    var p := Perform(st, l, Envelope(e));
    if !p.ok || e.message.None? then p else Project(st, p.live, e.message.value)
  }

  /** The loop of `drain`: an exception abandons the rest of the batch. */
  function ConsumeAll(st: Settings, l: Live, events: seq<AcquisitionEnvelope>): Progress
    decreases |events|
  {
    if events == [] then Progress(l, true)
    else
      var p := Consume(st, l, events[0]);
      if !p.ok then p else ConsumeAll(st, p.live, events[1..])
  }

  /** `drain`. */
  function Drain(st: Settings, l: Live, batch: Batch): Progress {
    var p := ConsumeAll(st, l, batch.events);
    if !p.ok then p
    else
      var snapshot := SnapshotOf(st.cfg, MapperOf(st, p.live));
      Progress(p.live.(record := p.live.record.(providerAdmission := Some(snapshot))), !batch.storeFails)
  }

  predicate Settled(s: State) {
    s.mechanism in {M_PROVIDER_COMPLETED, M_PARKED_NOT_ADMITTED, M_WAITING_APPROVAL, M_ADMISSION_INDETERMINATE,
                    M_POST_ADMISSION_INTERRUPTED}
  }

  /** The polling loop, over the batches there is time for. */
  function Poll(st: Settings, l: Live, batches: seq<Batch>): Progress
    decreases |batches|
  {
    if batches == [] then Perform(st, l, Loss(AdmittedExecutionDeadlineElapsed))
    else
      var p := Drain(st, l, batches[0]);
      if !p.ok || Settled(MapperOf(st, p.live)) then p else Poll(st, p.live, batches[1..])
  }

  /** The `try` block and its handler; not ok is an exception that leaves `run`. */
  function Attend(st: Settings, batches: seq<Batch>): Progress {
    var p := Poll(st, LAUNCHED, batches);
    if p.ok then p
    else Perform(st, p.live.(record := p.live.record.(failedLocally := true)), Loss(AdapterOperationFailed))
  }

  /** How a run ends: what its last drain finds, the client's cut, and whether storing the final
      record fails. */
  datatype Ending = Ending(last: Batch, cut: AcquisitionCut, storeFails: bool)

  /** The outcome a run claims. None is the TypeError of looking up a turn status that Python
      cannot hash. */
  function StateOf(s: State, turnStatus: Json): Option<RunState> {
    if s.acquisitionCut.None? || !s.acquisitionCut.value.clean then Some(OUTCOME_UNKNOWN)
    else if s.mechanism.M_PROVIDER_COMPLETED? then
      if turnStatus.Arr? || turnStatus.Obj? then None
      else if turnStatus == Str("completed") then Some(RUN_COMPLETED)
      else if turnStatus == Str("failed") then Some(RUN_FAILED)
      else if turnStatus == Str("interrupted") then Some(RUN_INTERRUPTED)
      else Some(OUTCOME_UNKNOWN)
    else if s.mechanism.M_PARKED_NOT_ADMITTED? then Some(RUN_NOT_ADMITTED)
    else Some(OUTCOME_UNKNOWN)
  }

  /** The `finally` block. */
  function Conclude(st: Settings, l: Live, ending: Ending): Progress {
    var p := Drain(st, l, ending.last);
    if !p.ok then p
    else
      var q := Perform(st, p.live, Cut(ending.cut));
      if !q.ok then q
      else
        var s := MapperOf(st, q.live);
        var shown := q.live.(record := q.live.record.(providerAdmission := Some(SnapshotOf(st.cfg, s))));
        match StateOf(s, shown.record.turnStatus)
        case None => Progress(shown, false)
        case Some(state) => Progress(shown.(record := shown.record.(state := state)), !ending.storeFails)
  }

  /** `run` from the moment its mapper exists; None when it raises. */
  function Returned(st: Settings, batches: seq<Batch>, ending: Ending): Option<Live> {
    var p := Attend(st, batches);
    var q := Conclude(st, p.live, ending);
    if p.ok && q.ok then Some(q.live) else None
  }

  // ---- The run as the source has it ----

  class ProviderRun {
    const st: Settings
    const mapper: Mapper

    var record: RunRecord
    var outputBytes: nat
    var attributionFailed: bool
    ghost var calls: seq<Op>

    ghost predicate Valid()
      reads this, mapper
    {
      && mapper.Valid() && mapper.cfg == st.cfg
      && mapper.Fields() == Run(st.cfg, calls)
    }

    ghost function Fields(): Live
      reads this
    {
      Live(calls, record, outputBytes, attributionFailed)
    }

    constructor (st: Settings)
      ensures Valid() && fresh(mapper) && this.st == st
      ensures Fields() == LAUNCHED
    {
      var mapper := new Mapper(st.cfg, false);
      this.st, this.mapper := st, mapper;
      record, outputBytes, attributionFailed := FRESH, 0, false;
      calls := [];
    }

    method MarkAcquisitionLoss(detail: Reason) returns (ok: bool)
      requires Valid()
      modifies this`calls, mapper
      ensures Valid()
      ensures Progress(Fields(), ok) == Perform(st, old(Fields()), Loss(detail))
    {
      RunExtends(st.cfg, calls, Loss(detail));
      var r := mapper.MarkAcquisitionLoss(detail);
      calls := calls + [Loss(detail)];
      ok := r.Ok?;
    }

    method ConsumeEnvelope(e: AcquisitionEnvelope) returns (ok: bool)
      requires Valid()
      modifies this`calls, mapper
      ensures Valid()
      ensures Progress(Fields(), ok) == Perform(st, old(Fields()), Envelope(e))
    {
      RunExtends(st.cfg, calls, Envelope(e));
      var r := mapper.ConsumeEnvelope(e);
      calls := calls + [Envelope(e)];
      ok := r.Ok?;
    }

    method ConsumeCut(cut: AcquisitionCut) returns (ok: bool)
      requires Valid()
      modifies this`calls, mapper
      ensures Valid()
      ensures Progress(Fields(), ok) == Perform(st, old(Fields()), Cut(cut))
    {
      RunExtends(st.cfg, calls, Cut(cut));
      var r := mapper.ConsumeCut(cut);
      calls := calls + [Cut(cut)];
      ok := r.Ok?;
    }

    method AcceptOutput(params: Object) returns (ok: bool)
      requires Valid()
      modifies this, mapper
      ensures Valid()
      ensures Progress(Fields(), ok) == ProjectOutput(st, old(Fields()), params)
    {
      if attributionFailed {
        return true;
      }
      var item := Field(params, "item");
      if !item.Obj? {
        return false;
      }
      var text := AgentText(item.fields);
      if text.None? {
        return true;
      }
      outputBytes := outputBytes + |Encode(text.value)|;
      if outputBytes > st.maximumOutputBytes {
        ok := MarkAcquisitionLoss(WorkerOutputExceedsAdmittedBound);
      } else {
        record := record.(workerOutput := text);
        ok := true;
      }
    }

    method AcceptMessage(message: ServerMessage) returns (ok: bool)
      requires Valid()
      modifies this, mapper
      ensures Valid()
      ensures Progress(Fields(), ok) == Project(st, old(Fields()), message)
    {
      var params := message.Params();
      var name := message.MethodName();
      if !InThread(st, params) {
        return true;
      }
      if name in {Some(TOKEN_USAGE), Some(ITEM_COMPLETED)} && !InTurn(st, params) {
        attributionFailed := true;
        record := record.(usage := Null, usageTurnId := None, workerOutput := None);
        ok := MarkAcquisitionLoss(OutputOrUsageTurnAttributionMismatch);
        return;
      }
      ok := true;
      if name == Some(TOKEN_USAGE) {
        if !attributionFailed {
          var usage := Get(params, "tokenUsage");
          record := record.(
            usage := usage, usageTurnId := if usage.Null? then None else Some(st.cfg.binding.base.turnId));
        }
      } else if name == Some(TURN_COMPLETED) {
        var turn := Field(params, "turn");
        if !turn.Obj? {
          return false;
        }
        if Get(turn.fields, "id") == Str(st.cfg.binding.base.turnId) {
          record := record.(turnStatus := Get(turn.fields, "status"));
        }
      } else if name == Some(ITEM_COMPLETED) {
        ok := AcceptOutput(params);
      }
    }

    method DrainBatch(batch: Batch) returns (ok: bool)
      requires Valid()
      modifies this, mapper
      ensures Valid()
      ensures Progress(Fields(), ok) == Drain(st, old(Fields()), batch)
    {
      ghost var end := ConsumeAll(st, Fields(), batch.events);
      var i := 0;
      ok := true;
      while i < |batch.events|
        invariant 0 <= i <= |batch.events|
        invariant Valid() && ok
        invariant ConsumeAll(st, Fields(), batch.events[i..]) == end
      {
        var e := batch.events[i];
        assert batch.events[i..][0] == e && batch.events[i..][1..] == batch.events[i + 1..];
        ok := ConsumeEnvelope(e);
        if ok && e.message.Some? {
          ok := AcceptMessage(e.message.value);
        }
        if !ok {
          return;
        }
        i := i + 1;
      }
      record := record.(providerAdmission := Some(mapper.TakeSnapshot()));
      ok := !batch.storeFails;
    }

    /** The polling loop and the exception handler around it. */
    method AttendTurn(batches: seq<Batch>) returns (ok: bool)
      requires Valid() && Fields() == LAUNCHED
      modifies this, mapper
      ensures Valid()
      ensures Progress(Fields(), ok) == Attend(st, batches)
    {
      ghost var end := Poll(st, LAUNCHED, batches);
      var i := 0;
      var settled := false;
      ok := true;
      while i < |batches| && ok && !settled
        invariant 0 <= i <= |batches|
        invariant Valid()
        invariant if ok && !settled then Poll(st, Fields(), batches[i..]) == end else Progress(Fields(), ok) == end
      {
        assert batches[i..][0] == batches[i] && batches[i..][1..] == batches[i + 1..];
        ok := DrainBatch(batches[i]);
        settled := Settled(mapper.Fields());
        i := i + 1;
      }
      if ok && !settled {
        ok := MarkAcquisitionLoss(AdmittedExecutionDeadlineElapsed);
      }
      if !ok {
        record := record.(failedLocally := true);
        ok := MarkAcquisitionLoss(AdapterOperationFailed);
      }
    }

    /** The `finally` block. */
    method ConcludeTurn(ending: Ending) returns (ok: bool)
      requires Valid()
      modifies this, mapper
      ensures Valid()
      ensures Progress(Fields(), ok) == Conclude(st, old(Fields()), ending)
    {
      ok := DrainBatch(ending.last);
      if !ok {
        return;
      }
      ok := ConsumeCut(ending.cut);
      if !ok {
        return;
      }
      record := record.(providerAdmission := Some(mapper.TakeSnapshot()));
      var state := StateOf(mapper.Fields(), record.turnStatus);
      if state.None? {
        return false;
      }
      record := record.(state := state.value);
      ok := !ending.storeFails;
    }

    /** `run` from the moment its mapper exists: the cleanup happens whether or not the handler
        itself raised, but an exception of either leaves the call. */
    method Turn(batches: seq<Batch>, ending: Ending) returns (returned: bool)
      requires Valid() && Fields() == LAUNCHED
      modifies this, mapper
      ensures Valid()
      ensures (if returned then Some(Fields()) else None) == Returned(st, batches, ending)
    {
      var attended := AttendTurn(batches);
      var concluded := ConcludeTurn(ending);
      returned := attended && concluded;
    }
  }
}
