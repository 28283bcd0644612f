/** What a run claims, told from the JSON of the messages it was fed: its output, its usage, its
    turn status and its outcome; and what the verifier finds in the retained frames. */
module WorkerOutput {
  import opened Wrappers
  import opened Utf8
  import opened Json
  import opened Reasons
  import opened AppServerProtocol
  import opened ProviderAdmission
  import opened AdmissionLog
  import opened CleanHistory
  import opened ProviderRunner
  import opened RunVerification
  import opened LiveReplayAgreement
  import opened EndToEndCustody
  import opened WholeRun

  // ---- The messages, field by field ----

  /** A message by this method about this thread, with an object of params. */
  predicate About(base: BaseFields, message: Object, name: string) {
    && "method" in message && message["method"] == Str(name)
    && "params" in message && message["params"].Obj?
    && "threadId" in message["params"].fields && message["params"].fields["threadId"] == Str(base.threadId)
  }

  predicate OfThisTurn(base: BaseFields, message: Object)
    requires "params" in message && message["params"].Obj?
  {
    "turnId" in message["params"].fields && message["params"].fields["turnId"] == Str(base.turnId)
  }

  /** The completion of an agent message of this turn, with this text. */
  predicate IsAgentText(base: BaseFields, message: Object, text: string) {
    && About(base, message, "item/completed") && OfThisTurn(base, message)
    && var params := message["params"].fields;
    && "item" in params && params["item"].Obj?
    && var item := params["item"].fields;
    && "type" in item && item["type"] == Str("agentMessage") && "text" in item && item["text"] == Str(text)
  }

  /** The end of this turn, with this status. */
  predicate IsTurnEnd(base: BaseFields, message: Object, status: Json) {
    && About(base, message, "turn/completed")
    && var params := message["params"].fields;
    && "turn" in params && params["turn"].Obj?
    && var turn := params["turn"].fields;
    && "id" in turn && turn["id"] == Str(base.turnId)
    && status == if "status" in turn then turn["status"] else Null
  }

  /** A report of this turn's token usage. */
  predicate IsUsage(base: BaseFields, message: Object, usage: Json) {
    && About(base, message, "thread/tokenUsage/updated") && OfThisTurn(base, message)
    && var params := message["params"].fields;
    && usage == if "tokenUsage" in params then params["tokenUsage"] else Null
  }

  function TextIn(base: BaseFields, message: Object): (r: Option<string>)
    ensures r.Some? ==> IsAgentText(base, message, r.value)
    ensures r.None? ==> forall text :: !IsAgentText(base, message, text)
  {
    if && About(base, message, "item/completed") && OfThisTurn(base, message)
       && "item" in message["params"].fields && message["params"].fields["item"].Obj?
       && var item := message["params"].fields["item"].fields;
       && "type" in item && item["type"] == Str("agentMessage") && "text" in item && item["text"].Str?
    then Some(message["params"].fields["item"].fields["text"].s) else None
  }

  // ---- Over all messages ----

  /** The objects these envelopes carry. */
  function Messages(es: seq<AcquisitionEnvelope>): seq<Object> {
    if es == [] then []
    else Messages(es[..|es| - 1]) + if es[|es| - 1].message.Some? then [es[|es| - 1].message.value.raw] else []
  }

  /** All agent texts of the turn, in order. */
  function AgentTexts(base: BaseFields, messages: seq<Object>): seq<string> {
    if messages == [] then []
    else
      AgentTexts(base, messages[..|messages| - 1]) +
      match TextIn(base, messages[|messages| - 1]) { case Some(text) => [text] case None => [] }
  }

  function LastOf(texts: seq<string>): Option<string> {
    if texts == [] then None else Some(texts[|texts| - 1])
  }

  function TotalSize(texts: seq<string>): nat {
    if texts == [] then 0 else TotalSize(texts[..|texts| - 1]) + |Encode(texts[|texts| - 1])|
  }

  /** What the last end of the turn said its status was. */
  ghost predicate LastStatus(base: BaseFields, messages: seq<Object>, status: Json)
    decreases |messages|
  {
    if messages == [] then status == Null
    else
      var init, last := messages[..|messages| - 1], messages[|messages| - 1];
      IsTurnEnd(base, last, status) || ((forall other :: !IsTurnEnd(base, last, other)) && LastStatus(base, init, status))
  }

  /** What the last report of the turn's usage said. */
  ghost predicate LastUsage(base: BaseFields, messages: seq<Object>, usage: Json)
    decreases |messages|
  {
    if messages == [] then usage == Null
    else
      var init, last := messages[..|messages| - 1], messages[|messages| - 1];
      IsUsage(base, last, usage) || ((forall other :: !IsUsage(base, last, other)) && LastUsage(base, init, usage))
  }

  /** A usage is stored together with the turn it is of. */
  predicate UsageNamed(st: Settings, l: Live) {
    l.record.usageTurnId == if l.record.usage == Null then None else Some(st.cfg.binding.base.turnId)
  }

  lemma TextsExtend(base: BaseFields, messages: seq<Object>, message: Object)
    ensures AgentTexts(base, messages + [message]) == AgentTexts(base, messages) +
      match TextIn(base, message) { case Some(text) => [text] case None => [] }
    ensures LastOf(AgentTexts(base, messages + [message])) ==
      if TextIn(base, message).Some? then TextIn(base, message) else LastOf(AgentTexts(base, messages))
    ensures TotalSize(AgentTexts(base, messages + [message])) == TotalSize(AgentTexts(base, messages)) +
      if TextIn(base, message).Some? then |Encode(TextIn(base, message).value)| else 0
  {
    hide TextIn;
    assert (messages + [message])[..|messages|] == messages;
    if TextIn(base, message).Some? {
      var texts, text := AgentTexts(base, messages), TextIn(base, message).value;
      assert (texts + [text])[..|texts|] == texts;
    } else {
      assert AgentTexts(base, messages) + [] == AgentTexts(base, messages);
    }
  }

  lemma MessagesExtend(es: seq<AcquisitionEnvelope>, e: AcquisitionEnvelope)
    ensures Messages(es + [e]) == Messages(es) + if e.message.Some? then [e.message.value.raw] else []
  {
    assert (es + [e])[..|es|] == es;
  }

  // ---- The live run ----

  /** What projecting one message does to a run that stays without trouble. */
  lemma ProjectMeans(st: Settings, l: Live, message: ServerMessage)
    requires !l.attributionFailed
    requires Project(st, l, message).ok && Project(st, l, message).live.calls == l.calls
    ensures var base, q := st.cfg.binding.base, Project(st, l, message).live;
      && !q.attributionFailed && (UsageNamed(st, l) ==> UsageNamed(st, q)) && q.record.failedLocally == l.record.failedLocally
      && (var text := TextIn(base, message.raw);
          && q.record.workerOutput == (if text.Some? then text else l.record.workerOutput)
          && q.outputBytes == l.outputBytes + (if text.Some? then |Encode(text.value)| else 0)
          && (text.Some? ==> q.outputBytes <= st.maximumOutputBytes))
      && (IsTurnEnd(base, message.raw, q.record.turnStatus)
          || ((forall other :: !IsTurnEnd(base, message.raw, other)) && q.record.turnStatus == l.record.turnStatus))
      && (IsUsage(base, message.raw, q.record.usage)
          || ((forall other :: !IsUsage(base, message.raw, other)) && q.record.usage == l.record.usage))
  {
    var base, params, name := st.cfg.binding.base, message.Params(), message.MethodName();
    assert |TOKEN_USAGE| == 25 && |ITEM_COMPLETED| == 14 && |TURN_COMPLETED| == 14;
    assert TURN_COMPLETED[0] == 't' && ITEM_COMPLETED[0] == 'i';
    if InThread(st, params) && name == Some(ITEM_COMPLETED) {
      ProjectsItem(st, l, message);
    } else if InThread(st, params) && name == Some(TURN_COMPLETED) {
      assert TextIn(base, message.raw).None?;
    } else {
      assert TextIn(base, message.raw).None?;
    }
  }

  lemma ProjectsItem(st: Settings, l: Live, message: ServerMessage)
    requires !l.attributionFailed && InThread(st, message.Params()) && message.MethodName() == Some(ITEM_COMPLETED)
    requires Project(st, l, message).ok && Project(st, l, message).live.calls == l.calls
    ensures var q, text := Project(st, l, message).live, TextIn(st.cfg.binding.base, message.raw);
      && q == l.(record := l.record.(workerOutput := if text.Some? then text else l.record.workerOutput),
                 outputBytes := l.outputBytes + (if text.Some? then |Encode(text.value)| else 0))
      && (text.Some? ==> q.outputBytes <= st.maximumOutputBytes)
  {
    hide Run, Step;
    assert |TOKEN_USAGE| == 25 && |ITEM_COMPLETED| == 14 && TURN_COMPLETED[0] == 't' && ITEM_COMPLETED[0] == 'i';
    var params := message.Params();
    assert "params" in message.raw && message.raw["params"] == Obj(params);
    assert InTurn(st, params);
  }

  /** What an untroubled run has made of the messages fed so far. */
  ghost predicate Told(st: Settings, l: Live) {
    Untroubled(st, l) ==>
      var base, messages := st.cfg.binding.base, Messages(Fed(l.calls));
      && !l.attributionFailed && UsageNamed(st, l) && !l.record.failedLocally
      && l.record.workerOutput == LastOf(AgentTexts(base, messages))
      && l.outputBytes == TotalSize(AgentTexts(base, messages))
      && (l.outputBytes <= st.maximumOutputBytes)
      && LastStatus(base, messages, l.record.turnStatus)
      && LastUsage(base, messages, l.record.usage)
  }

  lemma ConsumeTells(st: Settings, l: Live, e: AcquisitionEnvelope)
    requires Told(st, l) && Consume(st, l, e).ok
    ensures Told(st, Consume(st, l, e).live)
  {
    hide Project, IsTurnEnd, IsUsage, TextIn, AgentTexts, TotalSize, Step, Run;
    var l1, q, base := Perform(st, l, Envelope(e)).live, Consume(st, l, e).live, st.cfg.binding.base;
    CallAppends(st, l, Envelope(e));
    FedExtends(l.calls, Envelope(e));
    MessagesExtend(Fed(l.calls), e);
    if Untroubled(st, q) {
      var messages := Messages(Fed(l.calls));
      if e.message.Some? {
        var raw := e.message.value.raw;
        ProjectKeepsCalls(st, l1, e.message.value);
        ProjectMeans(st, l1, e.message.value);
        TextsExtend(base, messages, raw);
        assert (messages + [raw])[..|messages|] == messages;
      } else {
        assert messages + [] == messages;
      }
    }
  }

  lemma {:induction false} ConsumeAllTells(st: Settings, l: Live, events: seq<AcquisitionEnvelope>)
    requires Told(st, l) && ConsumeAll(st, l, events).ok
    ensures Told(st, ConsumeAll(st, l, events).live)
    decreases |events|
  {
    hide Told, Consume;
    if events != [] {
      ConsumeTells(st, l, events[0]);
      ConsumeAllTells(st, Consume(st, l, events[0]).live, events[1..]);
    }
  }

  /** Neither what is stored nor a call without an envelope changes what was told. */
  lemma SameTold(st: Settings, l: Live, l': Live)
    requires Told(st, l) && l'.calls == l.calls && l'.outputBytes == l.outputBytes
    requires l'.attributionFailed == l.attributionFailed
    requires l'.record == l.record.(providerAdmission := l'.record.providerAdmission, state := l'.record.state)
    ensures Told(st, l')
  {
  }

  lemma DrainTells(st: Settings, l: Live, batch: Batch)
    requires Told(st, l) && Drain(st, l, batch).ok
    ensures Told(st, Drain(st, l, batch).live)
  {
    hide Told;
    ConsumeAllTells(st, l, batch.events);
    SameTold(st, ConsumeAll(st, l, batch.events).live, Drain(st, l, batch).live);
  }

  lemma {:induction false} PollTells(st: Settings, l: Live, batches: seq<Batch>)
    requires Told(st, l) && Poll(st, l, batches).ok
    ensures Told(st, Poll(st, l, batches).live)
    decreases |batches|
  {
    hide Drain;
    if batches == [] {
      LossTroubles(st, l, AdmittedExecutionDeadlineElapsed);
    } else {
      DrainTells(st, l, batches[0]);
      if !Settled(MapperOf(st, Drain(st, l, batches[0]).live)) {
        PollTells(st, Drain(st, l, batches[0]).live, batches[1..]);
      }
    }
  }

  lemma StartsTold(st: Settings)
    ensures Told(st, LAUNCHED)
  {
    assert Messages(Fed(LAUNCHED.calls)) == [];
  }

  lemma CutTells(st: Settings, l: Live, cut: AcquisitionCut)
    requires Told(st, l) && Perform(st, l, Cut(cut)).ok
    ensures Told(st, Perform(st, l, Cut(cut)).live)
  {
    hide Step, Run;
    CallAppends(st, l, Cut(cut));
    FedExtends(l.calls, Cut(cut));
    assert Fed(l.calls) + [] == Fed(l.calls);
  }

  lemma ReturnedTells(st: Settings, batches: seq<Batch>, ending: Ending)
    requires Returned(st, batches, ending).Some?
    ensures Told(st, Returned(st, batches, ending).value)
  {
    hide Told, Drain, Poll;
    var p := Poll(st, LAUNCHED, batches);
    StartsTold(st);
    if p.ok {
      PollTells(st, LAUNCHED, batches);
    } else {
      FailedTells(st, p.live.(record := p.live.record.(failedLocally := true)));
    }
    var q := Attend(st, batches);
    DrainTells(st, q.live, ending.last);
    CutTells(st, Drain(st, q.live, ending.last).live, ending.cut);
    SameTold(st, Perform(st, Drain(st, q.live, ending.last).live, Cut(ending.cut)).live,
             Returned(st, batches, ending).value);
  }

  lemma FailedTells(st: Settings, l: Live)
    requires Perform(st, l, Loss(AdapterOperationFailed)).ok
    ensures Told(st, Perform(st, l, Loss(AdapterOperationFailed)).live)
  {
    LossTroubles(st, l, AdapterOperationFailed);
  }

  /** The output of a cleanly cut run is the text of the last completed agent message of its turn
      among everything it was fed, and None only where there is none; all such texts together are
      within the bound. Its status and its usage are those last reported, and nothing failed locally. */
  lemma OutputIsLastText(st: Settings, batches: seq<Batch>, ending: Ending)
    requires Returned(st, batches, ending).Some?
    requires CleanlyCut(MapperOf(st, Returned(st, batches, ending).value))
    ensures var l, base := Returned(st, batches, ending).value, st.cfg.binding.base;
      var messages := Messages(EventsOf(batches[..Polled(st, LAUNCHED, batches)]) + ending.last.events);
      && l.record.workerOutput == LastOf(AgentTexts(base, messages))
      && l.outputBytes == TotalSize(AgentTexts(base, messages)) <= st.maximumOutputBytes
      && LastStatus(base, messages, l.record.turnStatus)
      && LastUsage(base, messages, l.record.usage) && !l.record.failedLocally
      && l.record.usageTurnId == if l.record.usage == Null then None else Some(base.turnId)
  {
    hide Returned, Run, LastStatus, LastUsage, AgentTexts;
    ReturnedTells(st, batches, ending);
    ReturnedFeeds(st, batches, ending);
    CleanMeansNothingWentWrong(st.cfg, Returned(st, batches, ending).value.calls);
  }

  // ---- The outcome ----

  lemma ConsumeKeepsFlag(st: Settings, l: Live, e: AcquisitionEnvelope)
    ensures Consume(st, l, e).live.record.failedLocally == l.record.failedLocally
  {
    hide Step, Run;
  }

  lemma {:induction false} DrainKeepsFlag(st: Settings, l: Live, events: seq<AcquisitionEnvelope>)
    ensures ConsumeAll(st, l, events).live.record.failedLocally == l.record.failedLocally
    decreases |events|
  {
    hide Consume;
    if events != [] {
      ConsumeKeepsFlag(st, l, events[0]);
      DrainKeepsFlag(st, Consume(st, l, events[0]).live, events[1..]);
    }
  }

  lemma {:induction false} PollKeepsFlag(st: Settings, l: Live, batches: seq<Batch>)
    ensures Poll(st, l, batches).live.record.failedLocally == l.record.failedLocally
    decreases |batches|
  {
    hide ConsumeAll, Step, Run;
    if batches != [] {
      DrainKeepsFlag(st, l, batches[0].events);
      PollKeepsFlag(st, Drain(st, l, batches[0]).live, batches[1..]);
    }
  }

  /** Every outcome is claimed exactly under its own conditions. */
  lemma OutcomeExactly(st: Settings, batches: seq<Batch>, ending: Ending)
    requires Returned(st, batches, ending).Some?
    ensures var l := Returned(st, batches, ending).value;
      var s, status := MapperOf(st, l), l.record.turnStatus;
      var completed := CleanlyCut(s) && s.mechanism == M_PROVIDER_COMPLETED;
      && (l.record.state == RUN_COMPLETED <==> completed && status == Str("completed"))
      && (l.record.state == RUN_FAILED <==> completed && status == Str("failed"))
      && (l.record.state == RUN_INTERRUPTED <==> completed && status == Str("interrupted"))
      && (l.record.state == RUN_NOT_ADMITTED <==> CleanlyCut(s) && s.mechanism == M_PARKED_NOT_ADMITTED)
      && l.record.providerAdmission == Some(SnapshotOf(st.cfg, s))
      && (completed || l.record.state in {RUN_NOT_ADMITTED, OUTCOME_UNKNOWN})
      && (l.record.failedLocally <==> !Poll(st, LAUNCHED, batches).ok)
      && !ending.last.storeFails && !ending.storeFails
  {
    hide Poll, ConsumeAll, Run, Step;
    PollKeepsFlag(st, LAUNCHED, batches);
    DrainKeepsFlag(st, Attend(st, batches).live, ending.last.events);
  }

  /** Polling goes on exactly until the mapper is completed, parked, waiting or distrusted. */
  lemma SettledExactly(s: State)
    ensures Settled(s) <==>
      !s.mechanism.M_DISPATCHING? && !s.mechanism.M_EXECUTION_ADMITTED? && !s.mechanism.M_RUNNING?
  {
    match s.mechanism
    case M_DISPATCHING =>
    case _ =>
  }

  // ---- The verifier ----

  /** The objects in the retained frames, where every frame is one. */
  ghost predicate Retains(w: World, records: seq<Record>, frames: seq<Object>)
    decreases |records|
  {
    if records == [] then frames == []
    else
      var init, raw := records[..|records| - 1], records[|records| - 1].body.raw;
      if raw.None? then Retains(w, init, frames)
      else
        && frames != [] && w.parse(raw.value.content) == Parsed(Obj(frames[|frames| - 1]))
        && Retains(w, init, frames[..|frames| - 1])
  }

  /** A frame the verifier can read: a plain method, and for output and usage an object of params,
      of this turn if of this thread, with an object for an item. */
  predicate Readable(base: BaseFields, frame: Object) {
    var name := if "method" in frame then frame["method"] else Null;
    && !name.Arr? && !name.Obj?
    && (name in {Str("item/completed"), Str("thread/tokenUsage/updated")} && "params" in frame ==>
          && frame["params"].Obj?
          && var params := frame["params"].fields;
          && ("threadId" in params && params["threadId"] == Str(base.threadId) ==>
                && "turnId" in params && params["turnId"] == Str(base.turnId)
                && (name == Str("item/completed") && "item" in params ==> params["item"].Obj?)))
  }

  lemma VerifyMeans(base: BaseFields, maximum: nat, p: Projected, frame: Object)
    ensures var r, text := VerifyMessage(base, maximum, p, frame), TextIn(base, frame);
      var total := p.total + if text.Some? then |Encode(text.value)| else 0;
      && (r.Ok? <==> Readable(base, frame) && (text.Some? ==> total <= maximum))
      && (r.Ok? ==> r.value == Projected(if text.Some? then text else p.output, total))
  {
    assert |TOKEN_USAGE| == 25 && |ITEM_COMPLETED| == 14;
    hide Encode;
  }

  ghost predicate AllReadable(base: BaseFields, frames: seq<Object>) {
    forall i | 0 <= i < |frames| :: Readable(base, frames[i])
  }

  /** Over any log whose frames are objects, the verifier succeeds exactly when every frame is
      readable and all agent texts together are within the bound, and then it finds the last of
      those texts and their total size. */
  lemma {:induction false} VerifiedExactly(
    w: World, base: BaseFields, maximum: nat, records: seq<Record>, frames: seq<Object>)
    requires Retains(w, records, frames)
    ensures var r, texts := VerifyRecords(w, base, maximum, records), AgentTexts(base, frames);
      && (r.Ok? <==> AllReadable(base, frames) && TotalSize(texts) <= maximum)
      && (r.Ok? ==> r.value == Projected(LastOf(texts), TotalSize(texts)))
    decreases |records|
  {
    hide VerifyMessage, Readable, TextIn, AgentTexts, TotalSize;
    if records == [] {
      assert AgentTexts(base, []) == [] && TotalSize([]) == 0 by {
        NothingToVerify(base);
      }
    } else {
      var init, last := records[..|records| - 1], records[|records| - 1];
      if last.body.raw.None? {
        VerifiedExactly(w, base, maximum, init, frames);
      } else {
        var before, frame := frames[..|frames| - 1], frames[|frames| - 1];
        VerifiedExactly(w, base, maximum, init, before);
        assert frames == before + [frame];
        TextsExtend(base, before, frame);
        ReadableExtends(base, before, frame);
        if VerifyRecords(w, base, maximum, init).Ok? {
          VerifyMeans(base, maximum, VerifyRecords(w, base, maximum, init).value, frame);
        }
      }
    }
  }

  lemma NothingToVerify(base: BaseFields)
    ensures AgentTexts(base, []) == [] && TotalSize([]) == 0
  {
  }

  lemma ReadableExtends(base: BaseFields, frames: seq<Object>, frame: Object)
    ensures AllReadable(base, frames + [frame]) <==> AllReadable(base, frames) && Readable(base, frame)
  {
    hide Readable;
    var all := frames + [frame];
    assert all[|frames|] == frame;
    assert forall i | 0 <= i < |frames| :: all[i] == frames[i];
  }

  /** A log with a frame that is no object is never verified. */
  lemma {:induction false} UnreadFrameFails(w: World, base: BaseFields, maximum: nat, records: seq<Record>, i: nat)
    requires i < |records| && records[i].body.raw.Some?
    requires forall frame: Object :: w.parse(records[i].body.raw.value.content) != Parsed(Obj(frame))
    ensures VerifyRecords(w, base, maximum, records).Err?
  {
    if i < |records| - 1 {
      UnreadFrameFails(w, base, maximum, records[..|records| - 1], i);
    }
  }

  /** So the output of a snapshot is the last agent text among its frames. */
  lemma VerifiedOutputExactly(w: World, snapshot: Snapshot, maximum: nat, frames: seq<Object>)
    requires Retains(w, snapshot.records, frames)
    ensures var r, base := VerifiedOutput(w, snapshot, maximum), snapshot.binding.base;
      && (r.Ok? <==> AllReadable(base, frames) && TotalSize(AgentTexts(base, frames)) <= maximum)
      && (r.Ok? ==> r.value == LastOf(AgentTexts(base, frames)))
  {
    VerifiedExactly(w, snapshot.binding.base, maximum, snapshot.records, frames);
  }
}
