/** The echo contract's larger frames, told from the fields: which frames are selected, and which
    lifecycles of the echoed input and of the agent's output are kept. */
module EchoFacts {
  import opened Wrappers
  import opened Utf8
  import opened Json
  import opened AppServerProtocol
  import opened ProviderAdmission
  import opened ProviderFacts
  import opened OrderedAcquisition

  // ---- The closed frames ----

  predicate TimeValue(v: Json) { v.Int? && -9007199254740991 <= v.n <= 9007199254740991 }

  predicate IdValue(v: Json) { v.Str? && 1 <= |v.s| <= 512 }

  predicate TextValue(v: Json) { v.Str? && |Encode(v.s)| <= 32768 }

  /** The closed outgoing notification by this method. */
  predicate Outgoing(fields: Object, name: string) {
    && fields.Keys == {"method", "params", "emittedAtMs"} && fields["method"] == Str(name) && fields["params"].Obj?
    && TimeValue(fields["emittedAtMs"]) && fields["emittedAtMs"].n > 0
  }

  /** The closed params of an item's start or completion in this turn. */
  predicate ItemEvent(p: Object, time: string, base: BaseFields) {
    && p.Keys == {"threadId", "turnId", "item", time}
    && p["threadId"] == Str(base.threadId) && p["turnId"] == Str(base.turnId)
    && TimeValue(p[time]) && p["item"].Obj?
  }

  predicate InputItem(item: Object, input: Json) {
    && item.Keys == {"type", "id", "clientId", "content"}
    && item["type"] == Str("userMessage") && IdValue(item["id"]) && item["clientId"] == Null && item["content"] == input
  }

  predicate AgentItem(item: Object) {
    && item.Keys == {"type", "id", "text", "phase", "memoryCitation", "delivery"}
    && item["type"] == Str("agentMessage") && IdValue(item["id"]) && TextValue(item["text"])
    && (item["phase"] == Null || item["phase"] == Str("commentary") || item["phase"] == Str("final_answer"))
    && item["memoryCitation"] == Null && item["delivery"] == Null
  }

  function ItemName(started: bool): string { if started then "item/started" else "item/completed" }

  function ItemTime(started: bool): string { if started then "startedAtMs" else "completedAtMs" }

  predicate ItemFrame(fields: Object, started: bool, base: BaseFields) {
    Outgoing(fields, ItemName(started)) && ItemEvent(fields["params"].fields, ItemTime(started), base)
  }

  /** The start or completion of the selected input. */
  predicate InputFrame(fields: Object, started: bool, base: BaseFields, input: Json) {
    ItemFrame(fields, started, base) && InputItem(fields["params"].fields["item"].fields, input)
  }

  /** The start or completion of an agent message. */
  predicate AgentFrame(fields: Object, started: bool, base: BaseFields) {
    ItemFrame(fields, started, base) && AgentItem(fields["params"].fields["item"].fields)
  }

  /** A piece of an agent message. */
  predicate DeltaFrame(fields: Object, base: BaseFields) {
    && Outgoing(fields, "item/agentMessage/delta")
    && var p := fields["params"].fields;
    && p.Keys == {"threadId", "turnId", "itemId", "delta"}
    && p["threadId"] == Str(base.threadId) && p["turnId"] == Str(base.turnId)
    && IdValue(p["itemId"]) && TextValue(p["delta"])
  }

  predicate TimeOrNull(v: Json) { v == Null || TimeValue(v) }

  /** The summary of the completed turn, with its one agent message. */
  predicate SummaryFrame(fields: Object, base: BaseFields) {
    && Outgoing(fields, "turn/completed")
    && var p := fields["params"].fields;
    && p.Keys == {"threadId", "turn", "emittedAtMs"}
    && p["threadId"] == Str(base.threadId) && TimeValue(p["emittedAtMs"]) && p["turn"].Obj?
    && var turn := p["turn"].fields;
    && turn.Keys == {"id", "items", "itemsView", "status", "error", "startedAt", "completedAt", "durationMs"}
    && turn["id"] == Str(base.turnId) && turn["items"].Arr? && |turn["items"].items| == 1
    && turn["items"].items[0].Obj? && AgentItem(turn["items"].items[0].fields)
    && turn["itemsView"] == Str("summary") && turn["status"] == Str("completed") && turn["error"] == Null
    && TimeOrNull(turn["startedAt"]) && TimeOrNull(turn["completedAt"]) && TimeOrNull(turn["durationMs"])
  }

  lemma ItemNames(name: string)
    ensures name == "item/started" ==> name != "item/completed"
    ensures name == "item/started" || name == "item/completed" ==> name != "item/agentMessage/delta" && name != "turn/completed"
    ensures name == "item/agentMessage/delta" ==> name != "turn/completed"
  {
    assert |"item/started"| == 12 && |"item/completed"| == 14 && |"item/agentMessage/delta"| == 23;
    assert "turn/completed"[0] == 't' && "item/completed"[0] == 'i' && |"turn/completed"| == 14;
  }

  /** The input's echo is selected exactly in its two closed forms. */
  lemma InputSelectedExactly(fields: Object, raw: Option<bytes>, base: BaseFields, input: Json)
    ensures IsBoundedTurnUserInputEcho(ServerMessage(fields, raw), Some(input), base.threadId, Some(base.turnId))
      <==> InputFrame(fields, true, base, input) || InputFrame(fields, false, base, input)
  {
    var message := ServerMessage(fields, raw);
    if message.MethodName().Some? {
      ItemNames(message.MethodName().value);
    }
  }

  lemma AgentItemExactly(item: Json)
    ensures BoundedAgentItem(item) == Some(true) <==> item.Obj? && AgentItem(item.fields)
  {
  }

  lemma AgentItemSelected(fields: Object, raw: Option<bytes>, base: BaseFields, started: bool)
    requires ServerMessage(fields, raw).MethodName() == Some(ItemName(started))
    ensures IsBoundedTurnAgentOutput(ServerMessage(fields, raw), base.threadId, Some(base.turnId)) == Some(true)
      <==> AgentFrame(fields, started, base)
  {
    hide AgentItem, BoundedAgentItem;
    ItemNames("item/started");
    AgentItemExactly(Get(ServerMessage(fields, raw).Params(), "item"));
  }

  lemma SummarySelected(fields: Object, raw: Option<bytes>, base: BaseFields)
    requires ServerMessage(fields, raw).MethodName() == Some("turn/completed")
    ensures IsBoundedTurnAgentOutput(ServerMessage(fields, raw), base.threadId, Some(base.turnId)) == Some(true)
      <==> SummaryFrame(fields, base)
  {
    hide AgentItem, BoundedAgentItem;
    ItemNames("item/started");
    ItemNames("item/completed");
    var turn := Get(ServerMessage(fields, raw).Params(), "turn");
    if turn.Obj? && "items" in turn.fields && turn.fields["items"].Arr? && |turn.fields["items"].items| == 1 {
      AgentItemExactly(turn.fields["items"].items[0]);
    }
  }

  /** Agent output is selected exactly in its four closed forms. */
  lemma AgentSelectedExactly(fields: Object, raw: Option<bytes>, base: BaseFields)
    ensures IsBoundedTurnAgentOutput(ServerMessage(fields, raw), base.threadId, Some(base.turnId)) == Some(true)
      <==> || AgentFrame(fields, true, base) || AgentFrame(fields, false, base)
           || DeltaFrame(fields, base) || SummaryFrame(fields, base)
  {
    hide ItemEvent, AgentItem, BoundedAgentItem, BoundedSummaryFields, BoundedSummaryTail;
    var name := ServerMessage(fields, raw).MethodName();
    ItemNames("item/started");
    ItemNames("item/completed");
    ItemNames("item/agentMessage/delta");
    if name == Some("item/started") {
      AgentItemSelected(fields, raw, base, true);
    } else if name == Some("item/completed") {
      AgentItemSelected(fields, raw, base, false);
    } else if name == Some("turn/completed") {
      SummarySelected(fields, raw, base);
    }
  }

  /** The echo of the input in a turn that is not known yet. */
  predicate EarlyInputFrame(fields: Object, started: bool, threadId: string, input: Json) {
    && Outgoing(fields, ItemName(started))
    && var p, time := fields["params"].fields, ItemTime(started);
    && p.Keys == {"threadId", "turnId", "item", time}
    && p["threadId"] == Str(threadId) && TimeValue(p[time]) && p["item"].Obj? && InputItem(p["item"].fields, input)
  }

  lemma EarlyInputExactly(fields: Object, raw: Option<bytes>, threadId: string, input: Json)
    ensures IsBoundedTurnUserInputEcho(ServerMessage(fields, raw), Some(input), threadId, None)
      <==> EarlyInputFrame(fields, true, threadId, input) || EarlyInputFrame(fields, false, threadId, input)
  {
    var message := ServerMessage(fields, raw);
    if message.MethodName().Some? {
      ItemNames(message.MethodName().value);
    }
  }

  /** The reader lets a line be larger exactly under the echo contract, once an input is selected, up
      to 256 KiB, and for the input's echo or, once the turn is known, for agent output of that turn. */
  lemma ReaderSelectsExactly(
    setup: Setup, selection: Selection, line: bytes, fields: Object, base: BaseFields, input: Json)
    requires selection.echo.Some? ==> selection.echo.value == (base.threadId, input)
    requires selection.turnId.Some? ==> selection.turnId.value == base.turnId
    ensures SelectsFrame(setup, selection, ServerMessage(fields, Some(line)), line) == Some(true) <==>
      && setup.contract == BoundedTurnEchoV1 && selection.echo.Some? && |line| <= 262144
      && (|| EarlyInputFrame(fields, true, base.threadId, input) || EarlyInputFrame(fields, false, base.threadId, input)
          || (selection.turnId.Some?
              && (|| AgentFrame(fields, true, base) || AgentFrame(fields, false, base)
                  || DeltaFrame(fields, base) || SummaryFrame(fields, base))))
  {
    hide IsBoundedTurnUserInputEcho, IsBoundedTurnAgentOutput, EarlyInputFrame, AgentFrame, DeltaFrame, SummaryFrame;
    EarlyInputExactly(fields, Some(line), base.threadId, input);
    AgentSelectedExactly(fields, Some(line), base);
  }

  /** The mapper selects the same frames, of its own turn. */
  lemma MapperSelectsExactly(cfg: Config, s: State, wire: bytes, fields: Object)
    ensures var base, input := cfg.binding.base, s.bounded.turnInput;
      SelectedEcho(cfg, s, ServerMessage(fields, Some(wire))) == Some(true) <==>
      && cfg.contract == BoundedTurnEchoV1
      && (|| (input.Some? && (InputFrame(fields, true, base, input.value) || InputFrame(fields, false, base, input.value)))
          || AgentFrame(fields, true, base) || AgentFrame(fields, false, base)
          || DeltaFrame(fields, base) || SummaryFrame(fields, base))
  {
    hide IsBoundedTurnUserInputEcho, IsBoundedTurnAgentOutput, InputFrame, AgentFrame, DeltaFrame, SummaryFrame;
    var base, message := cfg.binding.base, ServerMessage(fields, Some(wire));
    if s.bounded.turnInput.Some? {
      InputSelectedExactly(fields, Some(wire), base, s.bounded.turnInput.value);
    } else {
      NothingToEcho(message, base);
    }
    AgentSelectedExactly(fields, Some(wire), base);
  }

  lemma NothingToEcho(message: ServerMessage, base: BaseFields)
    ensures !IsBoundedTurnUserInputEcho(message, None, base.threadId, Some(base.turnId))
  {
  }

  // ---- Reaching the bookkeeping ----

  /** A selected line, in custody within 256 KiB, of a mapper that is open and under the contract. */
  predicate DeliveredLarge(cfg: Config, s: State, wire: bytes, fields: Object) {
    && cfg.contract == BoundedTurnEchoV1 && Active(s)
    && s.acquisitionCut.None? && 0 <= s.expectedOrdinal <= 9007199254740991
    && 1 <= |wire| <= 262144 && wire[|wire| - 1] == 10 && cfg.world.parse(wire) == Parsed(Obj(fields))
  }

  lemma LargeStep(cfg: Config, s: State, wire: bytes, fields: Object, name: string)
    requires DeliveredLarge(cfg, s, wire, fields) && Names(fields, name)
    requires SelectedEcho(cfg, s, ServerMessage(fields, Some(wire))) == Some(true)
    requires name in {"item/started", "item/completed", "item/agentMessage/delta"}
    ensures var s1, message := s.(expectedOrdinal := s.expectedOrdinal + 1), ServerMessage(fields, Some(wire));
      var (d, b) := DecideBoundedOutput(cfg, s1, name, message, CustodyOf(cfg.world, wire));
      d.Some? && Step(cfg, s, Feed(s, NOTIFICATION, wire, fields))
        == Atomic(s, Apply(cfg, s1.(bounded := b), Origin(s, NOTIFICATION), d.value))
  {
    hide DecideBoundedOutput, Apply, SelectedFrame;
    var message := ServerMessage(fields, Some(wire));
    var s1 := s.(expectedOrdinal := s.expectedOrdinal + 1);
    assert SelectedEcho(cfg, s1, message) == SelectedEcho(cfg, s, message);
    assert WireCustody(cfg.world, message, MAXIMUM_USER_INPUT_ECHO_BYTES) == Ok(CustodyOf(cfg.world, wire));
    ItemIsBounded(cfg, s1, name, message, CustodyOf(cfg.world, wire));
    LargeDecided(cfg, s1, message, name, CustodyOf(cfg.world, wire));
  }

  lemma ItemIsBounded(cfg: Config, s: State, name: string, message: ServerMessage, raw: RawCustody)
    requires message.MethodName() == Some(name) && name in {"item/started", "item/completed", "item/agentMessage/delta"}
    ensures DecideBoundedOutput(cfg, s, name, message, raw).0.Some?
  {
    ItemNames(name);
    hide IsBoundedTurnUserInputEcho, DecideInputEcho, DecideAgentItem;
  }

  lemma LargeDecided(cfg: Config, s: State, message: ServerMessage, name: string, raw: RawCustody)
    requires Active(s) && cfg.contract.BoundedTurnEchoV1? && Names(message.raw, name)
    requires name in {"item/started", "item/completed", "item/agentMessage/delta"}
    ensures var (d, b) := DecideBoundedOutput(cfg, s, name, message, raw);
      d.Some? && DecideCustodied(cfg, s, message, false, true, raw) == Verdict(d.value, b)
  {
    hide DecideBoundedOutput;
    assert message.MethodName() == Some(name);
    ItemIsBounded(cfg, s, name, message, raw);
    assert name[0] == 'i' && name[4] == '/';
    assert "providerRequest/started"[0] == 'p' && "rawResponse/started"[0] == 'r' && "providerAdmission/refused"[0] == 'p';
    assert "rawResponse/completed"[0] == 'r' && "error"[0] == 'e' && "turn/completed"[0] == 't' && "turn/started"[0] == 't';
    assert "thread/started"[0] == 't';
    assert "providerAdmission/"[0] == 'p' && "providerRequest/"[0] == 'p' && "rawResponse/"[0] == 'r';
  }

  /** What a decided item frame leaves: a trace of it, or distrust. */
  ghost predicate Traced(cfg: Config, s: State, out: Outcome, wire: bytes, name: string, b: Bounded) {
    Keeps(cfg, s, out, Origin(s, NOTIFICATION), s.(expectedOrdinal := s.expectedOrdinal + 1, bounded := b),
      ACQUISITION_WATERMARK, name, Some(CustodyOf(cfg.world, wire)), ProvesNothing)
  }

  ghost predicate UntrustedAt(cfg: Config, s: State, out: Outcome, wire: bytes, name: string, b: Bounded) {
    Distrusts(cfg, s, out, Origin(s, NOTIFICATION), s.(expectedOrdinal := s.expectedOrdinal + 1, bounded := b),
      name, Some(CustodyOf(cfg.world, wire)))
  }

  ghost predicate Untrusted(cfg: Config, s: State, out: Outcome, wire: bytes, name: string) {
    exists b: Bounded :: UntrustedAt(cfg, s, out, wire, name, b)
  }

  lemma DecidedLeaves(cfg: Config, s: State, wire: bytes, name: string, d: Decision, b: Bounded)
    requires d.Refuse? || d == Watermark(name, CustodyOf(cfg.world, wire))
    requires d.Refuse? ==> d.refusedMethod == name && d.refusedRaw == Some(CustodyOf(cfg.world, wire))
    ensures var out := Atomic(s, Apply(cfg, s.(expectedOrdinal := s.expectedOrdinal + 1, bounded := b),
                                       Origin(s, NOTIFICATION), d));
      if d.Refuse? then Untrusted(cfg, s, out, wire, name) else Traced(cfg, s, out, wire, name, b)
  {
    hide Emit, Mark, Keeps, Distrusts;
    var next := s.(expectedOrdinal := s.expectedOrdinal + 1, bounded := b);
    if d.Refuse? {
      RefuseDistrusts(cfg, s, next, Origin(s, NOTIFICATION), d);
      assert UntrustedAt(cfg, s, Atomic(s, Apply(cfg, next, Origin(s, NOTIFICATION), d)), wire, name, b);
    } else {
      EmitKeeps(cfg, s, next, Origin(s, NOTIFICATION), ACQUISITION_WATERMARK, name, Some(CustodyOf(cfg.world, wire)),
        ProvesNothing);
    }
  }

  // ---- The echoed input ----

  /** The echo of the selected input is kept exactly as a start, once, and then the completion of
      that very item, once. */
  lemma InputEchoExactly(cfg: Config, s: State, wire: bytes, fields: Object, started: bool)
    requires DeliveredLarge(cfg, s, wire, fields) && s.bounded.turnInput.Some?
    requires InputFrame(fields, started, cfg.binding.base, s.bounded.turnInput.value)
    ensures var out, b := Step(cfg, s, Feed(s, NOTIFICATION, wire, fields)), s.bounded;
      var itemId := fields["params"].fields["item"].fields["id"].s;
      if started then
        if b.inputItemId.None? && "item/started" !in b.inputMethods
        then Traced(cfg, s, out, wire, "item/started",
                    b.(inputItemId := Some(itemId), inputMethods := b.inputMethods + {"item/started"}))
        else Untrusted(cfg, s, out, wire, "item/started")
      else
        if b.inputItemId == Some(itemId) && "item/started" in b.inputMethods && "item/completed" !in b.inputMethods
        then Traced(cfg, s, out, wire, "item/completed", b.(inputMethods := b.inputMethods + {"item/completed"}))
        else Untrusted(cfg, s, out, wire, "item/completed")
  {
    hide Step, Apply, Atomic, Traced, Untrusted, InputFrame, IsBoundedTurnUserInputEcho, IsBoundedTurnAgentOutput;
    var name, message, raw := ItemName(started), ServerMessage(fields, Some(wire)), CustodyOf(cfg.world, wire);
    var base, s1 := cfg.binding.base, s.(expectedOrdinal := s.expectedOrdinal + 1);
    InputSelectedExactly(fields, Some(wire), base, s.bounded.turnInput.value);
    FrameNames(fields, started, base, s.bounded.turnInput.value);
    LargeStep(cfg, s, wire, fields, name);
    var (d, b) := DecideBoundedOutput(cfg, s1, name, message, raw);
    assert (d, b) == DecideInputEcho(s.bounded, name, fields["params"].fields["item"].fields["id"], raw);
    InputDecided(s.bounded, started, fields["params"].fields["item"].fields["id"].s, raw);
    DecidedLeaves(cfg, s, wire, name, d.value, b);
  }

  lemma InputDecided(b: Bounded, started: bool, itemId: string, raw: RawCustody)
    ensures var name := ItemName(started);
      var (d, after) := DecideInputEcho(b, name, Str(itemId), raw);
      var kept := if started then b.inputItemId.None? && "item/started" !in b.inputMethods
                  else b.inputItemId == Some(itemId) && "item/started" in b.inputMethods && "item/completed" !in b.inputMethods;
      if kept
      then d == Some(Watermark(name, raw))
        && after == b.(inputItemId := Some(itemId), inputMethods := b.inputMethods + {name})
      else d.value.Refuse? && d.value.refusedMethod == name && d.value.refusedRaw == Some(raw)
  {
    ItemNames("item/started");
  }

  lemma FrameNames(fields: Object, started: bool, base: BaseFields, input: Json)
    requires InputFrame(fields, started, base, input)
    ensures Names(fields, ItemName(started))
    ensures "params" in fields && fields["params"].Obj?
    ensures "item" in fields["params"].fields && fields["params"].fields["item"].Obj?
    ensures "id" in fields["params"].fields["item"].fields && fields["params"].fields["item"].fields["id"].Str?
    ensures "item/started" != "item/completed"
  {
    ItemNames("item/started");
  }

  // ---- The agent's output ----

  lemma AgentNames(fields: Object, started: bool, base: BaseFields)
    requires AgentFrame(fields, started, base)
    ensures Names(fields, ItemName(started)) && "item/started" != "item/completed"
    ensures "params" in fields && fields["params"].Obj?
    ensures "item" in fields["params"].fields && fields["params"].fields["item"].Obj?
    ensures var item := fields["params"].fields["item"].fields;
      "id" in item && item["id"].Str? && "text" in item && item["text"].Str?
    ensures forall input :: !InputFrame(fields, started, base, input) && !InputFrame(fields, !started, base, input)
  {
    ItemNames("item/started");
    var item := fields["params"].fields["item"].fields;
    assert item["type"] != Str("userMessage") by {
      assert "agentMessage"[0] != "userMessage"[0];
    }
  }

  /** An agent message is kept exactly as a start, when no other is open and it was not completed
      before, and then the completion of that very one, while all completed texts together are
      within 32 KiB. */
  lemma AgentItemKeptExactly(cfg: Config, s: State, wire: bytes, fields: Object, started: bool)
    requires DeliveredLarge(cfg, s, wire, fields) && AgentFrame(fields, started, cfg.binding.base)
    ensures var out, b := Step(cfg, s, Feed(s, NOTIFICATION, wire, fields)), s.bounded;
      var itemId, text := fields["params"].fields["item"].fields["id"].s, fields["params"].fields["item"].fields["text"].s;
      var total := b.completedAgentBytes + |Encode(text)|;
      if started then
        if b.agentItemId.None? && itemId !in b.completedAgentIds
        then Traced(cfg, s, out, wire, "item/started", b.(agentItemId := Some(itemId), agentText := Some(text)))
        else Untrusted(cfg, s, out, wire, "item/started")
      else
        if b.agentItemId == Some(itemId) && itemId !in b.completedAgentIds && total <= 32768
        then Traced(cfg, s, out, wire, "item/completed",
               b.(completedAgentBytes := total, completedAgentIds := b.completedAgentIds + {itemId},
                  lastCompletedAgent := Some((itemId, text)), agentItemId := None, agentText := None))
        else Untrusted(cfg, s, out, wire, "item/completed")
  {
    hide Step, Apply, Atomic, Traced, Untrusted, AgentFrame, InputFrame, IsBoundedTurnUserInputEcho, IsBoundedTurnAgentOutput;
    hide Encode, Names;
    var name, message, raw := ItemName(started), ServerMessage(fields, Some(wire)), CustodyOf(cfg.world, wire);
    var base, s1 := cfg.binding.base, s.(expectedOrdinal := s.expectedOrdinal + 1);
    AgentNames(fields, started, base);
    AgentSelectedExactly(fields, Some(wire), base);
    NoInput(fields, Some(wire), base, s.bounded.turnInput, started);
    LargeStep(cfg, s, wire, fields, name);
    var (d, b) := DecideBoundedOutput(cfg, s1, name, message, raw);
    var item := fields["params"].fields["item"];
    assert (d, b) == DecideAgentItem(s.bounded, name, item, raw);
    AgentDecided(s.bounded, started, item, raw);
    DecidedLeaves(cfg, s, wire, name, d.value, b);
  }

  lemma AgentDecided(b: Bounded, started: bool, item: Json, raw: RawCustody)
    requires GetIn(item, "id").Str? && GetIn(item, "text").Str?
    ensures var name, itemId, text := ItemName(started), GetIn(item, "id").s, GetIn(item, "text").s;
      var total := b.completedAgentBytes + |Encode(text)|;
      var (d, after) := DecideAgentItem(b, name, item, raw);
      var kept := if started then b.agentItemId.None? && itemId !in b.completedAgentIds
                  else b.agentItemId == Some(itemId) && itemId !in b.completedAgentIds && total <= 32768;
      if kept
      then d == Some(Watermark(name, raw))
        && after == if started then b.(agentItemId := Some(itemId), agentText := Some(text))
                    else b.(completedAgentBytes := total, completedAgentIds := b.completedAgentIds + {itemId},
                            lastCompletedAgent := Some((itemId, text)), agentItemId := None, agentText := None)
      else d.value.Refuse? && d.value.refusedMethod == name && d.value.refusedRaw == Some(raw)
  {
    hide Encode;
    ItemNames("item/started");
  }

  lemma NoInput(fields: Object, raw: Option<bytes>, base: BaseFields, input: Option<Json>, started: bool)
    requires forall value :: !InputFrame(fields, started, base, value) && !InputFrame(fields, !started, base, value)
    ensures !IsBoundedTurnUserInputEcho(ServerMessage(fields, raw), input, base.threadId, Some(base.turnId))
  {
    hide InputFrame;
    if input.Some? {
      InputSelectedExactly(fields, raw, base, input.value);
      assert !InputFrame(fields, started, base, input.value) && !InputFrame(fields, !started, base, input.value);
    }
  }

  /** A piece is kept exactly while its own message is open. */
  lemma DeltaKeptExactly(cfg: Config, s: State, wire: bytes, fields: Object)
    requires DeliveredLarge(cfg, s, wire, fields) && DeltaFrame(fields, cfg.binding.base)
    ensures var out, name := Step(cfg, s, Feed(s, NOTIFICATION, wire, fields)), "item/agentMessage/delta";
      if s.bounded.agentItemId == Some(fields["params"].fields["itemId"].s) then Traced(cfg, s, out, wire, name, s.bounded)
      else Untrusted(cfg, s, out, wire, name)
  {
    hide Step, Apply, Atomic, Traced, Untrusted, InputFrame, IsBoundedTurnUserInputEcho, IsBoundedTurnAgentOutput;
    var name, message, raw := "item/agentMessage/delta", ServerMessage(fields, Some(wire)), CustodyOf(cfg.world, wire);
    var base, s1 := cfg.binding.base, s.(expectedOrdinal := s.expectedOrdinal + 1);
    ItemNames(name);
    AgentSelectedExactly(fields, Some(wire), base);
    DeltaIsNoInput(fields, base);
    NoInput(fields, Some(wire), base, s.bounded.turnInput, true);
    LargeStep(cfg, s, wire, fields, name);
    var (d, b) := DecideBoundedOutput(cfg, s1, name, message, raw);
    DecidedLeaves(cfg, s, wire, name, d.value, b);
  }

  lemma DeltaIsNoInput(fields: Object, base: BaseFields)
    requires DeltaFrame(fields, base)
    ensures forall value :: !InputFrame(fields, true, base, value) && !InputFrame(fields, false, base, value)
  {
    ItemNames("item/agentMessage/delta");
    ItemNames("item/started");
    ItemNames("item/completed");
  }

  // ---- The turn's summary ----

  /** No agent message is open, and the last completed one is the summary's. */
  predicate SummaryMatches(b: Bounded, item: Json) {
    && b.agentItemId.None? && b.lastCompletedAgent.Some?
    && item.Obj? && "id" in item.fields && item.fields["id"] == Str(b.lastCompletedAgent.value.0)
    && "text" in item.fields && item.fields["text"] == Str(b.lastCompletedAgent.value.1)
  }

  lemma SummaryNames(fields: Object, base: BaseFields)
    requires SummaryFrame(fields, base)
    ensures Names(fields, "turn/completed") && "params" in fields && fields["params"].Obj?
    ensures forall value :: !InputFrame(fields, true, base, value) && !InputFrame(fields, false, base, value)
    ensures "turn" in ParamsOf(fields) && IdOf(ParamsOf(fields), "turn", base.turnId) && InThread(base, ParamsOf(fields))
    ensures var turn := ParamsOf(fields)["turn"].fields;
      "items" in turn && turn["items"].Arr? && |turn["items"].items| == 1 && AgentItem(turn["items"].items[0].fields)
  {
    hide AgentItem;
    ItemNames("item/started");
    ItemNames("item/completed");
  }

  lemma SummaryDecided(cfg: Config, s: State, message: ServerMessage, raw: RawCustody, item: Json)
    requires cfg.contract == BoundedTurnEchoV1 && message.MethodName() == Some("turn/completed")
    requires !IsBoundedTurnUserInputEcho(message, s.bounded.turnInput, cfg.binding.base.threadId, Some(cfg.binding.base.turnId))
    requires IsBoundedTurnAgentOutput(message, cfg.binding.base.threadId, Some(cfg.binding.base.turnId)) == Some(true)
    requires GetIn(Get(message.Params(), "turn"), "items") == Arr([item])
    requires item.Obj? && AgentItem(item.fields)
    ensures var v := DecideCustodied(cfg, s, message, false, true, raw);
      && v.bounded == s.bounded
      && if Active(s) && SummaryMatches(s.bounded, item)
         then v.decision == DecideLocalFact(cfg, s, "turn/completed", message.Params(), raw)
         else v.decision.Refuse? && v.decision.refusedMethod == "turn/completed" && v.decision.refusedRaw == Some(raw)
  {
    hide DecideLocalFact, DecideInputEcho, DecideAgentItem, IsBoundedTurnUserInputEcho, IsBoundedTurnAgentOutput;
    ItemNames("item/started");
    ItemNames("item/completed");
    var name := "turn/completed";
    assert name[0] == 't';
    assert "providerRequest/started"[0] == 'p' && "rawResponse/started"[0] == 'r' && "providerAdmission/refused"[0] == 'p';
    assert "rawResponse/completed"[0] == 'r' && "error"[0] == 'e' && "item/started"[0] == 'i' && "item/completed"[0] == 'i';
    assert "providerAdmission/"[0] == 'p' && "providerRequest/"[0] == 'p' && "rawResponse/"[0] == 'r';
    assert s.(bounded := s.bounded) == s;
  }

  /** The selected summary ends the turn exactly when the turn may end and the summary's one agent
      message is the last one completed, with none open; else the dispatch is distrusted. */
  lemma SummaryExactly(cfg: Config, s: State, wire: bytes, fields: Object)
    requires DeliveredLarge(cfg, s, wire, fields) && SummaryFrame(fields, cfg.binding.base)
    ensures var out, name := Step(cfg, s, Feed(s, NOTIFICATION, wire, fields)), "turn/completed";
      var at, raw, next := Origin(s, NOTIFICATION), CustodyOf(cfg.world, wire), s.(expectedOrdinal := s.expectedOrdinal + 1);
      if MayEnd(s) && SummaryMatches(s.bounded, fields["params"].fields["turn"].fields["items"].items[0]) then
        Keeps(cfg, s, out, at, if s.identity.Some? then next.(mechanism := M_PROVIDER_COMPLETED) else next,
          LOCAL_TURN_FACT, name, Some(raw), ProvesNothing)
      else Distrusts(cfg, s, out, at, next, name, Some(raw))
  {
    hide Step, Emit, Keeps, Distrusts, Mark, DecideCustodied, Atomic, SummaryFrame, InputFrame, AgentItem;
    hide IsBoundedTurnUserInputEcho, IsBoundedTurnAgentOutput, DecideBoundedOutput, SummaryMatches;
    var base, name, message := cfg.binding.base, "turn/completed", ServerMessage(fields, Some(wire));
    var next, at, raw := s.(expectedOrdinal := s.expectedOrdinal + 1), Origin(s, NOTIFICATION), CustodyOf(cfg.world, wire);
    SummaryNames(fields, base);
    var item := fields["params"].fields["turn"].fields["items"].items[0];
    assert fields["params"].fields["turn"].fields["items"].items == [item];
    SummaryIsObject(fields, base);
    AgentSelectedExactly(fields, Some(wire), base);
    NoInput(fields, Some(wire), base, s.bounded.turnInput, true);
    SummaryStep(cfg, s, wire, fields);
    SummaryDecided(cfg, next, message, raw, item);
    var d := DecideCustodied(cfg, next, message, false, true, raw).decision;
    assert next.(bounded := next.bounded) == next;
    if d.Refuse? {
      RefuseDistrusts(cfg, s, next, at, d);
    } else {
      EmitKeeps(cfg, s, if d.completes then next.(mechanism := M_PROVIDER_COMPLETED) else next, at, LOCAL_TURN_FACT, name,
        Some(raw), ProvesNothing);
    }
  }

  lemma SummaryIsObject(fields: Object, base: BaseFields)
    requires SummaryFrame(fields, base)
    ensures fields["params"].fields["turn"].fields["items"].items[0].Obj?
  {
    hide AgentItem;
  }

  lemma SummaryStep(cfg: Config, s: State, wire: bytes, fields: Object)
    requires DeliveredLarge(cfg, s, wire, fields) && Names(fields, "turn/completed")
    requires SelectedEcho(cfg, s, ServerMessage(fields, Some(wire))) == Some(true)
    ensures var s1, message := s.(expectedOrdinal := s.expectedOrdinal + 1), ServerMessage(fields, Some(wire));
      var v := DecideCustodied(cfg, s1, message, false, true, CustodyOf(cfg.world, wire));
      Step(cfg, s, Feed(s, NOTIFICATION, wire, fields))
        == Atomic(s, Apply(cfg, s1.(bounded := v.bounded), Origin(s, NOTIFICATION), v.decision))
  {
    hide DecideCustodied, Apply, SelectedFrame;
    var message := ServerMessage(fields, Some(wire));
    var s1 := s.(expectedOrdinal := s.expectedOrdinal + 1);
    assert SelectedEcho(cfg, s1, message) == SelectedEcho(cfg, s, message);
    assert WireCustody(cfg.world, message, MAXIMUM_USER_INPUT_ECHO_BYTES) == Ok(CustodyOf(cfg.world, wire));
  }
}
