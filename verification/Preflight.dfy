/** The worst-case size check a run makes before it touches a backend: exact for the turn/start
    request, and exactly how much too small for the frame that echoes its input. */
module Preflight {
  import opened Wrappers
  import opened Utf8
  import opened KeySorting
  import opened CanonicalJson
  import opened CompactJson
  import CanonicalForm
  import Json
  import Reasons
  import opened AppServerProtocol
  import OrderedAcquisition

  const MAXIMUM_REQUEST_ID: int := INT_MAX

  /** The largest identity: 512 code points of six bytes each. */
  function ReservedId(): (id: string)
    ensures |id| == MAXIMUM_ID_CODEPOINTS && forall k | 0 <= k < |id| :: id[k] == 0 as char
  {
    seq(MAXIMUM_ID_CODEPOINTS, i => 0 as char)
  }

  predicate BoundedIdentity(id: string) {
    1 <= |id| <= MAXIMUM_ID_CODEPOINTS
  }

  // ---- Messages ----

  function TextItem(prompt: string): Value {
    Dict([Keyed("type", Str("text")), Keyed("text", Str(prompt))])
  }

  const PREAMBLE: string :=
    "Perform only the bounded work in this Nightshift worker brief. Do not spawn agents, change provider/model, "
    + "or perform protected effects. Report evidence and uncertainty; your answer is not qualification.\n"

  /** The prompt every bounded turn starts with: fixed instructions, then the brief. */
  function Prompt(brief: string): string { PREAMBLE + brief }

  /** `bounded_turn_start`, for a thread identity it admits. */
  function BoundedTurnStart(threadId: string, model: string, brief: string): Value {
    TurnStart(threadId, model, Prompt(brief))
  }

  function TurnStart(threadId: string, model: string, prompt: string): Value {
    Dict([Keyed("threadId", Str(threadId)), Keyed("model", Str(model)), Keyed("input", List([TextItem(prompt)]))])
  }

  function RequestMessage(id: int, params: Value): Value {
    Dict([Keyed("id", Int(id)), Keyed("method", Str("turn/start")), Keyed("params", params)])
  }

  /** The selected text as the lifecycle item carries it back. */
  function EchoContent(prompt: string): Value {
    List([Dict([Keyed("type", Str("text")), Keyed("text", Str(prompt)), Keyed("text_elements", List([]))])])
  }

  function EchoItem(itemId: string, prompt: string): Value {
    Dict([Keyed("type", Str("userMessage")), Keyed("id", Str(itemId)), Keyed("clientId", Null),
          Keyed("content", EchoContent(prompt))])
  }

  function EchoParams(started: bool, threadId: string, turnId: string, itemId: string, prompt: string, time: int): Value {
    Dict([Keyed("threadId", Str(threadId)), Keyed("turnId", Str(turnId)), Keyed("item", EchoItem(itemId, prompt)),
          Keyed(TimeKey(started), Int(time))])
  }

  function EchoMethod(started: bool): string { if started then "item/started" else "item/completed" }

  /** The frame the check reserves: every identity and time at its largest. */
  function ReservedEcho(started: bool, prompt: string): Value {
    Dict([Keyed("method", Str(EchoMethod(started))),
          Keyed("params", EchoParams(started, ReservedId(), ReservedId(), ReservedId(), prompt, INT_MAX))])
  }

  /** The frame the closed envelope really is: it also carries when it was emitted. */
  function EchoFrame(
    started: bool, threadId: string, turnId: string, itemId: string, prompt: string, time: int, emittedAtMs: int): Value
  {
    Dict([Keyed("method", Str(EchoMethod(started))),
          Keyed("params", EchoParams(started, threadId, turnId, itemId, prompt, time)),
          Keyed("emittedAtMs", Int(emittedAtMs))])
  }

  /** `len(request_wire(message))`. */
  function WireSize(message: Value): nat {
    Size(Compact(message)) + 1
  }

  // ---- The check ----

  datatype Error = TurnStartExceedsBound | EchoExceedsBound

  function ReservedTurnStart(model: string, brief: string): Value {
    RequestMessage(MAXIMUM_REQUEST_ID, BoundedTurnStart(ReservedId(), model, brief))
  }

  predicate EchoReserveFits(prompt: string) {
    && WireSize(ReservedEcho(true, prompt)) <= MAXIMUM_USER_INPUT_ECHO_BYTES
    && WireSize(ReservedEcho(false, prompt)) <= MAXIMUM_USER_INPUT_ECHO_BYTES
  }

  /** `preflight_request` on a validated request: the reserved size, or a refusal. */
  function PreflightRequest(contract: CaptureContract, model: string, brief: string): Result<nat, Error> {
    var reserved := WireSize(ReservedTurnStart(model, brief));
    if reserved > ClientRequestByteBound(Some("turn/start"), contract) then Err(TurnStartExceedsBound)
    else if contract.BoundedTurnEchoV1? && !EchoReserveFits(Prompt(brief)) then Err(EchoExceedsBound)
    else Ok(reserved)
  }

  // ---- Sizes ----

  const REQUEST_OVERHEAD: nat := 102

  /** What an escape-free ASCII key or constant takes. */
  lemma Literal(s: string, n: nat)
    requires |s| == n && forall k | 0 <= k < |s| :: PlainChar(s[k])
    ensures Size(Escape(s)) == n
    ensures forall value: nat :: MemberCost(s, value) == n + 3 + value
  {
    PlainSize(s);
  }

  lemma TurnStartCost(threadId: string, model: string, prompt: string)
    ensures Cost(TurnStart(threadId, model, prompt)) ==
      Size(Escape(threadId)) + Size(Escape(model)) + Size(Escape(prompt)) + 62
  {
    hide Cost, MemberCost, Escape, Size;
    var item := TextItem(prompt);
    PartCost("text", 0, item);
    PartCost(prompt, 0, item);
    PartCost(threadId, 0, item);
    PartCost(model, 0, item);
    Literal("type", 4);
    Literal("text", 4);
    DictCost2(Keyed("type", Str("text")), Keyed("text", Str(prompt)));
    Literal("threadId", 8);
    Literal("model", 5);
    Literal("input", 5);
    DictCost3(Keyed("threadId", Str(threadId)), Keyed("model", Str(model)), Keyed("input", List([item])));
  }

  lemma RequestSize(id: int, threadId: string, model: string, prompt: string)
    ensures WireSize(RequestMessage(id, TurnStart(threadId, model, prompt))) ==
      Size(Decimal(id)) + Size(Escape(threadId)) + Size(Escape(model)) + Size(Escape(prompt)) + REQUEST_OVERHEAD
  {
    hide Cost, MemberCost, Escape, Size, Compact, TurnStart;
    var params := TurnStart(threadId, model, prompt);
    CostIsSize(RequestMessage(id, params));
    PartCost("turn/start", id, params);
    TurnStartCost(threadId, model, prompt);
    Literal("id", 2);
    Literal("method", 6);
    Literal("params", 6);
    Literal("turn/start", 10);
    DictCost3(Keyed("id", Int(id)), Keyed("method", Str("turn/start")), Keyed("params", params));
  }

  lemma ReservedIdSize()
    ensures Size(Escape(ReservedId())) == 6 * MAXIMUM_ID_CODEPOINTS
  {
    EscapedSize(ReservedId());
  }

  /** The turn/start half is a true worst case: once a brief is accepted, no thread identity and
      no request number makes the real request longer than the reserved one. */
  lemma AcceptedTurnStartFits(contract: CaptureContract, model: string, brief: string, threadId: string, id: int)
    requires PreflightRequest(contract, model, brief).Ok?
    requires BoundedIdentity(threadId) && 0 <= id <= MAXIMUM_REQUEST_ID
    ensures var wire := WireSize(RequestMessage(id, BoundedTurnStart(threadId, model, brief)));
      && wire <= PreflightRequest(contract, model, brief).value
      && wire <= ClientRequestByteBound(Some("turn/start"), contract)
  {
    hide WireSize, BoundedTurnStart, EchoReserveFits;
    ReservedIsLongest(model, brief, threadId, id);
  }

  /** A thread identity and a request number whose real request is too long. */
  predicate TooLong(contract: CaptureContract, model: string, brief: string, threadId: string, id: int) {
    && BoundedIdentity(threadId) && 0 <= id <= MAXIMUM_REQUEST_ID
    && WireSize(RequestMessage(id, BoundedTurnStart(threadId, model, brief)))
         > if contract.LegacyV1? then 16384 else 262144
  }

  /** And it is not too strict: a brief is refused for its request exactly when there are a thread
      identity and a request number that make the real one too long. */
  lemma RefusedTurnStartExactly(contract: CaptureContract, model: string, brief: string)
    ensures PreflightRequest(contract, model, brief) == Err(TurnStartExceedsBound)
      <==> exists threadId, id :: TooLong(contract, model, brief, threadId, id)
  {
    hide WireSize, BoundedTurnStart, EchoReserveFits;
    if PreflightRequest(contract, model, brief) == Err(TurnStartExceedsBound) {
      assert TooLong(contract, model, brief, ReservedId(), MAXIMUM_REQUEST_ID);
    }
    if threadId, id :| TooLong(contract, model, brief, threadId, id) {
      ReservedIsLongest(model, brief, threadId, id);
    }
  }

  lemma ReservedIsLongest(model: string, brief: string, threadId: string, id: int)
    requires BoundedIdentity(threadId) && 0 <= id <= MAXIMUM_REQUEST_ID
    ensures WireSize(RequestMessage(id, BoundedTurnStart(threadId, model, brief)))
      <= WireSize(ReservedTurnStart(model, brief))
  {
    hide Compact, Escape, Size, Prompt;
    RequestSize(id, threadId, model, Prompt(brief));
    RequestSize(MAXIMUM_REQUEST_ID, ReservedId(), model, Prompt(brief));
    EscapedSize(threadId);
    ReservedIdSize();
    SafeIntegerFits(id);
    SafeIntegerSize();
  }

  /** So the client never refuses the accepted brief's request for its size. */
  lemma AcceptedTurnStartIsSent(
    setup: OrderedAcquisition.Setup, selection: OrderedAcquisition.Selection, message: Json.Object,
    model: string, brief: string, threadId: string, id: int)
    requires PreflightRequest(setup.contract, model, brief).Ok?
    requires BoundedIdentity(threadId) && 0 <= id <= MAXIMUM_REQUEST_ID
    requires Json.Get(message, "method") == Json.Str("turn/start")
    requires setup.dumps(message) == Compact(RequestMessage(id, BoundedTurnStart(threadId, model, brief)))
    ensures OrderedAcquisition.CheckRequest(setup, selection, message, "turn/start")
      != Err(Reasons.ClientRequestExceedsExactPreSendCustodyBound)
  {
    hide Compact, Size, Prompt;
    AcceptedTurnStartFits(setup.contract, model, brief, threadId, id);
    assert |OrderedAcquisition.RequestWire(setup, message)|
      == WireSize(RequestMessage(id, BoundedTurnStart(threadId, model, brief))) by {
      WireOfDumps(setup, message, RequestMessage(id, BoundedTurnStart(threadId, model, brief)));
    }
  }

  lemma WireOfDumps(setup: OrderedAcquisition.Setup, message: Json.Object, value: Value)
    requires setup.dumps(message) == Compact(value)
    ensures |OrderedAcquisition.RequestWire(setup, message)| == WireSize(value)
  {
  }

  // ---- The echo half ----

  function EchoOverhead(started: bool): nat { if started then 189 else 193 }

  const EMITTED_OVERHEAD: nat := 15

  /** What the reserve leaves out: the emission time, and the sign of a negative timestamp. */
  const ECHO_SHORTFALL: nat := 32

  lemma EchoContentCost(prompt: string)
    ensures Cost(EchoContent(prompt)) == Size(Escape(prompt)) + 46
  {
    hide Cost, MemberCost, Escape, Size;
    var item := Dict([Keyed("type", Str("text")), Keyed("text", Str(prompt)), Keyed("text_elements", List([]))]);
    PartCost("text", 0, item);
    PartCost(prompt, 0, item);
    Literal("type", 4);
    Literal("text", 4);
    Literal("text_elements", 13);
    DictCost3(Keyed("type", Str("text")), Keyed("text", Str(prompt)), Keyed("text_elements", List([])));
  }

  lemma EchoItemCost(itemId: string, prompt: string)
    ensures Cost(EchoItem(itemId, prompt)) == Size(Escape(itemId)) + Size(Escape(prompt)) + 103
  {
    hide Cost, MemberCost, Escape, Size, EchoContent;
    EchoContentCost(prompt);
    PartCost("userMessage", 0, Null);
    PartCost(itemId, 0, Null);
    Literal("userMessage", 11);
    Literal("type", 4);
    Literal("id", 2);
    Literal("clientId", 8);
    Literal("content", 7);
    DictCost4(Keyed("type", Str("userMessage")), Keyed("id", Str(itemId)), Keyed("clientId", Null),
              Keyed("content", EchoContent(prompt)));
  }

  function TimeKey(started: bool): string { if started then "startedAtMs" else "completedAtMs" }

  lemma TimeKeySize(started: bool)
    ensures forall value: nat :: MemberCost(TimeKey(started), value) == (if started then 14 else 16) + value
    ensures Size(Escape(EchoMethod(started))) == if started then 12 else 14
  {
    hide MemberCost, Escape, Size;
    if started {
      Literal("startedAtMs", 11);
      Literal("item/started", 12);
    } else {
      Literal("completedAtMs", 13);
      Literal("item/completed", 14);
    }
  }

  lemma EchoParamsCost(started: bool, threadId: string, turnId: string, itemId: string, prompt: string, time: int)
    ensures Cost(EchoParams(started, threadId, turnId, itemId, prompt, time)) ==
      Size(Escape(threadId)) + Size(Escape(turnId)) + Size(Escape(itemId)) + Size(Escape(prompt)) + Size(Decimal(time))
      + 103 + (if started then 50 else 52)
  {
    hide Cost, MemberCost, Escape, Size, EchoItem, TimeKey;
    var item := EchoItem(itemId, prompt);
    EchoItemCost(itemId, prompt);
    PartCost(threadId, time, item);
    PartCost(turnId, time, item);
    Literal("threadId", 8);
    Literal("turnId", 6);
    Literal("item", 4);
    TimeKeySize(started);
    DictCost4(Keyed("threadId", Str(threadId)), Keyed("turnId", Str(turnId)), Keyed("item", item),
              Keyed(TimeKey(started), Int(time)));
  }

  /** The variable part of an echo. */
  function EchoPayload(threadId: string, turnId: string, itemId: string, prompt: string, time: int): nat {
    Size(Escape(threadId)) + Size(Escape(turnId)) + Size(Escape(itemId)) + Size(Escape(prompt)) + Size(Decimal(time))
  }

  lemma ReservedEchoSize(started: bool, prompt: string)
    ensures WireSize(ReservedEcho(started, prompt)) ==
      EchoPayload(ReservedId(), ReservedId(), ReservedId(), prompt, INT_MAX) + EchoOverhead(started)
  {
    hide Cost, MemberCost, Escape, Size, Compact, EchoParams, EchoMethod, ReservedId, Decimal;
    var id := ReservedId();
    var params := EchoParams(started, id, id, id, prompt, INT_MAX);
    CostIsSize(ReservedEcho(started, prompt));
    EchoParamsCost(started, id, id, id, prompt, INT_MAX);
    PartCost(EchoMethod(started), 0, params);
    TimeKeySize(started);
    Literal("method", 6);
    Literal("params", 6);
    DictCost2(Keyed("method", Str(EchoMethod(started))), Keyed("params", params));
  }

  lemma EchoFrameSize(
    started: bool, threadId: string, turnId: string, itemId: string, prompt: string, time: int, emittedAtMs: int)
    ensures WireSize(EchoFrame(started, threadId, turnId, itemId, prompt, time, emittedAtMs)) ==
      EchoPayload(threadId, turnId, itemId, prompt, time) + EchoOverhead(started)
      + EMITTED_OVERHEAD + Size(Decimal(emittedAtMs))
  {
    hide Cost, MemberCost, Escape, Size, Compact, EchoParams, EchoMethod;
    var params := EchoParams(started, threadId, turnId, itemId, prompt, time);
    CostIsSize(EchoFrame(started, threadId, turnId, itemId, prompt, time, emittedAtMs));
    EchoParamsCost(started, threadId, turnId, itemId, prompt, time);
    PartCost(EchoMethod(started), emittedAtMs, params);
    TimeKeySize(started);
    Literal("method", 6);
    Literal("params", 6);
    Literal("emittedAtMs", 11);
    DictCost3(Keyed("method", Str(EchoMethod(started))), Keyed("params", params), Keyed("emittedAtMs", Int(emittedAtMs)));
  }

  /** The values the closed echo envelope permits. */
  predicate ClosedEcho(threadId: string, turnId: string, itemId: string, time: int, emittedAtMs: int) {
    && BoundedIdentity(threadId) && BoundedIdentity(turnId) && BoundedIdentity(itemId)
    && INT_MIN <= time <= INT_MAX && 0 < emittedAtMs <= INT_MAX
  }

  ghost predicate EveryEchoFits(prompt: string) {
    forall started, threadId, turnId, itemId, time, emittedAtMs | ClosedEcho(threadId, turnId, itemId, time, emittedAtMs) ::
      WireSize(EchoFrame(started, threadId, turnId, itemId, prompt, time, emittedAtMs)) <= MAXIMUM_USER_INPUT_ECHO_BYTES
  }

  lemma EchoIsAtMost(
    started: bool, threadId: string, turnId: string, itemId: string, prompt: string, time: int, emittedAtMs: int)
    requires ClosedEcho(threadId, turnId, itemId, time, emittedAtMs)
    ensures WireSize(EchoFrame(started, threadId, turnId, itemId, prompt, time, emittedAtMs))
      <= WireSize(ReservedEcho(started, prompt)) + ECHO_SHORTFALL
  {
    hide Escape, Size;
    EchoFrameSize(started, threadId, turnId, itemId, prompt, time, emittedAtMs);
    ReservedEchoSize(started, prompt);
    EscapedSize(threadId);
    EscapedSize(turnId);
    EscapedSize(itemId);
    ReservedIdSize();
    SafeIntegerFits(time);
    SafeIntegerFits(emittedAtMs);
    SafeIntegerSize();
  }

  /** The largest closed echo, which is as large as that. */
  lemma LargestEcho(started: bool, prompt: string)
    ensures ClosedEcho(ReservedId(), ReservedId(), ReservedId(), INT_MIN, INT_MAX)
    ensures WireSize(EchoFrame(started, ReservedId(), ReservedId(), ReservedId(), prompt, INT_MIN, INT_MAX))
      == WireSize(ReservedEcho(started, prompt)) + ECHO_SHORTFALL
  {
    hide Escape, Size;
    EchoFrameSize(started, ReservedId(), ReservedId(), ReservedId(), prompt, INT_MIN, INT_MAX);
    ReservedEchoSize(started, prompt);
    SafeIntegerSize();
  }

  /** The echo half is not a worst case as it stands. Every closed echo of a prompt fits if and
      only if the reserved echoes leave room for what they omit: the emission time and the sign
      of a negative timestamp, thirty-two bytes together. */
  lemma EchoFitsExactly(prompt: string)
    ensures EveryEchoFits(prompt) <==>
      && WireSize(ReservedEcho(true, prompt)) + ECHO_SHORTFALL <= MAXIMUM_USER_INPUT_ECHO_BYTES
      && WireSize(ReservedEcho(false, prompt)) + ECHO_SHORTFALL <= MAXIMUM_USER_INPUT_ECHO_BYTES
  {
    hide WireSize, EchoFrame, ReservedEcho;
    LargestEcho(true, prompt);
    LargestEcho(false, prompt);
    if && WireSize(ReservedEcho(true, prompt)) + ECHO_SHORTFALL <= MAXIMUM_USER_INPUT_ECHO_BYTES
       && WireSize(ReservedEcho(false, prompt)) + ECHO_SHORTFALL <= MAXIMUM_USER_INPUT_ECHO_BYTES {
      forall started, threadId, turnId, itemId, time, emittedAtMs | ClosedEcho(threadId, turnId, itemId, time, emittedAtMs)
        ensures WireSize(EchoFrame(started, threadId, turnId, itemId, prompt, time, emittedAtMs))
          <= MAXIMUM_USER_INPUT_ECHO_BYTES
      {
        EchoIsAtMost(started, threadId, turnId, itemId, prompt, time, emittedAtMs);
      }
    }
  }

  /** A brief accepted under the echo contract. */
  predicate Accepted(model: string, brief: string) {
    PreflightRequest(BoundedTurnEchoV1, model, brief).Ok?
  }

  /** An accepted brief is one whose echo can be refused exactly when its reserved echo ends
      within the last thirty-two bytes of the bound. */
  lemma AcceptedFallsShortExactly(model: string, brief: string)
    requires Accepted(model, brief)
    ensures !EveryEchoFits(Prompt(brief)) <==>
      WireSize(ReservedEcho(false, Prompt(brief))) + ECHO_SHORTFALL > MAXIMUM_USER_INPUT_ECHO_BYTES
  {
    hide Escape, Size, Compact, WireSize, ReservedEcho, Prompt;
    EchoFitsExactly(Prompt(brief));
    ReservedEchoSize(true, Prompt(brief));
    ReservedEchoSize(false, Prompt(brief));
  }

  lemma {:induction false} EscapeConcat(a: string, b: string)
    ensures Escape(a + b) == Escape(a) + Escape(b)
  {
    hide EscapeChar;
    if a == "" {
      assert a + b == b;
    } else {
      EscapeConcat(a[1..], b);
      assert (a + b)[1..] == a[1..] + b;
    }
  }

  lemma JoinedEscapedSize(a: string, b: string)
    ensures Size(Escape(a + b)) == Size(Escape(a)) + Size(Escape(b))
  {
    hide Size, Escape;
    EscapeConcat(a, b);
    SizeConcat(Escape(a), Escape(b));
  }

  /** The reserved echo is the larger of the two reserves, so it alone decides acceptance. */
  lemma EchoDecides(model: string, brief: string)
    requires BoundedIdentity(model)
    ensures Accepted(model, brief) <==>
      WireSize(ReservedEcho(false, Prompt(brief))) <= MAXIMUM_USER_INPUT_ECHO_BYTES
  {
    hide Escape, Size, Compact, WireSize, ReservedEcho, ReservedTurnStart, Prompt;
    ReservedEchoSize(true, Prompt(brief));
    ReservedEchoSize(false, Prompt(brief));
    ReservedTurnStartSize(model, brief);
    ReservedIdSize();
    SafeIntegerSize();
    EscapedSize(model);
  }

  /** Wherever a brief can grow by steps of at most thirty-two bytes, whatever else in it changes
      meanwhile, an accepted one grows into an accepted one whose echo can be refused. */
  lemma GrowthFallsShort(model: string, brief: string, step: nat) returns (n: nat)
    requires BoundedIdentity(model) && Accepted(model, brief) && 1 <= step <= ECHO_SHORTFALL
    ensures forall grown: string | Size(Escape(grown)) == Size(Escape(brief)) + step * n ::
      Accepted(model, grown) && !EveryEchoFits(Prompt(grown))
  {
    hide Escape, Size, Compact, WireSize, ReservedEcho, Accepted;
    EchoDecides(model, brief);
    var slack := MAXIMUM_USER_INPUT_ECHO_BYTES - WireSize(ReservedEcho(false, Prompt(brief)));
    n := slack / step;
    assert step * n == slack - slack % step;
    forall grown: string | Size(Escape(grown)) == Size(Escape(brief)) + step * n
      ensures Accepted(model, grown) && !EveryEchoFits(Prompt(grown))
    {
      JoinedEscapedSize(PREAMBLE, brief);
      JoinedEscapedSize(PREAMBLE, grown);
      ReservedEchoSize(false, Prompt(brief));
      ReservedEchoSize(false, Prompt(grown));
      EchoDecides(model, grown);
      AcceptedFallsShortExactly(model, grown);
    }
  }

  function Repeated(s: string, n: nat): string {
    if n == 0 then "" else s + Repeated(s, n - 1)
  }

  /** A worker brief carries each packet twice: as retained bytes in hexadecimal, and as the
      recognized value. A letter more in a text of the packet shows in both. */
  function GrownBrief(head: string, middle: string, tail: string, n: nat): string {
    head + Repeated("61", n) + middle + Repeated("a", n) + tail
  }

  lemma {:induction false} RepeatedSize(s: string, n: nat)
    requires forall k | 0 <= k < |s| :: PlainChar(s[k])
    ensures Size(Escape(Repeated(s, n))) == n * |s|
  {
    hide Size, Escape;
    if n == 0 {
      PlainSize("");
    } else {
      PlainSize(s);
      RepeatedSize(s, n - 1);
      JoinedEscapedSize(s, Repeated(s, n - 1));
    }
  }

  lemma GrownSize(head: string, middle: string, tail: string, n: nat)
    ensures Size(Escape(GrownBrief(head, middle, tail, n)))
      == Size(Escape(head)) + Size(Escape(middle)) + Size(Escape(tail)) + 3 * n
  {
    hide Size, Escape;
    var hex, letters := Repeated("61", n), Repeated("a", n);
    RepeatedSize("61", n);
    RepeatedSize("a", n);
    JoinedEscapedSize(head, hex);
    JoinedEscapedSize(head + hex, middle);
    JoinedEscapedSize(head + hex + middle, letters);
    JoinedEscapedSize(head + hex + middle + letters, tail);
  }

  /** So every accepted brief, however it is written, has an accepted brief of more words whose
      echo can be refused: the reserve is full, and a frame that may really come back does not
      fit. */
  lemma AcceptedEchoMayNotFit(model: string, head: string, middle: string, tail: string) returns (n: nat)
    requires BoundedIdentity(model) && Accepted(model, GrownBrief(head, middle, tail, 0))
    ensures Accepted(model, GrownBrief(head, middle, tail, n))
    ensures !EveryEchoFits(Prompt(GrownBrief(head, middle, tail, n)))
  {
    hide Accepted, EveryEchoFits, Escape, Size, GrownBrief;
    n := GrowthFallsShort(model, GrownBrief(head, middle, tail, 0), 3);
    GrownSize(head, middle, tail, 0);
    GrownSize(head, middle, tail, n);
  }

  lemma ReservedTurnStartSize(model: string, brief: string)
    ensures WireSize(ReservedTurnStart(model, brief)) ==
      16 + 6 * MAXIMUM_ID_CODEPOINTS + Size(Escape(model)) + Size(Escape(Prompt(brief))) + REQUEST_OVERHEAD
  {
    hide Escape, Size, Compact, WireSize, Prompt;
    RequestSize(MAXIMUM_REQUEST_ID, ReservedId(), model, Prompt(brief));
    ReservedIdSize();
    SafeIntegerSize();
  }

  // ---- These are the frames the reader selects ----

  function Meant(e: Keyed<Value>): Json.Json { CanonicalForm.Meaning(e.value) }

  lemma Means2(a: Keyed<Value>, b: Keyed<Value>)
    ensures CanonicalForm.MeaningEntries([a, b]) == map[][b.key := Meant(b)][a.key := Meant(a)]
  {
    assert [a, b][1..] == [b] && [b][1..] == [];
  }

  lemma Means3(a: Keyed<Value>, b: Keyed<Value>, c: Keyed<Value>)
    ensures CanonicalForm.MeaningEntries([a, b, c]) == map[][c.key := Meant(c)][b.key := Meant(b)][a.key := Meant(a)]
  {
    assert [a, b, c][1..] == [b, c];
    Means2(b, c);
  }

  lemma Means4(a: Keyed<Value>, b: Keyed<Value>, c: Keyed<Value>, d: Keyed<Value>)
    ensures CanonicalForm.MeaningEntries([a, b, c, d])
      == map[][d.key := Meant(d)][c.key := Meant(c)][b.key := Meant(b)][a.key := Meant(a)]
  {
    assert [a, b, c, d][1..] == [b, c, d];
    Means3(b, c, d);
  }

  lemma InputNormalizes(prompt: string, item: Json.Object)
    requires item == map[]["text" := Json.Str(prompt)]["type" := Json.Str("text")]
    ensures NormalizedBoundedTurnInput(Json.Arr([Json.Obj(item)])) == Some(Json.Arr([Json.Obj(
      map[]["text_elements" := Json.Arr([])]["text" := Json.Str(prompt)]["type" := Json.Str("text")])]))
  {
    assert "type" != "text" && |"text_elements"| != |"text"|;
    assert item.Keys == {"type", "text"};
    assert map["type" := Json.Str("text"), "text" := Json.Str(prompt), "text_elements" := Json.Arr([])]
      == map[]["text_elements" := Json.Arr([])]["text" := Json.Str(prompt)]["type" := Json.Str("text")];
  }

  /** The content of the echo is the normalized input of the request. */
  lemma EchoContentMeans(prompt: string)
    ensures NormalizedBoundedTurnInput(CanonicalForm.Meaning(List([TextItem(prompt)])))
      == Some(CanonicalForm.Meaning(EchoContent(prompt)))
  {
    hide CanonicalForm.MeaningEntries, NormalizedBoundedTurnInput;
    Means2(Keyed("type", Str("text")), Keyed("text", Str(prompt)));
    Means3(Keyed("type", Str("text")), Keyed("text", Str(prompt)), Keyed("text_elements", List([])));
    var request, echo := TextItem(prompt), EchoContent(prompt).items[0];
    assert CanonicalForm.MeaningItems([request]) == [CanonicalForm.Meaning(request)];
    assert CanonicalForm.MeaningItems([echo]) == [CanonicalForm.Meaning(echo)];
    assert CanonicalForm.MeaningItems([]) == [];
    InputNormalizes(prompt, CanonicalForm.Meaning(request).fields);
  }

  lemma EnvelopeIsClosed(message: ServerMessage, emittedAtMs: int, params: Json.Json, name: string)
    requires 0 < emittedAtMs <= INT_MAX
    requires message.raw == map[]["emittedAtMs" := Json.Int(emittedAtMs)]["params" := params]["method" := Json.Str(name)]
    ensures SourceNotificationEnvelope(message) && message.MethodName() == Some(name)
    ensures params.Obj? ==> message.Params() == params.fields
  {
    assert |"emittedAtMs"| == 11 && |"params"| == 6 && |"method"| == 6 && "params"[0] != "method"[0];
    assert message.raw.Keys == {"method", "params", "emittedAtMs"};
  }

  lemma ItemIsClosed(item: Json.Object, itemId: string, content: Json.Json)
    requires BoundedIdentity(itemId)
    requires item ==
      map[]["content" := content]["clientId" := Json.Null]["id" := Json.Str(itemId)]["type" := Json.Str("userMessage")]
    ensures item.Keys == {"type", "id", "clientId", "content"}
    ensures item["type"] == Json.Str("userMessage") && BoundedId(item["id"])
    ensures item["clientId"].Null? && item["content"] == content
  {
    assert |"content"| == 7 && |"clientId"| == 8 && |"id"| == 2 && |"type"| == 4;
  }

  lemma ParamsAreClosed(params: Json.Object, time: string, t: int, item: Json.Json, threadId: string, turnId: string)
    requires time == "startedAtMs" || time == "completedAtMs"
    requires params ==
      map[][time := Json.Int(t)]["item" := item]["turnId" := Json.Str(turnId)]["threadId" := Json.Str(threadId)]
    ensures params.Keys == {"threadId", "turnId", "item", time}
    ensures params["threadId"] == Json.Str(threadId) && params["turnId"] == Json.Str(turnId)
    ensures params[time] == Json.Int(t) && params["item"] == item
  {
    assert |"startedAtMs"| == 11 && |"completedAtMs"| == 13;
    assert |"item"| == 4 && |"turnId"| == 6 && |"threadId"| == 8;
  }

  lemma ItemMeans(itemId: string, prompt: string)
    ensures CanonicalForm.Meaning(EchoItem(itemId, prompt)) == Json.Obj(
      map[]["content" := CanonicalForm.Meaning(EchoContent(prompt))]["clientId" := Json.Null]
        ["id" := Json.Str(itemId)]["type" := Json.Str("userMessage")])
  {
    hide CanonicalForm.MeaningEntries, EchoContent;
    Means4(Keyed("type", Str("userMessage")), Keyed("id", Str(itemId)), Keyed("clientId", Null),
           Keyed("content", EchoContent(prompt)));
  }

  lemma ParamsMean(started: bool, threadId: string, turnId: string, itemId: string, prompt: string, time: int)
    ensures CanonicalForm.Meaning(EchoParams(started, threadId, turnId, itemId, prompt, time)) == Json.Obj(
      map[][TimeKey(started) := Json.Int(time)]["item" := CanonicalForm.Meaning(EchoItem(itemId, prompt))]
        ["turnId" := Json.Str(turnId)]["threadId" := Json.Str(threadId)])
  {
    hide CanonicalForm.MeaningEntries, EchoItem, TimeKey;
    Means4(Keyed("threadId", Str(threadId)), Keyed("turnId", Str(turnId)), Keyed("item", EchoItem(itemId, prompt)),
           Keyed(TimeKey(started), Int(time)));
  }

  lemma FrameMeans(
    started: bool, threadId: string, turnId: string, itemId: string, prompt: string, time: int, emittedAtMs: int)
    ensures CanonicalForm.Meaning(EchoFrame(started, threadId, turnId, itemId, prompt, time, emittedAtMs)) == Json.Obj(
      map[]["emittedAtMs" := Json.Int(emittedAtMs)]
        ["params" := CanonicalForm.Meaning(EchoParams(started, threadId, turnId, itemId, prompt, time))]
        ["method" := Json.Str(EchoMethod(started))])
  {
    hide CanonicalForm.MeaningEntries, EchoParams, EchoMethod;
    Means3(Keyed("method", Str(EchoMethod(started))),
           Keyed("params", EchoParams(started, threadId, turnId, itemId, prompt, time)),
           Keyed("emittedAtMs", Int(emittedAtMs)));
  }

  /** A closed envelope around closed params around a closed item is selected. */
  lemma ClosedFrameIsSelected(
    message: ServerMessage, started: bool, time: int, item: Json.Object, threadId: string, turnId: string, content: Json.Json)
    requires SourceNotificationEnvelope(message) && message.MethodName() == Some(EchoMethod(started))
    requires var params := message.Params();
      && params.Keys == {"threadId", "turnId", "item", TimeKey(started)}
      && params["threadId"] == Json.Str(threadId) && params["turnId"] == Json.Str(turnId)
      && params[TimeKey(started)] == Json.Int(time) && params["item"] == Json.Obj(item)
    requires INT_MIN <= time <= INT_MAX
    requires item.Keys == {"type", "id", "clientId", "content"}
    requires item["type"] == Json.Str("userMessage") && BoundedId(item["id"]) && item["clientId"].Null?
    requires item["content"] == content
    ensures IsBoundedTurnUserInputEcho(message, Some(content), threadId, Some(turnId))
  {
    hide SourceNotificationEnvelope;
    assert started <==> message.MethodName() == Some("item/started") by {
      assert |"item/started"| == 12 && |"item/completed"| == 14;
    }
  }

  /** Every closed echo of the input a turn/start request selects is a frame the reader and the
      mapper select for the large bound: these are the frames whose size matters. */
  lemma EchoFrameIsSelected(
    started: bool, threadId: string, turnId: string, itemId: string, prompt: string, time: int, emittedAtMs: int,
    raw: Option<bytes>)
    requires ClosedEcho(threadId, turnId, itemId, time, emittedAtMs)
    ensures var frame := CanonicalForm.Meaning(EchoFrame(started, threadId, turnId, itemId, prompt, time, emittedAtMs));
      && frame.Obj?
      && IsBoundedTurnUserInputEcho(
           ServerMessage(frame.fields, raw), NormalizedBoundedTurnInput(CanonicalForm.Meaning(List([TextItem(prompt)]))),
           threadId, Some(turnId))
  {
    hide CanonicalForm.Meaning, EchoContent, TimeKey, EchoMethod;
    hide SourceNotificationEnvelope, IsBoundedTurnUserInputEcho, BoundedId;
    EchoContentMeans(prompt);
    FrameMeans(started, threadId, turnId, itemId, prompt, time, emittedAtMs);
    ParamsMean(started, threadId, turnId, itemId, prompt, time);
    ItemMeans(itemId, prompt);
    var params := CanonicalForm.Meaning(EchoParams(started, threadId, turnId, itemId, prompt, time));
    var item := CanonicalForm.Meaning(EchoItem(itemId, prompt));
    var content := CanonicalForm.Meaning(EchoContent(prompt));
    var frame := CanonicalForm.Meaning(EchoFrame(started, threadId, turnId, itemId, prompt, time, emittedAtMs)).fields;
    EnvelopeIsClosed(ServerMessage(frame, raw), emittedAtMs, params, EchoMethod(started));
    ItemIsClosed(item.fields, itemId, content);
    TimeKeyNames(started);
    ParamsAreClosed(params.fields, TimeKey(started), time, item, threadId, turnId);
    ClosedFrameIsSelected(ServerMessage(frame, raw), started, time, item.fields, threadId, turnId, content);
  }

  lemma TimeKeyNames(started: bool)
    ensures TimeKey(started) == "startedAtMs" || TimeKey(started) == "completedAtMs"
  {
  }
}
