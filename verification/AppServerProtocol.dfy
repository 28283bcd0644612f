/** The wire-level vocabulary shared by the App Server client and the admission mapper:
    messages, envelopes, cuts, byte bounds and the bounded-turn frame shapes. */
module AppServerProtocol {
  import opened Wrappers
  import opened Utf8
  import opened Json
  import opened Reasons

  const SAFE_INTEGER_MAX: int := 9007199254740991
  const MAXIMUM_RETAINED_ADAPTER_EVENT_BYTES: nat := 16 * 1024
  const MAXIMUM_TURN_START_REQUEST_BYTES: nat := 256 * 1024
  const MAXIMUM_USER_INPUT_ECHO_BYTES: nat := 256 * 1024
  const MAXIMUM_BOUNDED_AGENT_OUTPUT_BYTES: nat := 32 * 1024
  const MAXIMUM_ID_CODEPOINTS: nat := 512
  const NEWLINE: byte := 10

  datatype CaptureContract = LegacyV1 | BoundedTurnV1 | BoundedTurnEchoV1

  /** `client_request_byte_bound` for a known capture contract. */
  function ClientRequestByteBound(requestMethod: Option<string>, contract: CaptureContract): nat {
    if requestMethod == Some("turn/start") && !contract.LegacyV1?
    then MAXIMUM_TURN_START_REQUEST_BYTES
    else MAXIMUM_RETAINED_ADAPTER_EVENT_BYTES
  }

  /** A decoded protocol object together with the exact bytes it arrived as. */
  datatype ServerMessage = ServerMessage(raw: Object, rawBytes: Option<bytes>)
  {
    /** None when the method is absent or not a string. */
    function MethodName(): Option<string> {
      match Get(raw, "method")
      case Str(s) => Some(s)
      case _ => None
    }

    /** Anything but an object reads as the empty object. */
    function Params(): Object {
      match Get(raw, "params")
      case Obj(fields) => fields
      case _ => map[]
    }
  }

  /** `UNKNOWN` stands for every kind string outside the five that acquisition issues. */
  datatype EnvelopeKind = LOSS | NOTIFICATION | SERVER_REQUEST | CLIENT_REQUEST | CLIENT_RESPONSE | UNKNOWN

  datatype AcquisitionEnvelope = AcquisitionEnvelope(
    ordinal: int,
    kind: EnvelopeKind,
    message: Option<ServerMessage>,
    diagnostic: Option<Reason>,
    rawBytes: Option<bytes>,
    requestMethod: Option<string>)

  /** `FOREIGN` stands for every disposition string the mapper does not know. */
  datatype ProcessDisposition =
    | UNKNOWN_PROCESS | ABSENT | RUNNING | EXITED | EXITED_AFTER_TERMINATE | EXITED_AFTER_KILL
    | EXIT_UNCONFIRMED | FOREIGN

  predicate ProcessClosed(d: ProcessDisposition) {
    d.EXITED? || d.EXITED_AFTER_TERMINATE? || d.EXITED_AFTER_KILL?
  }

  datatype AcquisitionCut = AcquisitionCut(
    streamQuiesced: bool,
    lossGeneration: int,
    processDisposition: ProcessDisposition,
    orderedHighWater: int,
    adapterProcessOccurrenceId: Option<string>,
    appServerSessionIdentity: Option<string>)

  // ---- Closed frame shapes of the bounded-turn echo contract ----

  predicate BoundedId(v: Json) {
    v.Str? && 1 <= |v.s| <= MAXIMUM_ID_CODEPOINTS
  }

  predicate BoundedI64(v: Json) {
    v.Int? && -SAFE_INTEGER_MAX <= v.n <= SAFE_INTEGER_MAX
  }

  predicate NullOrBoundedI64(v: Json) {
    v.Null? || BoundedI64(v)
  }

  /** The closed outgoing notification envelope: exactly method, params and a positive time. */
  predicate SourceNotificationEnvelope(message: ServerMessage) {
    var emittedAtMs := Get(message.raw, "emittedAtMs");
    && message.raw.Keys == {"method", "params", "emittedAtMs"}
    && BoundedI64(emittedAtMs) && emittedAtMs.n > 0
  }

  /** Fills in the declared absent text-elements default of the one permitted text item. */
  function NormalizedBoundedTurnInput(value: Json): Option<Json> {
    if value.Arr? && |value.items| == 1 && value.items[0].Obj? then
      var item := value.items[0].fields;
      if item.Keys == {"type", "text"} && item["type"] == Str("text") && item["text"].Str?
      then Some(Arr([Obj(map["type" := Str("text"), "text" := item["text"], "text_elements" := Arr([])])]))
      else None
    else None
  }

  /** None is the TypeError Python raises when it hashes a list or dict `phase`. */
  function BoundedAgentItem(value: Json): Option<bool> {
    if !value.Obj? || value.fields.Keys != {"type", "id", "text", "phase", "memoryCitation", "delivery"} then Some(false)
    else
      var item := value.fields;
      if item["type"] != Str("agentMessage") || !BoundedId(item["id"]) || !item["text"].Str? then Some(false)
      else if |Encode(item["text"].s)| > MAXIMUM_BOUNDED_AGENT_OUTPUT_BYTES then Some(false)
      else if item["phase"].Arr? || item["phase"].Obj? then None
      else Some(
        && item["phase"] in {Null, Str("commentary"), Str("final_answer")}
        && item["memoryCitation"].Null?
        && item["delivery"].Null?)
  }

  predicate IsBoundedTurnUserInputEcho(
    message: ServerMessage, expectedInput: Option<Json>, threadId: string, turnId: Option<string>)
  {
    if expectedInput.None? || !SourceNotificationEnvelope(message)
       || message.MethodName() !in {Some("item/started"), Some("item/completed")} then false
    else
      var params := message.Params();
      var timestamp := if message.MethodName() == Some("item/started") then "startedAtMs" else "completedAtMs";
      && params.Keys == {"threadId", "turnId", "item", timestamp}
      && params["threadId"] == Str(threadId)
      && (turnId.Some? ==> params["turnId"] == Str(turnId.value))
      && BoundedI64(params[timestamp])
      && params["item"].Obj?
      && var item := params["item"].fields;
      && item.Keys == {"type", "id", "clientId", "content"}
      && item["type"] == Str("userMessage")
      && BoundedId(item["id"])
      && item["clientId"].Null?
      && item["content"] == expectedInput.value
  }

  /** None when inspecting the frame raises a TypeError. */
  function IsBoundedTurnAgentOutput(
    message: ServerMessage, threadId: string, turnId: Option<string>): Option<bool>
  {
    var params := message.Params();
    var name := message.MethodName();
    if !SourceNotificationEnvelope(message) then Some(false)
    else if name in {Some("item/started"), Some("item/completed")} then
      var timestamp := if name == Some("item/started") then "startedAtMs" else "completedAtMs";
      if && params.Keys == {"threadId", "turnId", "item", timestamp}
         && params["threadId"] == Str(threadId)
         && (turnId.Some? ==> params["turnId"] == Str(turnId.value))
         && BoundedI64(params[timestamp])
      then BoundedAgentItem(params["item"])
      else Some(false)
    else if name == Some("item/agentMessage/delta") then
      Some(
        && params.Keys == {"threadId", "turnId", "itemId", "delta"}
        && params["threadId"] == Str(threadId)
        && (turnId.Some? ==> params["turnId"] == Str(turnId.value))
        && BoundedId(params["itemId"])
        && params["delta"].Str?
        && |Encode(params["delta"].s)| <= MAXIMUM_BOUNDED_AGENT_OUTPUT_BYTES)
    else if name != Some("turn/completed") || params.Keys != {"threadId", "turn", "emittedAtMs"} then Some(false)
    else if params["threadId"] == Str(threadId) && BoundedI64(params["emittedAtMs"])
            && BoundedSummaryFields(params["turn"], turnId) then
      match BoundedAgentItem(params["turn"].fields["items"].items[0])
      case Some(true) => Some(BoundedSummaryTail(params["turn"].fields))
      case other => other
    else Some(false)
  }

  /** The part of the summary that is inspected before its single agent item. */
  predicate BoundedSummaryFields(turn: Json, turnId: Option<string>) {
    && turn.Obj?
    && turn.fields.Keys == {"id", "items", "itemsView", "status", "error", "startedAt", "completedAt", "durationMs"}
    && (turnId.Some? ==> turn.fields["id"] == Str(turnId.value))
    && turn.fields["items"].Arr?
    && |turn.fields["items"].items| == 1
  }

  predicate BoundedSummaryTail(turn: Object)
    requires turn.Keys == {"id", "items", "itemsView", "status", "error", "startedAt", "completedAt", "durationMs"}
  {
    && turn["itemsView"] == Str("summary")
    && turn["status"] == Str("completed")
    && turn["error"].Null?
    && NullOrBoundedI64(turn["startedAt"])
    && NullOrBoundedI64(turn["completedAt"])
    && NullOrBoundedI64(turn["durationMs"])
  }

  /** Whether the frame qualifies for the large bound; None is a TypeError. The input echo is
      tried first and short-circuits the agent form, as Python's `or` does. */
  function SelectedFrame(
    message: ServerMessage, expectedInput: Option<Json>, threadId: string, turnId: Option<string>): Option<bool>
  {
    if IsBoundedTurnUserInputEcho(message, expectedInput, threadId, turnId) then Some(true)
    else IsBoundedTurnAgentOutput(message, threadId, turnId)
  }
}
