/** The messages of an agent session, as forks, the send-contract derivation and the runner read them. */
module Transcript {

  datatype Option<+T> = None | Some(value: T)

  /** A UTF-16 code unit. */
  type CodeUnit = n: nat | n < 0x1_0000

  /** How a tool call may be treated by a redo: `RedoSafe` calls leave nothing behind. */
  datatype Effect = RedoSafe | Repeatable | Undoable | Irreversible

  datatype ToolName = SendMessage | NoReply | OtherPosting(name: string) | OtherTool(name: string)

  /** `refined` is the effect class of the call's name and arguments; posting tools and `no_reply` have their own. */
  datatype ToolCall = ToolCall(id: string, name: ToolName, refined: Effect)

  /** Tools that post or edit model-written text in a chat. */
  predicate IsPosting(name: ToolName) {
    name.SendMessage? || name.OtherPosting?
  }

  function ToolEffect(call: ToolCall): Effect {
    match call.name
    case SendMessage => Irreversible
    case OtherPosting(_) => Irreversible
    case NoReply => RedoSafe
    case OtherTool(_) => call.refined
  }

  /** The trimmed text of a message, with the verdicts of the text patterns on it. */
  datatype Prose = Empty | NoReplyText | Words(toolCallMarkup: bool, contextMarkup: bool)

  datatype StopReason = Completed | Aborted | Failed

  datatype NudgeVariant = NotSent | SentNotFinal

  /** The marker the harness stamps on every message it writes itself. */
  datatype Marker = ForcedCompletion(attempt: Option<int>, variant: NudgeVariant) | RecordTurn | OtherMarker

  datatype Message =
    | Kickoff(uid: nat)  // the frozen final user turn: a trigger group or a satellite
    | User(harness: Option<Marker>, wording: Option<NudgeVariant>)  // wording: the corrective prompt it is, if any
    | Assistant(prose: Prose, calls: seq<ToolCall>, stop: StopReason, harness: Option<Marker>)
    | ToolResult(callId: string, toolName: ToolName, isError: bool, loads: seq<string>, harness: Option<Marker>)
    | Interjection(uid: nat)  // uid: the identity of the message object

  predicate HarnessMade(m: Message) {
    match m
    case User(h, _) => h.Some?
    case Assistant(_, _, _, h) => h.Some?
    case ToolResult(_, _, _, _, h) => h.Some?
    case _ => false
  }

  function Calls(m: Message): seq<ToolCall> {
    if m.Assistant? then m.calls else []
  }

  /** A corrective prompt: tagged as one, or untagged with a known wording. */
  predicate IsNudge(m: Message) {
    m.User? && if m.harness.Some? then m.harness.value.ForcedCompletion? else m.wording.Some?
  }

  function NudgeVariantOf(m: Message): NudgeVariant
    requires IsNudge(m)
  {
    if m.harness.Some? then m.harness.value.variant else m.wording.value
  }

  function NudgeAttemptOf(m: Message): Option<int>
    requires IsNudge(m)
  {
    if m.harness.Some? then m.harness.value.attempt else None
  }

  predicate IsRecordTurn(m: Message) {
    m.User? && m.harness == Some(RecordTurn)
  }

  /** A message that starts a run. */
  predicate IsRunStart(m: Message) {
    m.Kickoff? || (m.User? && m.harness.None? && !IsNudge(m))
  }

  /** A posting tool's result that is not an error: something was delivered. */
  predicate IsDelivery(m: Message) {
    m.ToolResult? && !m.isError && IsPosting(m.toolName)
  }
}
