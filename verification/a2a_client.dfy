/**
  The agent-to-agent test client: building the `message/send` payload and
  deciding whether a multi-turn conversation sends its second turn.
 */
module A2AClient {
  import opened Values

  /** The message fields the payload can carry, as read back from it. */
  datatype Message = Message(text: string, taskId: Option<string>, contextId: Option<string>, messageId: string)

  /** An optional id as the payload keeps it: `None` and `""` are both dropped. */
  function Kept(id: Option<string>): (r: Option<string>)
    ensures r.Some? <==> NonEmpty(id)
    ensures r.Some? ==> r == id
  {
    if NonEmpty(id) then id else None
  }

  /** The single text part of a user message. */
  function TextPartValue(text: string): Value {
    Obj(map["kind" := Str("text"), "text" := Str(text)])
  }

  /**
    `create_send_message_payload`: a user message with one text part and the
    given message id, plus "taskId" and "contextId" only when those ids are
    non-empty. The message id stands for the fresh `uuid4().hex`.
   */
  function SendMessagePayload(text: string, taskId: Option<string>, contextId: Option<string>, messageId: string): (r: Dict)
    ensures r.Keys == {"message"} && r["message"].Obj?
    ensures
      var m := r["message"].entries;
      && m.Keys == {"role", "parts", "messageId"}
                   + (if NonEmpty(taskId) then {"taskId"} else {})
                   + (if NonEmpty(contextId) then {"contextId"} else {})
      && m["role"] == Str("user")
      && m["parts"] == Arr([TextPartValue(text)])
      && m["messageId"] == Str(messageId)
      && (NonEmpty(taskId) ==> m["taskId"] == Str(taskId.value))
      && (NonEmpty(contextId) ==> m["contextId"] == Str(contextId.value))
  {
    var base := map["role" := Str("user"), "parts" := Arr([TextPartValue(text)]), "messageId" := Str(messageId)];
    var withTask := if NonEmpty(taskId) then base["taskId" := Str(taskId.value)] else base;
    var withContext := if NonEmpty(contextId) then withTask["contextId" := Str(contextId.value)] else withTask;
    map["message" := Obj(withContext)]
  }

  /**
    Reads a payload back into its message fields; `None` unless it holds only
    "message", whose keys are among the five message fields, whose role is
    "user", whose single part is a text part, and whose ids are strings.
   */
  function ReadPayload(payload: Dict): Option<Message> {
    if payload.Keys == {"message"} && payload["message"].Obj? then
      var m := payload["message"].entries;
      if m.Keys <= {"role", "parts", "messageId", "taskId", "contextId"}
        && "role" in m && m["role"] == Str("user") && "messageId" in m && m["messageId"].Str?
        && "parts" in m && m["parts"].Arr? && |m["parts"].items| == 1
        && m["parts"].items[0].Obj? && "text" in m["parts"].items[0].entries
        && m["parts"].items[0].entries["text"].Str?
        && m["parts"].items[0] == TextPartValue(m["parts"].items[0].entries["text"].s)
        && ("taskId" in m ==> m["taskId"].Str?)
        && ("contextId" in m ==> m["contextId"].Str?)
      then
        var taskId := if "taskId" in m && m["taskId"].Str? then Some(m["taskId"].s) else None;
        var contextId := if "contextId" in m && m["contextId"].Str? then Some(m["contextId"].s) else None;
        Some(Message(m["parts"].items[0].entries["text"].s, taskId, contextId, m["messageId"].s))
      else None
    else None
  }

  /** Building a payload and reading it back recovers the text, the message id and the non-empty ids. */
  lemma PayloadRoundTrip(text: string, taskId: Option<string>, contextId: Option<string>, messageId: string)
    ensures ReadPayload(SendMessagePayload(text, taskId, contextId, messageId))
      == Some(Message(text, Kept(taskId), Kept(contextId), messageId))
  {
  }

  /** The states an A2A task reports. */
  datatype TaskState =
    | Submitted | Working | InputRequired | Completed | Canceled | Failed | Rejected | AuthRequired | Unknown

  /** What the first turn of the multi-turn test got back. */
  datatype FirstTurnResponse =
    | NonSuccess
    | NonTaskResult
    | TaskResult(id: string, contextId: Option<string>, state: TaskState)

  /** What the multi-turn test does after its first turn. */
  datatype SecondTurnAction =
    | Stop
    | SendSecondTurn(payload: Dict)
    | WarnNoContext
    | NoFurtherInput

  const SecondTurnText := "I mean 100 pounds"

  /**
    The second-turn decision of `run_multi_turn_test`: a task that asks for
    input and has a context id gets a follow-up linked to its task and context;
    a task without a context id draws a warning; any other task is done; a
    failed or non-task response ends the test silently.
   */
  function SecondTurn(first: FirstTurnResponse, messageId: string): (r: SecondTurnAction)
    ensures r.SendSecondTurn? <==> first.TaskResult? && first.state == InputRequired && NonEmpty(first.contextId)
    ensures r.WarnNoContext? <==> first.TaskResult? && !NonEmpty(first.contextId)
    ensures r.NoFurtherInput? <==> first.TaskResult? && first.state != InputRequired && NonEmpty(first.contextId)
    ensures r.Stop? <==> !first.TaskResult?
    ensures r.SendSecondTurn? ==>
      ReadPayload(r.payload) == Some(Message(SecondTurnText, Kept(Some(first.id)), first.contextId, messageId))
  {
    match first
    case TaskResult(id, contextId, state) =>
      if state == InputRequired && NonEmpty(contextId) then
        PayloadRoundTrip(SecondTurnText, Some(id), contextId, messageId);
        SendSecondTurn(SendMessagePayload(SecondTurnText, Some(id), contextId, messageId))
      else if !NonEmpty(contextId) then WarnNoContext
      else NoFurtherInput
    case _ => Stop
  }
}
