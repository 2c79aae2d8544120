/**
 * The backend's HTTP decisions (agent_with_tool_V1/ChatController.cs): the
 * chat route validates the request and relays the agent's reply, the
 * thread route turns the session's thread-creation result into a status
 * and a JSON body, and the health route always answers ok.
 *
 * Each action is a function of the request and of what the agent session
 * returns when called; a chat outcome records whether the agent was
 * called and with what.
 */
module ChatController {
  import opened Text
  import AgentSession

  /** The chat route's JSON body; a missing body is None. */
  datatype ChatRequest = ChatRequest(message: Option<string>, threadId: Option<string>)

  datatype Body =
    | Message(text: string)          // a string object (BadRequest)
    | PlainText(text: string)        // Content(..., "text/plain")
    | ErrorJson(error: string)       // { error }
    | ThreadJson(threadId: string)   // { threadId }
    | StatusJson(status: string)     // { status }

  datatype HttpResult = HttpResult(status: int, body: Body)

  /** A call of the agent session's GetResponse. */
  datatype AgentCall = AgentCall(prompt: string, threadId: Option<string>)

  datatype ChatOutcome = ChatOutcome(agentCall: Option<AgentCall>, result: HttpResult)

  const MessageRequired: string := "Message is required."
  const ErrorMarker: string := "[Error]:"

  /**
   * POST /api/chat/chat. `reply` is what the agent returns if it is called
   * (possibly null).
   */
  function Chat(req: Option<ChatRequest>, reply: Option<string>): (o: ChatOutcome)
    // a missing body or a blank message is refused and the agent is not called
    ensures o.agentCall.None? <==> req.None? || IsNullOrWhiteSpace(req.value.message)
    ensures o.agentCall.None? ==> o.result == HttpResult(400, Message(MessageRequired))
    // otherwise the message and thread id go to the agent as they are
    ensures o.agentCall.Some? ==>
      req.Some? && req.value.message.Some? &&
      o.agentCall.value == AgentCall(req.value.message.value, req.value.threadId)
    // and the reply comes back verbatim with success, error-tagged or not; null becomes ""
    ensures o.agentCall.Some? ==>
      o.result == HttpResult(200, PlainText(if reply.Some? then reply.value else ""))
  {
    if req.None? || IsNullOrWhiteSpace(req.value.message) then
      ChatOutcome(None, HttpResult(400, Message(MessageRequired)))
    else
      var text := match reply case Some(r) => r case None => "";
      ChatOutcome(Some(AgentCall(req.value.message.value, req.value.threadId)), HttpResult(200, PlainText(text)))
  }

  /**
   * POST /api/chat/thread. `created` is what the session's CreateThread
   * returned; `guid` is a freshly generated GUID in its string form.
   */
  function CreateThread(created: string, guid: string): (r: HttpResult)
    // an error-marked result is a server error carrying it
    ensures r.status == 500 <==> StartsWith(created, ErrorMarker)
    ensures r.status == 500 ==> r.body == ErrorJson(created)
    // otherwise success with the id, a blank id replaced by the GUID
    ensures r.status != 500 ==> r.status == 200 && r.body.ThreadJson?
    ensures r.status == 200 && !IsNullOrWhiteSpace(Some(created)) ==> r.body == ThreadJson(created)
    ensures r.status == 200 && IsNullOrWhiteSpace(Some(created)) ==> r.body == ThreadJson(guid)
  {
    if StartsWith(created, ErrorMarker) then
      HttpResult(500, ErrorJson(created))
    else
      var threadId := if IsNullOrWhiteSpace(Some(created)) then guid else created;
      HttpResult(200, ThreadJson(threadId))
  }

  /** GET /api/health. */
  function Health(): (r: HttpResult)
    ensures r.status == 200 && r.body == StatusJson("ok")
  {
    HttpResult(200, StatusJson("ok"))
  }

  /**
   * The error-marker test comes before the blank test, but the order never
   * matters: an error-marked string is not blank.
   */
  lemma ErrorMarkedIsNotBlank(created: string)
    requires StartsWith(created, ErrorMarker)
    ensures !IsNullOrWhiteSpace(Some(created))
  {
    StartsWithNonEmpty(created, ErrorMarker);
    assert !IsDotNetWhiteSpace(created[0]);
  }

  /** With a non-blank GUID, a successful thread route never hands out a blank id. */
  lemma CreatedThreadIdNotBlank(created: string, guid: string)
    requires !IsNullOrWhiteSpace(Some(guid))
    ensures var r := CreateThread(created, guid);
      r.status == 200 ==> !IsNullOrWhiteSpace(Some(r.body.threadId))
  {
  }

  /**
   * Every failure of the session's thread creation becomes a 500 whose
   * error is the tagged cause and stack trace.
   */
  lemma ThreadCreationFailureIs500(agent: AgentSession.PrivateAgent, ex: AgentSession.Exception, guid: string)
    ensures CreateThread(agent.CreateThread(Err(ex)), guid)
            == HttpResult(500, ErrorJson("[Error]: " + ex.message + " | " + ex.stackTrace))
  {
  }
}
