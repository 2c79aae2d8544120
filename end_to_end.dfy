/**
 * How the halves fit together: what the browser client makes of the
 * backend's thread route, and why the client's own send guard never
 * refuses the thread id the component holds.
 */
module EndToEnd {
  import opened Text
  import App
  import AgentSession
  import ChatController
  import ChatUI

  /** The string form of a GUID: lower-case hexadecimal digits and hyphens. */
  predicate IsGuidText(g: string)
  {
    forall i :: 0 <= i < |g| ==> g[i] in "0123456789abcdef-"
  }

  /**
   * What the client's thread loop reads from a thread-route response:
   * `data.threadId` of a JSON body (absent unless the body is `{threadId}`);
   * a plain-text body (the host's generic 500) makes `resp.json()` throw.
   */
  function ClientReads(r: ChatController.HttpResult): ChatUI.ThreadReply
  {
    match r.body
    case ThreadJson(id) => ChatUI.Issued(Some(id))
    case PlainText(_) => ChatUI.Rejected
    case Message(_) => ChatUI.Rejected
    case ErrorJson(_) => ChatUI.Issued(None)
    case StatusJson(_) => ChatUI.Issued(None)
  }

  /** A GUID never looks like a thread id to the client. */
  lemma GuidIsNoThreadId(g: string)
    requires IsGuidText(g)
    ensures !App.IsValidThreadId(Some(g))
  {
    if StartsWith(g, "thread") {
      StartsWithNonEmpty(g, "thread");
    }
  }

  /**
   * A failed thread creation, or a blank id replaced by a GUID, gives the
   * client nothing it can use: it asks again (within its ten attempts).
   */
  lemma UnusableThreadRouteRetried(agent: AgentSession.PrivateAgent,
                                   created: Result<string, AgentSession.Exception>, guid: string)
    requires IsGuidText(guid)
    requires created.Err? || IsNullOrWhiteSpace(Some(created.value))
    ensures !ChatUI.Stops(ClientReads(ChatController.CreateThread(agent.CreateThread(created), guid)))
  {
    if created.Err? {
      ChatController.ThreadCreationFailureIs500(agent, created.error, guid);
    } else {
      if StartsWith(created.value, ChatController.ErrorMarker) {
        ChatController.ErrorMarkedIsNotBlank(created.value);
      }
      GuidIsNoThreadId(guid);
    }
  }

  /** A service thread id ("thread_...") reaches the client unchanged and ends its loop. */
  lemma ServiceThreadIdAccepted(agent: AgentSession.PrivateAgent, id: string, guid: string)
    requires StartsWith(id, "thread")
    ensures ClientReads(ChatController.CreateThread(agent.CreateThread(Ok(id)), guid)) == ChatUI.Issued(Some(id))
    ensures ChatUI.Stops(ChatUI.Issued(Some(id)))
  {
    StartsWithNonEmpty(id, "thread");
    assert !StartsWith(id, ChatController.ErrorMarker) by {
      if StartsWith(id, ChatController.ErrorMarker) {
        StartsWithNonEmpty(id, ChatController.ErrorMarker);
      }
    }
    assert !IsDotNetWhiteSpace(id[0]);
  }

  /**
   * Whenever handleSend gets past its guard, the thread id it hands to
   * sendMessage passes sendMessage's own check, so a request goes out.
   */
  lemma HeldThreadPassesSendGuard(c: ChatUI.Component, message: string, fetched: App.FetchResult)
    requires c.Valid() && ChatUI.Truthy(c.threadId)
    ensures App.SendMessage(message, c.threadId, fetched).request.Some?
  {
  }
}
