/**
 * The browser client's `sendMessage` (ai-chat-ui/src/App.js): check the
 * conversation thread id, post the message to the backend's chat route and
 * hand back the reply body.
 *
 * `fetch` is not executed: the caller supplies what it would produce, and
 * the result records whether a request was issued at all.
 */
module App {
  import opened Text

  /** The backend base URL with trailing slashes removed (it has none). */
  const ApiUrl: string := "http://localhost:5000"
  const ChatUrl: string := ApiUrl + "/api/chat/chat"

  const InvalidThreadError: string := "Invalid threadId. Please refresh the page or start a new conversation."
  const NotOkError: string := "Network response was not ok"

  /**
   * A usable conversation thread id: a string starting with "thread".
   * JavaScript's `!tid` and `typeof tid !== 'string'` tests are folded
   * into the Option: every non-string value is None, and the empty string
   * fails the prefix test anyway.
   */
  predicate IsValidThreadId(tid: Option<string>)
  {
    tid.Some? && StartsWith(tid.value, "thread")
  }

  /** The POST request sendMessage issues; its JSON body is `{message, threadId}`. */
  datatype ChatPost = ChatPost(url: string, message: string, threadId: string)

  /** What `fetch` followed by `response.text()` produces. */
  datatype FetchResult =
    | Response(ok: bool, text: string)
    | NetworkError(cause: string)

  /** The request issued, if any, and the value returned or the error thrown. */
  datatype Send = Send(request: Option<ChatPost>, outcome: Result<string, string>)

  function SendMessage(message: string, threadId: Option<string>, fetched: FetchResult): (s: Send)
    // the thread id is checked before any request goes out
    ensures s.request.None? <==> !IsValidThreadId(threadId)
    ensures !IsValidThreadId(threadId) ==> s.outcome == Err(InvalidThreadError)
    // the body carries the message and the thread id unchanged
    ensures s.request.Some? ==> s.request.value == ChatPost(ChatUrl, message, threadId.value)
    // only an ok response returns, and then its body verbatim
    ensures s.outcome.Ok? <==> IsValidThreadId(threadId) && fetched.Response? && fetched.ok
    ensures s.outcome.Ok? ==> s.outcome.value == fetched.text
    ensures IsValidThreadId(threadId) && fetched.Response? && !fetched.ok ==> s.outcome == Err(NotOkError)
  {
    if !IsValidThreadId(threadId) then
      Send(None, Err(InvalidThreadError))
    else
      var request := Some(ChatPost(ChatUrl, message, threadId.value));
      match fetched
      case NetworkError(cause) => Send(request, Err(cause))
      case Response(ok, text) =>
        if !ok then Send(request, Err(NotOkError)) else Send(request, Ok(text))
  }
}
