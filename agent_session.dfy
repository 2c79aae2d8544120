/**
 * The backend's agent session (agent_with_tool_V1/services/PrivateAgent.cs):
 * post a user message to a conversation thread, start a run of the
 * configured agent, poll the run until it leaves the pending states, and
 * read the agent's reply from the thread's message list. Every failure of
 * the remote agent service comes back as a string tagged "[Error]: ".
 *
 * The remote service is an oracle value (`Remote`): whether posting the
 * message fails, the run id or the failure of creating the run, the stream
 * of answers to successive run-status fetches, and the message list or the
 * failure of listing it. The calls issued to it are returned as a trace.
 */
module AgentSession {
  import opened Text

  /** The run states the agent service reports. */
  datatype RunStatus =
    | Queued | InProgress | RequiresAction | Cancelling | Cancelled | Failed | Completed | Expired

  /** The only distinction the session draws: still pending or not. */
  predicate Pending(s: RunStatus)
  {
    s == Queued || s == InProgress
  }

  datatype MessageRole = User | Agent

  /** A content item of a thread message: text, or anything else (an image file, say). */
  datatype Content = TextContent(text: string) | NonTextContent

  datatype ThreadMessage = ThreadMessage(role: MessageRole, contentItems: seq<Content>)

  /** An exception raised by a remote call: `ex.Message` and `ex.StackTrace`. */
  datatype Exception = Exception(message: string, stackTrace: string)

  /** The answer to one run-status fetch. */
  datatype Poll = Fetched(status: RunStatus) | FetchFailed(ex: Exception)

  /** A fetch after which polling stops: it threw, or the status is not pending. */
  predicate Settles(p: Poll)
  {
    p.FetchFailed? || !Pending(p.status)
  }

  /** The run eventually leaves the pending states (the session has no timeout). */
  predicate EventuallySettles(polls: seq<Poll>)
  {
    exists i :: 0 <= i < |polls| && Settles(polls[i])
  }

  datatype Remote = Remote(
    postMessage: Option<Exception>,
    createRun: Result<string, Exception>,
    polls: seq<Poll>,
    listMessages: Result<seq<ThreadMessage>, Exception>)

  /** A call the session issues to the agent service. */
  datatype Call =
    | CreateMessage(threadId: string, role: MessageRole, content: string)
    | CreateRun(threadId: string, agentId: string)
    | GetRun(threadId: string, runId: string)
    | GetMessages(threadId: string)

  const ErrorTag: string := "[Error]: "
  const NoReplyError: string := ErrorTag + "No agent reply found for this prompt."

  function Tagged(cause: string): (r: string)
    ensures StartsWith(r, ErrorTag) && r[|ErrorTag|..] == cause
  {
    StartsWithConcat(ErrorTag, cause);
    ErrorTag + cause
  }

  /** The thread a request uses: the one supplied (even ""), else the session's default. */
  function EffectiveThread(requested: Option<string>, default: string): string
  {
    match requested
    case Some(t) => t
    case None => default
  }

  /** Index of the fetch that ends polling: the first one that settles. */
  function SettleIndex(polls: seq<Poll>): (k: nat)
    requires EventuallySettles(polls)
    ensures k < |polls| && Settles(polls[k])
    ensures forall j :: 0 <= j < k ==> !Settles(polls[j])
  {
    if Settles(polls[0]) then 0
    else
      assert EventuallySettles(polls[1..]) by {
        var i :| 0 <= i < |polls| && Settles(polls[i]);
        assert i > 0 && Settles(polls[1..][i - 1]);
      }
      1 + SettleIndex(polls[1..])
  }

  /** The text of a message: its text items concatenated in order, other items skipped. */
  function TextOf(items: seq<Content>): string
  {
    if items == [] then ""
    else (if items[0].TextContent? then items[0].text else "") + TextOf(items[1..])
  }

  lemma {:induction false} TextOfAppend(a: seq<Content>, b: seq<Content>)
    ensures TextOf(a + b) == TextOf(a) + TextOf(b)
    decreases |a|
  {
    if a == [] {
      assert a + b == b;
    } else {
      assert (a + b)[1..] == a[1..] + b;
      TextOfAppend(a[1..], b);
    }
  }

  /** A message with no text items reads as the empty string. */
  lemma {:induction false} TextOfNoText(items: seq<Content>)
    requires forall i :: 0 <= i < |items| ==> !items[i].TextContent?
    ensures TextOf(items) == ""
    decreases |items|
  {
    if items != [] {
      TextOfNoText(items[1..]);
    }
  }

  /** Non-text items contribute nothing: dropping one leaves the text unchanged. */
  lemma {:induction false} TextOfSkipsNonText(a: seq<Content>, b: seq<Content>)
    ensures TextOf(a + [NonTextContent] + b) == TextOf(a + b)
  {
    TextOfAppend(a + [NonTextContent], b);
    TextOfAppend(a, [NonTextContent]);
    TextOfAppend(a, b);
    assert TextOf([NonTextContent]) == "";
  }

  /**
   * Position of the message the reply is read from: the first message
   * whose role is Agent, in the order the service returns them; None when
   * no message is the agent's. Later agent messages are never looked at.
   */
  function FirstAgentIndex(messages: seq<ThreadMessage>): (r: Option<nat>)
    ensures r.None? <==> forall i :: 0 <= i < |messages| ==> messages[i].role != Agent
    ensures r.Some? ==>
      r.value < |messages| && messages[r.value].role == Agent &&
      (forall j :: 0 <= j < r.value ==> messages[j].role != Agent)
  {
    if messages == [] then None
    else if messages[0].role == Agent then Some(0)
    else
      match FirstAgentIndex(messages[1..])
      case None => None
      case Some(i) => Some(i + 1)
  }

  /** The text of the first Agent message, if there is one. */
  function FirstAgentReply(messages: seq<ThreadMessage>): Option<string>
  {
    match FirstAgentIndex(messages)
    case Some(i) => Some(TextOf(messages[i].contentItems))
    case None => None
  }

  /** What the session answers after a successful listing of the messages. */
  function ReplyText(messages: seq<ThreadMessage>): string
  {
    match FirstAgentReply(messages)
    case Some(text) => text
    case None => NoReplyError
  }

  /** The reply and the calls issued by one GetResponse. */
  datatype Exchange = Exchange(reply: string, calls: seq<Call>)

  /** The calls up to and including the status fetch that ends polling. */
  function PollCalls(t: string, agentId: string, prompt: string, runId: string, fetches: nat): seq<Call>
  {
    [CreateMessage(t, User, prompt), CreateRun(t, agentId)] + seq(fetches, _ => GetRun(t, runId))
  }

  /**
   * The whole exchange of GetResponse as a function of the session's
   * configuration, the request and the remote service's behaviour.
   */
  function Converse(agentId: string, defaultThread: string, prompt: string,
                    threadId: Option<string>, remote: Remote): (e: Exchange)
    requires EventuallySettles(remote.polls)
    // the message goes to the effective thread first, then the run is started for the agent
    ensures |e.calls| >= 1 && e.calls[0] == CreateMessage(EffectiveThread(threadId, defaultThread), User, prompt)
    ensures |e.calls| >= 2 ==> e.calls[1] == CreateRun(EffectiveThread(threadId, defaultThread), agentId)
    // every failure of a remote call is returned as its tagged cause
    ensures remote.postMessage.Some? ==> e.reply == Tagged(remote.postMessage.value.message) && |e.calls| == 1
    ensures remote.postMessage.None? && remote.createRun.Err? ==>
      e.reply == Tagged(remote.createRun.error.message) && |e.calls| == 2
    ensures remote.postMessage.None? && remote.createRun.Ok? &&
            remote.polls[SettleIndex(remote.polls)].FetchFailed? ==>
      e.reply == Tagged(remote.polls[SettleIndex(remote.polls)].ex.message) &&
      |e.calls| == SettleIndex(remote.polls) + 3
  {
    var t := EffectiveThread(threadId, defaultThread);
    var post := CreateMessage(t, User, prompt);
    if remote.postMessage.Some? then
      Exchange(Tagged(remote.postMessage.value.message), [post])
    else if remote.createRun.Err? then
      Exchange(Tagged(remote.createRun.error.message), [post, CreateRun(t, agentId)])
    else
      var k := SettleIndex(remote.polls);
      var polled := PollCalls(t, agentId, prompt, remote.createRun.value, k + 1);
      if remote.polls[k].FetchFailed? then
        Exchange(Tagged(remote.polls[k].ex.message), polled)
      else
        var calls := polled + [GetMessages(t)];
        match remote.listMessages
        case Err(ex) => Exchange(Tagged(ex.message), calls)
        case Ok(messages) => Exchange(ReplyText(messages), calls)
  }

  class PrivateAgent {
    const agentId: string
    const threadId: string

    /**
     * The session is built once at startup; the host refuses to build it
     * unless the connection string, the agent id and the default thread id
     * are all present and not blank. The connection string only opens the
     * client of the agent service, which this model replaces by `Remote`.
     */
    constructor(connectionString: string, agentId: string, threadId: string)
      requires !IsNullOrWhiteSpace(Some(connectionString))
      requires !IsNullOrWhiteSpace(Some(agentId))
      requires !IsNullOrWhiteSpace(Some(threadId))
      ensures this.agentId == agentId && this.threadId == threadId
    {
      this.agentId := agentId;
      this.threadId := threadId;
    }

    /**
     * Send `prompt` on `threadId` (or the default thread) and return the
     * agent's reply. Polling has no bound: it ends because the status
     * stream eventually settles, which is the caller's obligation.
     */
    method GetResponse(prompt: string, threadId: Option<string>, remote: Remote)
      returns (reply: string, calls: seq<Call>)
      requires EventuallySettles(remote.polls)
      ensures Exchange(reply, calls) == Converse(this.agentId, this.threadId, prompt, threadId, remote)
    {
      var useThreadId := if threadId.Some? then threadId.value else this.threadId;
      calls := [CreateMessage(useThreadId, User, prompt)];
      if remote.postMessage.Some? {
        reply := ErrorTag + remote.postMessage.value.message;
        return;
      }
      calls := calls + [CreateRun(useThreadId, agentId)];
      if remote.createRun.Err? {
        reply := ErrorTag + remote.createRun.error.message;
        return;
      }
      var runId := remote.createRun.value;

      // do { delay; fetch the run } while (status is Queued or InProgress)
      ghost var k := SettleIndex(remote.polls);
      var fetches := 0;
      var pending := true;
      while pending
        invariant fetches <= k + 1
        invariant pending <==> fetches < k + 1
        invariant !pending ==> remote.polls[k].Fetched?
        invariant calls == PollCalls(useThreadId, agentId, prompt, runId, fetches)
        decreases k + 1 - fetches
      {
        var poll := remote.polls[fetches];
        calls := calls + [GetRun(useThreadId, runId)];
        fetches := fetches + 1;
        assert calls == PollCalls(useThreadId, agentId, prompt, runId, fetches);
        if poll.FetchFailed? {
          assert fetches == k + 1;
          reply := ErrorTag + poll.ex.message;
          return;
        }
        pending := poll.status == Queued || poll.status == InProgress;
      }

      calls := calls + [GetMessages(useThreadId)];
      if remote.listMessages.Err? {
        reply := ErrorTag + remote.listMessages.error.message;
        return;
      }
      var messages := remote.listMessages.value;

      var response := "";
      var m := 0;
      while m < |messages|
        invariant 0 <= m <= |messages|
        invariant forall j :: 0 <= j < m ==> messages[j].role != Agent
        invariant response == ""
      {
        if messages[m].role == Agent {
          var items := messages[m].contentItems;
          var c := 0;
          while c < |items|
            invariant 0 <= c <= |items|
            invariant response == TextOf(items[..c])
          {
            if items[c].TextContent? {
              response := response + items[c].text;
            }
            TextOfAppend(items[..c], [items[c]]);
            assert items[..c + 1] == items[..c] + [items[c]];
            c := c + 1;
          }
          assert items[..c] == items;
          assert FirstAgentIndex(messages) == Some(m);
          reply := response;
          return;
        }
        m := m + 1;
      }
      reply := NoReplyError;
    }

    /** The id of a new thread, or the tagged cause and stack trace of the failure. */
    function CreateThread(created: Result<string, Exception>): (r: string)
      ensures created.Ok? ==> r == created.value
      ensures created.Err? ==>
        StartsWith(r, ErrorTag) &&
        r == ErrorTag + created.error.message + " | " + created.error.stackTrace
    {
      match created
      case Ok(id) => id
      case Err(ex) =>
        StartsWithConcat(ErrorTag, ex.message + " | " + ex.stackTrace);
        assert ErrorTag + ex.message + " | " + ex.stackTrace == ErrorTag + (ex.message + " | " + ex.stackTrace);
        ErrorTag + ex.message + " | " + ex.stackTrace
    }
  }

  // ---------------------------------------------------------------------
  // Polling

  /** How many run-status fetches a trace holds. */
  function RunFetches(calls: seq<Call>): nat
  {
    if calls == [] then 0
    else (if calls[0].GetRun? then 1 else 0) + RunFetches(calls[1..])
  }

  lemma {:induction false} RunFetchesAppend(a: seq<Call>, b: seq<Call>)
    ensures RunFetches(a + b) == RunFetches(a) + RunFetches(b)
    decreases |a|
  {
    if a == [] {
      assert a + b == b;
    } else {
      assert (a + b)[1..] == a[1..] + b;
      RunFetchesAppend(a[1..], b);
    }
  }

  lemma {:induction false} RunFetchesRepeated(t: string, runId: string, n: nat)
    ensures RunFetches(seq(n, _ => GetRun(t, runId))) == n
    decreases n
  {
    if n > 0 {
      var fetches := seq(n, _ => GetRun(t, runId));
      assert fetches[1..] == seq(n - 1, _ => GetRun(t, runId));
      RunFetchesRepeated(t, runId, n - 1);
    }
  }

  /**
   * Once the run is created, the status is fetched at least once and
   * exactly as many times as the 1-based position of the first fetch that
   * settles (the first non-pending status, or a fetch that throws).
   */
  lemma PollingFetchCount(agentId: string, defaultThread: string, prompt: string,
                          threadId: Option<string>, remote: Remote)
    requires EventuallySettles(remote.polls)
    requires remote.postMessage.None? && remote.createRun.Ok?
    ensures RunFetches(Converse(agentId, defaultThread, prompt, threadId, remote).calls)
            == SettleIndex(remote.polls) + 1
  {
    var t := EffectiveThread(threadId, defaultThread);
    var runId := remote.createRun.value;
    var n := SettleIndex(remote.polls) + 1;
    var head := [CreateMessage(t, User, prompt), CreateRun(t, agentId)];
    var fetches := seq(n, _ => GetRun(t, runId));
    RunFetchesAppend(head, fetches);
    RunFetchesRepeated(t, runId, n);
    assert RunFetches(head) == 0 by {
      assert head[1..][1..] == [];
    }
    RunFetchesAppend(head + fetches, [GetMessages(t)]);
    assert RunFetches([GetMessages(t)]) == 0 by {
      assert [GetMessages(t)][1..] == [];
    }
  }

  /** The run reports Queued, InProgress, InProgress, Completed: four fetches. */
  lemma FourFetchesUntilCompleted(agentId: string, defaultThread: string, prompt: string,
                                  threadId: Option<string>, remote: Remote)
    requires remote.postMessage.None? && remote.createRun.Ok?
    requires remote.polls == [Fetched(Queued), Fetched(InProgress), Fetched(InProgress), Fetched(Completed)]
    ensures EventuallySettles(remote.polls)
    ensures RunFetches(Converse(agentId, defaultThread, prompt, threadId, remote).calls) == 4
  {
    assert Settles(remote.polls[3]);
    var k := SettleIndex(remote.polls);
    assert !Settles(remote.polls[0]) && !Settles(remote.polls[1]) && !Settles(remote.polls[2]);
    assert k == 3;
    PollingFetchCount(agentId, defaultThread, prompt, threadId, remote);
  }

  /** Replacing the fetch that ends polling by another that settles keeps the end of polling. */
  lemma {:induction false} SettleIndexReplaced(polls: seq<Poll>, p: Poll)
    requires EventuallySettles(polls) && Settles(p)
    ensures var k := SettleIndex(polls);
      EventuallySettles(polls[k := p]) && SettleIndex(polls[k := p]) == k
    decreases |polls|
  {
    var k := SettleIndex(polls);
    var q := polls[k := p];
    assert Settles(q[k]);
    if k > 0 {
      assert !Settles(polls[0]) && q[1..] == polls[1..][k - 1 := p];
      SettleIndexReplaced(polls[1..], p);
    }
  }

  /**
   * A run that ends Failed, Cancelled, Expired or in any other
   * non-pending state ends polling exactly where Completed would, and the
   * messages are listed and read just the same: the session does not tell
   * a failed run from a completed one.
   */
  lemma AnySettledStatusActsAsCompleted(agentId: string, defaultThread: string, prompt: string,
                                        threadId: Option<string>, remote: Remote, s: RunStatus)
    requires EventuallySettles(remote.polls) && !Pending(s)
    requires remote.polls[SettleIndex(remote.polls)].Fetched?
    ensures var k := SettleIndex(remote.polls);
      var ended := remote.(polls := remote.polls[k := Fetched(s)]);
      var completed := remote.(polls := remote.polls[k := Fetched(Completed)]);
      EventuallySettles(ended.polls) && EventuallySettles(completed.polls) &&
      Converse(agentId, defaultThread, prompt, threadId, ended)
        == Converse(agentId, defaultThread, prompt, threadId, completed)
  {
    SettleIndexReplaced(remote.polls, Fetched(s));
    SettleIndexReplaced(remote.polls, Fetched(Completed));
  }

  /**
   * When the message is posted, the run created and the run settles with a
   * status (not a failed fetch), the messages are listed last and, if the
   * listing succeeds, the reply is read from them.
   */
  lemma SettledRunIsRead(agentId: string, defaultThread: string, prompt: string,
                         threadId: Option<string>, remote: Remote)
    requires EventuallySettles(remote.polls)
    requires remote.postMessage.None? && remote.createRun.Ok?
    requires remote.polls[SettleIndex(remote.polls)].Fetched?
    ensures var e := Converse(agentId, defaultThread, prompt, threadId, remote);
      |e.calls| == SettleIndex(remote.polls) + 4 &&
      e.calls[|e.calls| - 1] == GetMessages(EffectiveThread(threadId, defaultThread)) &&
      (remote.listMessages.Ok? ==> e.reply == ReplyText(remote.listMessages.value)) &&
      (remote.listMessages.Err? ==> e.reply == Tagged(remote.listMessages.error.message))
  {
  }

  // ---------------------------------------------------------------------
  // Reading the reply

  /**
   * The reply is the text of the first agent message; whatever follows it,
   * later agent messages included, is ignored.
   */
  lemma FirstAgentMessageWins(before: seq<ThreadMessage>, reply: ThreadMessage, after: seq<ThreadMessage>)
    requires forall j :: 0 <= j < |before| ==> before[j].role != Agent
    requires reply.role == Agent
    ensures ReplyText(before + [reply] + after) == TextOf(reply.contentItems)
  {
    var messages := before + [reply] + after;
    assert messages[|before|] == reply;
    assert forall j :: 0 <= j < |before| ==> messages[j] == before[j];
    var r := FirstAgentIndex(messages);
    assert r.Some?;
    assert r.value == |before|;
  }

  /** Messages [agent "hi"], [user "hello"] in service order: the reply is "hi". */
  lemma FirstInServiceOrder()
    ensures ReplyText([ThreadMessage(Agent, [TextContent("hi")]), ThreadMessage(User, [TextContent("hello")])]) == "hi"
  {
  }

  /** A first agent message without text items gives "", not the no-reply error. */
  lemma TextlessAgentMessageGivesEmpty(before: seq<ThreadMessage>, reply: ThreadMessage, after: seq<ThreadMessage>)
    requires forall j :: 0 <= j < |before| ==> before[j].role != Agent
    requires reply.role == Agent
    requires forall i :: 0 <= i < |reply.contentItems| ==> !reply.contentItems[i].TextContent?
    ensures ReplyText(before + [reply] + after) == ""
  {
    FirstAgentMessageWins(before, reply, after);
    TextOfNoText(reply.contentItems);
  }

  /** No agent message at all: the reply is exactly the no-reply error. */
  lemma NoAgentMessageGivesNoReply(messages: seq<ThreadMessage>)
    requires forall i :: 0 <= i < |messages| ==> messages[i].role != Agent
    ensures ReplyText(messages) == NoReplyError
  {
  }

  // ---------------------------------------------------------------------
  // Error tagging

  /**
   * A reply without the "[Error]:" marker comes from a fully successful
   * round trip: message posted, run created, run settled with a status,
   * messages listed, and an agent message found whose text is the reply.
   */
  lemma UnmarkedReplyIsAgentText(agentId: string, defaultThread: string, prompt: string,
                                 threadId: Option<string>, remote: Remote)
    requires EventuallySettles(remote.polls)
    requires !StartsWith(Converse(agentId, defaultThread, prompt, threadId, remote).reply, "[Error]:")
    ensures remote.postMessage.None? && remote.createRun.Ok?
    ensures remote.polls[SettleIndex(remote.polls)].Fetched? && remote.listMessages.Ok?
    ensures FirstAgentReply(remote.listMessages.value)
            == Some(Converse(agentId, defaultThread, prompt, threadId, remote).reply)
  {
  }
}
