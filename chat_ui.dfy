/**
 * The browser chat component (ai-chat-ui/src/ChatUI.jsx): on mount it
 * acquires a conversation thread id, retrying thread creation a bounded
 * number of times; on send it shows the user's message and resends it
 * until the backend's reply differs from the last assistant message shown,
 * within a bounded wait.
 *
 * The component's React state and the browser's local storage entry for
 * the thread id are the fields of `Component`. Server replies are oracle
 * sequences indexed by request number; delays are counted, not slept.
 */
module ChatUI {
  import opened Text
  import App

  const MaxRetries: nat := 10
  const PollInterval: nat := 50   // ms between resends
  const MaxWait: nat := 5000      // ms budget of the dedup loop
  const MaxSends: nat := 100      // MaxWait / PollInterval

  datatype Role = UserRole | AssistantRole
  /** A displayed message; its display timestamp is not modelled. */
  datatype UiMessage = UiMessage(role: Role, content: string)

  // ---------------------------------------------------------------------
  // Thread acquisition

  /**
   * What one thread-creation request gives the loop: the `threadId` field
   * of the JSON body (None when it is absent or not a string, as in the
   * body of a 500), or a throw from `fetch` or `resp.json()`.
   */
  datatype ThreadReply = Issued(threadId: Option<string>) | Rejected

  /** A reply after which the loop does not ask again. */
  predicate Stops(r: ThreadReply)
  {
    r.Rejected? || App.IsValidThreadId(r.threadId)
  }

  /** How thread acquisition ends, and after how many creation requests. */
  datatype Acquisition =
    | Cached(threadId: string)                 // the stored id was valid: no request
    | Acquired(requests: nat, threadId: string)
    | GaveUp(requests: nat)                    // every request gave an invalid id
    | Aborted(requests: nat)                   // a request threw

  function Requests(a: Acquisition): nat
  {
    if a.Cached? then 0 else a.requests
  }

  /** Acquisition from request number `i` on, none of the earlier ones having stopped it. */
  function AcquireFrom(replies: seq<ThreadReply>, i: nat): (a: Acquisition)
    requires i <= MaxRetries <= |replies|
    ensures !a.Cached? && i <= Requests(a) <= MaxRetries
    ensures a.GaveUp? ==>
      a.requests == MaxRetries && forall j :: i <= j < MaxRetries ==> !Stops(replies[j])
    ensures !a.GaveUp? ==>
      i < Requests(a) && Stops(replies[Requests(a) - 1]) &&
      forall j :: i <= j < Requests(a) - 1 ==> !Stops(replies[j])
    ensures a.Acquired? ==> replies[a.requests - 1] == Issued(Some(a.threadId))
    ensures a.Aborted? ==> replies[a.requests - 1] == Rejected
    decreases MaxRetries - i
  {
    if i == MaxRetries then GaveUp(MaxRetries)
    else match replies[i]
      case Rejected => Aborted(i + 1)
      case Issued(tid) =>
        if App.IsValidThreadId(tid) then Acquired(i + 1, tid.value) else AcquireFrom(replies, i + 1)
  }

  /** Thread acquisition from the stored id and the server's replies. */
  function Acquire(stored: Option<string>, replies: seq<ThreadReply>): Acquisition
    requires MaxRetries <= |replies|
  {
    if App.IsValidThreadId(stored) then Cached(stored.value) else AcquireFrom(replies, 0)
  }

  /** Acquisition gives up exactly when the stored id and all ten replies are invalid ids. */
  lemma GivesUpIffTenInvalidReplies(stored: Option<string>, replies: seq<ThreadReply>)
    requires MaxRetries <= |replies|
    ensures Acquire(stored, replies).GaveUp? <==>
      !App.IsValidThreadId(stored) && forall j :: 0 <= j < MaxRetries ==> !Stops(replies[j])
  {
  }

  /** JavaScript truthiness of the held thread id: present and not the empty string. */
  predicate Truthy(threadId: Option<string>)
  {
    threadId.Some? && threadId.value != ""
  }

  // ---------------------------------------------------------------------
  // Sending

  /** Position of the most recent assistant message, if any. */
  function LastAssistantIndex(messages: seq<UiMessage>): (r: Option<nat>)
    ensures r.None? <==> forall i :: 0 <= i < |messages| ==> messages[i].role != AssistantRole
    ensures r.Some? ==>
      r.value < |messages| && messages[r.value].role == AssistantRole &&
      (forall j :: r.value < j < |messages| ==> messages[j].role != AssistantRole)
    decreases |messages|
  {
    if messages == [] then None
    else if messages[|messages| - 1].role == AssistantRole then Some(|messages| - 1)
    else LastAssistantIndex(messages[..|messages| - 1])
  }

  /** The content of the most recent assistant message, if any. */
  function LastAssistant(messages: seq<UiMessage>): Option<string>
  {
    match LastAssistantIndex(messages)
    case Some(i) => Some(messages[i].content)
    case None => None
  }

  /** Appending the user's own message does not change the last assistant message. */
  lemma UserMessageKeepsLastAssistant(messages: seq<UiMessage>, input: string)
    ensures LastAssistant(messages + [UiMessage(UserRole, input)]) == LastAssistant(messages)
  {
  }

  /** A response is taken when there is no assistant message yet or it differs from the last one. */
  predicate Accepts(last: Option<string>, response: string)
  {
    last.None? || response != last.value
  }

  /** How the dedup loop ends, and after how many sends. */
  datatype DedupEnd =
    | Accepted(sends: nat, text: string)
    | Exhausted(sends: nat)
    | Threw(sends: nat, error: string)

  /** What send number `j` gives: App's sendMessage on the j-th response. */
  function SendOutcome(input: string, threadId: Option<string>, responses: seq<App.FetchResult>, j: nat): Result<string, string>
    requires j < |responses|
  {
    App.SendMessage(input, threadId, responses[j]).outcome
  }

  /** The dedup loop from send number `i` on. */
  function DedupFrom(last: Option<string>, input: string, threadId: Option<string>,
                     responses: seq<App.FetchResult>, i: nat): (d: DedupEnd)
    requires i <= MaxSends <= |responses|
    ensures i <= d.sends <= MaxSends
    ensures d.Exhausted? ==>
      d.sends == MaxSends &&
      forall j :: i <= j < MaxSends ==>
        last.Some? && App.SendMessage(input, threadId, responses[j]).outcome == Ok(last.value)
    ensures !d.Exhausted? ==>
      i < d.sends &&
      forall j :: i <= j < d.sends - 1 ==>
        last.Some? && App.SendMessage(input, threadId, responses[j]).outcome == Ok(last.value)
    ensures d.Accepted? ==>
      SendOutcome(input, threadId, responses, d.sends - 1) == Ok(d.text) && Accepts(last, d.text)
    ensures d.Threw? ==> SendOutcome(input, threadId, responses, d.sends - 1) == Err(d.error)
    decreases MaxSends - i
  {
    if i == MaxSends then Exhausted(MaxSends)
    else match SendOutcome(input, threadId, responses, i)
      case Err(e) => Threw(i + 1, e)
      case Ok(response) =>
        if Accepts(last, response) then Accepted(i + 1, response)
        else DedupFrom(last, input, threadId, responses, i + 1)
  }

  function Dedup(last: Option<string>, input: string, threadId: Option<string>,
                 responses: seq<App.FetchResult>): DedupEnd
    requires MaxSends <= |responses|
  {
    DedupFrom(last, input, threadId, responses, 0)
  }

  /**
   * A reply identical to the last assistant message on every one of the
   * 100 sends exhausts the budget; anything else ends it earlier.
   */
  lemma ExhaustedIffAllRepeat(last: Option<string>, input: string, threadId: Option<string>,
                              responses: seq<App.FetchResult>)
    requires MaxSends <= |responses|
    ensures Dedup(last, input, threadId, responses).Exhausted? <==>
      last.Some? &&
      forall j :: 0 <= j < MaxSends ==> App.SendMessage(input, threadId, responses[j]).outcome == Ok(last.value)
  {
  }

  /** With no assistant message shown yet, the first returned reply is taken. */
  lemma NoPriorReplyTakesFirst(input: string, threadId: Option<string>, responses: seq<App.FetchResult>)
    requires MaxSends <= |responses|
    requires SendOutcome(input, threadId, responses, 0).Ok?
    ensures Dedup(None, input, threadId, responses)
            == Accepted(1, SendOutcome(input, threadId, responses, 0).value)
  {
  }

  /** handleSend's guard: a non-blank input, no send in flight, and a thread id held. */
  predicate CanSend(input: string, loading: bool, threadId: Option<string>)
  {
    JsTrim(input) != "" && !loading && Truthy(threadId)
  }

  /** The message list once a send's dedup loop has ended: only a non-empty accepted text is shown. */
  function AfterSend(asked: seq<UiMessage>, d: DedupEnd): seq<UiMessage>
  {
    if d.Accepted? && d.text != "" then asked + [UiMessage(AssistantRole, d.text)] else asked
  }

  class Component {
    var messages: seq<UiMessage>
    var input: string
    var loading: bool
    var threadId: Option<string>
    /** The browser's local storage entry "ai_thread_id". */
    var storedThreadId: Option<string>

    /** The component only ever holds a valid thread id. */
    ghost predicate Valid()
      reads this
    {
      threadId.None? || App.IsValidThreadId(threadId)
    }

    constructor(stored: Option<string>)
      ensures Valid()
      ensures messages == [] && input == "" && !loading && threadId.None? && storedThreadId == stored
    {
      messages, input, loading, threadId := [], "", false, None;
      storedThreadId := stored;
    }

    /**
     * Acquire a thread id (run once, when the component mounts).
     * `replies[n]` is what creation request number n gives. Returns how
     * many creation requests were made and whether the failure alert fired.
     */
    method GetThread(replies: seq<ThreadReply>) returns (requests: nat, alerted: bool)
      requires Valid() && MaxRetries <= |replies|
      modifies this
      ensures Valid()
      ensures messages == old(messages) && input == old(input) && loading == old(loading)
      ensures var a := Acquire(old(storedThreadId), replies);
        requests == Requests(a) && alerted == a.GaveUp? &&
        threadId == (match a
                     case Cached(t) => Some(t)
                     case Acquired(_, t) => Some(t)
                     case GaveUp(_) => None
                     case Aborted(_) => old(threadId)) &&
        storedThreadId == (if a.Acquired? then Some(a.threadId) else old(storedThreadId))
    {
      var tid := storedThreadId;
      var retries := 0;
      requests, alerted := 0, false;
      while !App.IsValidThreadId(tid) && retries < MaxRetries
        invariant retries <= MaxRetries && requests == retries
        invariant unchanged(this)
        invariant retries == 0 ==> tid == old(storedThreadId)
        invariant retries > 0 ==> !App.IsValidThreadId(tid) && !Stops(replies[retries - 1])
        invariant !App.IsValidThreadId(old(storedThreadId)) ==>
          AcquireFrom(replies, 0) == AcquireFrom(replies, retries)
      {
        var reply := replies[retries];
        requests := requests + 1;
        if reply.Rejected? {
          // fetch or resp.json() threw: getThread rejects, nothing is set
          return;
        }
        tid := reply.threadId;
        if App.IsValidThreadId(tid) {
          storedThreadId := tid;
          break;
        }
        retries := retries + 1;
        // a 300 ms pause before the next request
      }
      if !App.IsValidThreadId(tid) {
        threadId := None;
        alerted := true;
        return;
      }
      threadId := tid;
    }

    /**
     * Send the input. `responses[n]` is what `fetch` gives send number n.
     * Returns how many sends were made. When a send throws, loading is
     * reset and the error leaves handleSend; the model returns instead.
     */
    method HandleSend(responses: seq<App.FetchResult>) returns (sends: nat)
      requires Valid() && MaxSends <= |responses|
      modifies this
      ensures Valid()
      ensures threadId == old(threadId) && storedThreadId == old(storedThreadId)
      ensures !CanSend(old(input), old(loading), old(threadId)) ==>
        sends == 0 && messages == old(messages) && input == old(input) && loading == old(loading)
      ensures CanSend(old(input), old(loading), old(threadId)) ==>
        var asked := old(messages) + [UiMessage(UserRole, old(input))];
        var d := Dedup(LastAssistant(asked), old(input), old(threadId), responses);
        sends == d.sends && input == "" && !loading && messages == AfterSend(asked, d)
    {
      if JsTrim(input) == "" || loading || !Truthy(threadId) {
        return 0;
      }
      var currentInput := input;
      input := "";
      messages := messages + [UiMessage(UserRole, currentInput)];
      loading := true;

      var assistantText: Option<string> := None;
      var lastAssistant := LastAssistant(messages);
      var waited := 0;
      sends := 0;
      ghost var d := Dedup(lastAssistant, currentInput, threadId, responses);
      while waited < MaxWait
        invariant waited == sends * PollInterval && sends <= MaxSends
        invariant assistantText.None?
        invariant loading && threadId == old(threadId) && storedThreadId == old(storedThreadId)
        invariant input == "" && messages == old(messages) + [UiMessage(UserRole, currentInput)]
        invariant d == DedupFrom(lastAssistant, currentInput, threadId, responses, sends)
      {
        var sent := App.SendMessage(currentInput, threadId, responses[sends]);
        sends := sends + 1;
        if sent.outcome.Err? {
          loading := false;
          return;
        }
        var response := sent.outcome.value;
        if lastAssistant.None? || response != lastAssistant.value {
          assistantText := Some(response);
          break;
        }
        // a 50 ms pause before the next send
        waited := waited + PollInterval;
      }
      if assistantText.Some? && assistantText.value != "" {
        messages := messages + [UiMessage(AssistantRole, assistantText.value)];
      }
      loading := false;
    }
  }
}
