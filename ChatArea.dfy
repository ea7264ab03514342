/**
  The chat pane (Frontend/components/ChatArea.tsx): the visible message log of
  the selected thread, the input buffer, and the one-turn-at-a-time chat
  mutation `idle -> pending -> success | error` with its optimistic append and
  its merge of the finished turn into the query cache.

  The network is not modelled: the reply or the failure of `POST /chat` is
  handed to `OnSuccess` or `OnError`, and a finished detail fetch to the
  cache's `Put`. Each handler is one atomic step of the event loop.
 */
module ChatArea {
  import opened Wrappers
  import opened ChatTypes
  import Text
  import opened ConversationCache

  /** The chat mutation's state; `Pending` remembers the request it sent. */
  datatype MutationStatus = Idle | Pending(request: ChatRequest) | Succeeded | Failed

  /** `queryOverride || input`: a non-empty override wins, otherwise the input buffer. */
  function QueryToSend(queryOverride: Option<string>, input: string): (q: string)
    ensures Truthy(queryOverride) ==> q == queryOverride.value
    ensures !Truthy(queryOverride) ==> q == input
  {
    if Truthy(queryOverride) then queryOverride.value else input
  }

  /** `{ query, thread_id: activeThreadId || undefined }`. */
  function RequestFor(query: string, activeThreadId: Option<string>): (r: ChatRequest)
    ensures r.query == query
    ensures r.threadId.Some? <==> Truthy(activeThreadId)
    ensures r.threadId.Some? ==> r.threadId == activeThreadId
  {
    ChatRequest(query, if Truthy(activeThreadId) then activeThreadId else None)
  }

  /** The guard of `handleSend`: the query has a non-whitespace character and no turn is in flight. */
  predicate Dispatchable(query: string, status: MutationStatus) {
    !Text.IsBlank(Text.JavaScript, query) && !status.Pending?
  }

  /** `handleSend` refuses exactly the queries that `trim()` empties, and every query while a turn is in flight. */
  lemma DispatchableIffTrimmed(query: string, status: MutationStatus)
    ensures Dispatchable(query, status) <==> Text.Trim(Text.JavaScript, query) != [] && !status.Pending?
  {
    Text.TrimEmptyIffBlank(Text.JavaScript, query);
  }

  function UserMessage(query: string, now: Time): Message {
    Message(User, query, Some(now), None)
  }

  function AssistantMessage(data: ChatResponse, now: Time): Message {
    Message(Assistant, data.answer, Some(now), Some(data.sources))
  }

  class ChatArea {
    /** The query client shared with the sidebar. */
    const cache: QueryClient
    /** The `activeThreadId` prop; `None` is a draft. */
    var activeThreadId: Option<string>
    var input: string
    var localMessages: seq<Message>
    var status: MutationStatus
    /** The ids handed to `onThreadCreated`, in call order. */
    var threadsCreated: seq<string>
    /** Failure alerts shown. */
    var alerts: nat
    /** The dependencies `[conversationData, activeThreadId]` the sync effect last ran with. */
    var effectDeps: Option<(Option<ConversationDetail>, Option<string>)>

    constructor (cache: QueryClient, activeThreadId: Option<string>)
      ensures this.cache == cache && this.activeThreadId == activeThreadId
      ensures input == "" && localMessages == [] && status == Idle
      ensures threadsCreated == [] && alerts == 0 && effectDeps == None
      ensures ShowsHero() <==> !Truthy(activeThreadId)
    {
      this.cache := cache;
      this.activeThreadId := activeThreadId;
      input := "";
      localMessages := [];
      status := Idle;
      threadsCreated := [];
      alerts := 0;
      effectDeps := None;
    }

    /** `conversationData`: the cached detail under the active key, if any. */
    function ConversationData(): Option<ConversationDetail>
      reads this, cache
    {
      cache.Get(activeThreadId)
    }

    /** The hero replaces the message list for a draft with an empty log. */
    predicate ShowsHero()
      reads this
    {
      !Truthy(activeThreadId) && |localMessages| == 0
    }

    /** The page re-renders the pane with another selected thread. */
    method SetActiveThread(id: Option<string>)
      modifies this`activeThreadId
      ensures activeThreadId == id
    {
      activeThreadId := id;
    }

    /** The textarea's `onChange`. */
    method SetInput(text: string)
      modifies this`input
      ensures input == text
    {
      input := text;
    }

    /**
      `handleSend` with `mutate` and `onMutate`: when the query is dispatchable
      (its `trim()` is nonempty and nothing is pending, by
      `DispatchableIffTrimmed`), append exactly one user message to the log,
      clear the input and go pending; otherwise change nothing.
     */
    method HandleSend(queryOverride: Option<string>, now: Time) returns (sent: Option<ChatRequest>)
      modifies this`status, this`localMessages, this`input
      ensures var q := QueryToSend(queryOverride, old(input));
        if Dispatchable(q, old(status)) then
          && sent == Some(RequestFor(q, old(activeThreadId)))
          && localMessages == old(localMessages) + [UserMessage(q, now)]
          && input == ""
          && status == Pending(sent.value)
        else
          && sent == None
          && localMessages == old(localMessages)
          && input == old(input)
          && status == old(status)
      ensures activeThreadId == old(activeThreadId) && threadsCreated == old(threadsCreated)
      ensures alerts == old(alerts) && effectDeps == old(effectDeps)
      ensures sent.Some? ==> !ShowsHero()
      ensures sent.None? ==> ShowsHero() == old(ShowsHero())
    {
      var queryToSend := QueryToSend(queryOverride, input);
      if !Dispatchable(queryToSend, status) {
        return None;
      }
      var request := RequestFor(queryToSend, activeThreadId);
      status := Pending(request);
      localMessages := localMessages + [UserMessage(request.query, now)];
      input := "";
      sent := Some(request);
    }

    /**
      `onSuccess`: append the assistant message to whatever log is shown now,
      merge `[user, assistant]` into the cache under the reply's thread id,
      announce a promoted draft, and mark the thread list stale.
     */
    method OnSuccess(data: ChatResponse, now: Time)
      requires status.Pending?
      modifies this, cache
      ensures var userMsg := UserMessage(old(status).request.query, now);
        var aiMsg := AssistantMessage(data, now);
        && localMessages == old(localMessages) + [aiMsg]
        && cache.details == old(cache.details)[Some(data.threadId) := MergedDetail(old(cache.Get(Some(data.threadId))), userMsg, aiMsg)]
      ensures threadsCreated == old(threadsCreated) + (if !Truthy(old(activeThreadId)) && data.threadId != "" then [data.threadId] else [])
      ensures cache.listInvalidations == old(cache.listInvalidations) + 1
      ensures status == Succeeded && !ShowsHero()
      ensures activeThreadId == old(activeThreadId) && input == old(input)
      ensures alerts == old(alerts) && effectDeps == old(effectDeps)
    {
      var aiMsg := AssistantMessage(data, now);
      var userMsg := UserMessage(status.request.query, now);
      localMessages := localMessages + [aiMsg];
      cache.MergeTurn(Some(data.threadId), userMsg, aiMsg);
      if !Truthy(activeThreadId) && data.threadId != "" {
        threadsCreated := threadsCreated + [data.threadId];
      }
      cache.InvalidateList();
      status := Succeeded;
    }

    /** `onError`: alert the user; the optimistic user message stays in the log. */
    method OnError()
      requires status.Pending?
      modifies this
      ensures alerts == old(alerts) + 1 && status == Failed
      ensures localMessages == old(localMessages) && input == old(input)
      ensures activeThreadId == old(activeThreadId) && threadsCreated == old(threadsCreated)
      ensures effectDeps == old(effectDeps)
    {
      alerts := alerts + 1;
      status := Failed;
    }

    /**
      The sync effect, run after a render: when its dependencies changed, load
      the cached detail's messages into the log if there is one, empty the log
      for a draft, and otherwise leave the log as it is.
     */
    method SyncEffect()
      modifies this`localMessages, this`effectDeps
      ensures var deps := (old(ConversationData()), activeThreadId);
        if old(effectDeps) == Some(deps) then localMessages == old(localMessages)
        else
          && effectDeps == Some(deps)
          && localMessages == (if deps.0.Some? then deps.0.value.messages
                               else if !Truthy(activeThreadId) then []
                               else old(localMessages))
      ensures old(effectDeps) == Some((old(ConversationData()), activeThreadId)) ==> effectDeps == old(effectDeps)
    {
      var data := ConversationData();
      if effectDeps != Some((data, activeThreadId)) {
        effectDeps := Some((data, activeThreadId));
        if data.Some? {
          localMessages := data.value.messages;
        } else if !Truthy(activeThreadId) {
          localMessages := [];
        }
      }
    }
  }

  /**
    A draft sends "Hello" and the reply names thread "t1": the cache entry for
    "t1" is the "New Chat" pair, the draft is promoted, and selecting "t1"
    again reloads exactly those two messages from the cache.
   */
  method DraftTurnScenario(now: Time)
    returns (heroBefore: bool, heroAfterSend: bool, entry: Option<ConversationDetail>, promoted: seq<string>, reloaded: seq<Message>)
    ensures heroBefore && !heroAfterSend
    ensures entry == Some(ConversationDetail("New Chat", [UserMessage("Hello", now), Message(Assistant, "Hi", Some(now), Some([]))]))
    ensures promoted == ["t1"]
    ensures reloaded == entry.value.messages
  {
    var cache := new QueryClient();
    var pane := new ChatArea(cache, None);
    heroBefore := pane.ShowsHero();
    pane.SetInput("Hello");
    assert Dispatchable("Hello", Idle) by { assert !Text.IsSpace(Text.JavaScript, "Hello"[0]); }
    var sent := pane.HandleSend(None, now);
    heroAfterSend := pane.ShowsHero();
    assert pane.status == Pending(ChatRequest("Hello", None));
    pane.OnSuccess(ChatResponse("Hi", "t1", []), now);
    entry := cache.Get(Some("t1"));
    promoted := pane.threadsCreated;
    pane.SetActiveThread(Some("t1"));
    assert pane.ConversationData() == entry;
    pane.SyncEffect();
    reloaded := pane.localMessages;
  }

  /**
    No stale-completion guard: a draft sends "q", the user opens thread "t2"
    and its detail loads before the reply arrives; the reply, which belongs to
    another thread, is then appended to t2's log.
   */
  method StaleCompletionScenario(now: Time, t2Detail: ConversationDetail) returns (log: seq<Message>)
    ensures log == t2Detail.messages + [Message(Assistant, "a", Some(now), Some([]))]
  {
    var cache := new QueryClient();
    var pane := new ChatArea(cache, None);
    assert Dispatchable("q", Idle) by { assert !Text.IsSpace(Text.JavaScript, "q"[0]); }
    var sent := pane.HandleSend(Some("q"), now);
    assert pane.status == Pending(ChatRequest("q", None));
    pane.SetActiveThread(Some("t2"));
    cache.Put(Some("t2"), t2Detail);
    assert pane.ConversationData() == Some(t2Detail);
    pane.SyncEffect();
    assert pane.localMessages == t2Detail.messages && pane.status.Pending?;
    pane.OnSuccess(ChatResponse("a", "t1", []), now);
    log := pane.localMessages;
  }

  /**
    A failed turn keeps the optimistic message and leaves the pane free to
    dispatch again.
   */
  method FailedTurnScenario(now: Time) returns (log: seq<Message>, retried: Option<ChatRequest>)
    ensures log == [UserMessage("q", now)]
    ensures retried == Some(ChatRequest("q", None))
  {
    var cache := new QueryClient();
    var pane := new ChatArea(cache, None);
    assert Dispatchable("q", Idle) by { assert !Text.IsSpace(Text.JavaScript, "q"[0]); }
    var sent := pane.HandleSend(Some("q"), now);
    assert pane.status.Pending? && pane.localMessages == [UserMessage("q", now)];
    pane.OnError();
    log := pane.localMessages;
    assert Dispatchable("q", Failed) by { assert !Text.IsSpace(Text.JavaScript, "q"[0]); }
    retried := pane.HandleSend(Some("q"), now);
  }
}
