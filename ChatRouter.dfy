/**
  The chat endpoints of the service (backend/routers/chat.py): `POST /chat`,
  which answers a query on a thread, and the four conversation endpoints,
  with the mapping of their failures to HTTP errors.

  The retrieval results (`matches`), the random hex digits of a new thread id
  (`uuidHex`), the title the agent would generate (`generatedTitle`) and the
  agent's own outcomes (see `AgentService`) are inputs. A missing agent is
  `null`.
 */
module ChatRouter {
  import opened Wrappers
  import opened ChatTypes
  import opened AgentService
  import MessageList
  import Sorting

  const NoMatchAnswer := "I couldn't find any information about that in the knowledge base."
  const NotInitialized := "Agent not initialized"

  /** `QueryResponse`. */
  datatype QueryResponse = QueryResponse(
    answer: string, threadId: string, conversationTitle: Option<string>,
    sources: seq<Source>, confidenceScores: seq<real>)

  /** An `HTTPException`: a status code and its detail text. */
  datatype HttpError = HttpError(status: int, detail: string)

  // ---------------------------------------------------------------------------
  // Source de-duplication

  /** The source names of a list of matches. */
  function Names(ms: seq<Match>): set<string> {
    set i | 0 <= i < |ms| :: ms[i].source
  }

  /** The first match of each source name, in the order of the used matches. */
  function Kept(used: seq<Match>): (kept: seq<Match>)
    ensures forall m :: m in kept ==> m in used
  {
    if used == [] then []
    else
      var init := Kept(used[..|used| - 1]);
      var m := used[|used| - 1];
      if m.source in Names(init) then init else init + [m]
  }

  /** The scores of a list of matches, position by position. */
  function ScoresOf(ms: seq<Match>): (scores: seq<real>)
    ensures |scores| == |ms|
    ensures forall i :: 0 <= i < |ms| ==> scores[i] == ms[i].score
  {
    if ms == [] then [] else ScoresOf(ms[..|ms| - 1]) + [ms[|ms| - 1].score]
  }

  lemma NamesSnoc(ms: seq<Match>, m: Match)
    ensures Names(ms + [m]) == Names(ms) + {m.source}
  {
    var t := ms + [m];
    assert forall i :: 0 <= i < |ms| ==> t[i] == ms[i];
    assert t[|ms|] == m;
  }

  /** The `seen_sources` loop: citations and scores of the kept matches, built side by side. */
  method DedupSources(used: seq<Match>) returns (sources: seq<Source>, scores: seq<real>)
    ensures sources == SourcesInfo(Kept(used))
    ensures scores == ScoresOf(Kept(used))
  {
    sources := [];
    scores := [];
    var seen: set<string> := {};
    for k := 0 to |used|
      invariant seen == Names(Kept(used[..k]))
      invariant sources == SourcesInfo(Kept(used[..k]))
      invariant scores == ScoresOf(Kept(used[..k]))
    {
      var m := used[k];
      assert used[..k + 1][..k] == used[..k] && used[..k + 1][k] == m;
      if m.source !in seen {
        NamesSnoc(Kept(used[..k]), m);
        sources := sources + [SourceInfo(m)];
        scores := scores + [m.score];
        seen := seen + {m.source};
      }
    }
    assert used[..|used|] == used;
  }

  /** Citing matches keeps their source names. */
  lemma CitedNames(ms: seq<Match>)
    ensures MessageList.Keys(SourcesInfo(ms)) == Names(ms)
    ensures forall key :: MessageList.Find(SourcesInfo(ms), key).None? <==> key !in Names(ms)
  {
    var cited := SourcesInfo(ms);
    assert forall i :: 0 <= i < |ms| ==> cited[i].source == ms[i].source;
  }

  lemma SourcesInfoSnoc(ms: seq<Match>, m: Match)
    ensures SourcesInfo(ms + [m]) == SourcesInfo(ms) + [SourceInfo(m)]
  {
    assert (ms + [m])[..|ms|] == ms;
  }

  /**
    The router's de-duplication is the message list's: citing the kept
    matches gives what the client's footer makes of the citations of all
    used matches.
   */
  lemma {:induction false} KeptIsUniqueSources(used: seq<Match>)
    ensures SourcesInfo(Kept(used)) == MessageList.UniqueSources(SourcesInfo(used))
  {
    if used != [] {
      var init := used[..|used| - 1];
      var m := used[|used| - 1];
      KeptIsUniqueSources(init);
      var k := Kept(init);
      assert SourcesInfo(used)[..|used| - 1] == SourcesInfo(init);
      assert SourcesInfo(used)[|used| - 1] == SourceInfo(m);
      CitedNames(k);
      SourcesInfoSnoc(k, m);
    }
  }

  /**
    The returned citations name pairwise distinct sources, the first match of
    each source wins, and together they name every source of the used
    matches.
   */
  lemma RouterSourcesDistinct(used: seq<Match>)
    ensures MessageList.DistinctKeys(SourcesInfo(Kept(used)))
    ensures MessageList.Keys(SourcesInfo(Kept(used))) == MessageList.Keys(SourcesInfo(used))
    ensures forall x :: x in SourcesInfo(Kept(used)) <==>
      exists i :: MessageList.IsFirstOccurrence(SourcesInfo(used), i) && SourcesInfo(used)[i] == x
  {
    KeptIsUniqueSources(used);
    MessageList.UniqueSourcesDistinct(SourcesInfo(used));
    MessageList.UniqueSourcesKeys(SourcesInfo(used));
    MessageList.UniqueSourcesFirstOccurrences(SourcesInfo(used));
  }

  /** Citation `i` and score `i` come from one and the same used match. */
  lemma RouterSourcesPaired(used: seq<Match>)
    ensures |SourcesInfo(Kept(used))| == |ScoresOf(Kept(used))|
    ensures forall i :: 0 <= i < |Kept(used)| ==>
      exists j :: 0 <= j < |used| && SourcesInfo(Kept(used))[i] == SourceInfo(used[j])
                                  && ScoresOf(Kept(used))[i] == used[j].score
  {
    var k := Kept(used);
    forall i | 0 <= i < |k|
      ensures exists j :: 0 <= j < |used| && SourcesInfo(k)[i] == SourceInfo(used[j]) && ScoresOf(k)[i] == used[j].score
    {
      assert k[i] in used;
      var j :| 0 <= j < |used| && used[j] == k[i];
    }
  }

  /**
    A thread reloaded from the store shows, under its answer, the citations
    the live reply carried: the stored message cites every used match, and
    the footer's de-duplication of those is the router's list, which itself
    passes through the footer unchanged.
   */
  lemma HistoryFooterMatchesReply(used: seq<Match>)
    ensures MessageList.UniqueSources(SourcesInfo(used)) == SourcesInfo(Kept(used))
    ensures MessageList.UniqueSources(SourcesInfo(Kept(used))) == SourcesInfo(Kept(used))
  {
    KeptIsUniqueSources(used);
    MessageList.UniqueSourcesIdempotent(SourcesInfo(used));
  }

  // ---------------------------------------------------------------------------
  // `POST /chat`

  /** The id of a thread opened without matches: "thread_" and 16 hex digits of a fresh uuid. */
  function NoMatchThreadId(uuidHex: string): (id: string)
    requires |uuidHex| == 32
    ensures |id| == 23 && id[..7] == "thread_" && id[7..] == uuidHex[..16]
  {
    "thread_" + uuidHex[..16]
  }

  /** The title returned with an answer: the generated one when the stored one is empty. */
  function TitleFor(stored: Option<string>, generatedTitle: string): (title: string)
    ensures Truthy(stored) ==> title == stored.value
    ensures !Truthy(stored) ==> title == generatedTitle
  {
    if !Truthy(stored) then generatedTitle else DisplayTitle(stored)
  }

  /** The store after the title step: a thread without a title gets the generated one. */
  function Titled(conversations: map<string, Conversation>, tid: string, generatedTitle: string, now: Time)
    : map<string, Conversation>
    requires tid in conversations
  {
    if Truthy(conversations[tid].title) then conversations
    else conversations[tid := conversations[tid].(title := Some(generatedTitle), updatedAt := now)]
  }

  /**
    A stored title is never replaced, the title returned is the one stored
    afterwards, and a nonempty generated title is generated only once.
   */
  lemma TitledOnce(conversations: map<string, Conversation>, tid: string, generatedTitle: string, later: string,
                   now: Time, now': Time)
    requires tid in conversations
    ensures Truthy(conversations[tid].title) ==> Titled(conversations, tid, generatedTitle, now) == conversations
    ensures Titled(conversations, tid, generatedTitle, now)[tid].title
              == Some(TitleFor(conversations[tid].title, generatedTitle))
    ensures generatedTitle != "" ==>
      var once := Titled(conversations, tid, generatedTitle, now);
      Titled(once, tid, later, now') == once
  {
  }

  /**
    `chat_with_knowledge_base`. Without matches, the fixed answer comes back
    on the given thread id, or on a new, empty thread stored under a fresh
    id. With matches, the agent answers; a thread without a title gets the
    generated one; the citations are those of the first match of each
    source, with their scores alongside. Every failure becomes a 500.
   */
  method ChatWithKnowledgeBase(agent: Agent?, query: string, threadId: Option<string>, matches: seq<Match>,
                               uuidHex: string, freshId: string, create: nat -> Attempt, status: string,
                               listing: seq<ThreadMessage>, parse: string -> Parsed, generatedTitle: string,
                               now: Time)
    returns (r: Result<QueryResponse, HttpError>)
    requires |uuidHex| == 32
    requires agent != null ==> agent.Valid()
    modifies agent
    ensures agent != null ==> agent.Valid()
    ensures agent == null ==> r == Err(HttpError(500, "Chat failed: " + NotInitialized))
    ensures agent != null && matches == [] ==>
      && r.Ok? && r.value.answer == NoMatchAnswer && r.value.conversationTitle == Some("New Conversation")
      && r.value.sources == [] && r.value.confidenceScores == []
      && (Truthy(threadId) ==> r.value.threadId == threadId.value && agent.conversations == old(agent.conversations))
      && (!Truthy(threadId) ==>
            var id := NoMatchThreadId(uuidHex);
            r.value.threadId == id && agent.conversations == old(agent.conversations)[id := NewConversation(id, now)])
    ensures agent != null && matches != [] ==>
      var tid := ThreadFor(old(agent.conversations), threadId, freshId);
      var turn := TurnOf(matches, create, status, listing, parse);
      var after := AfterTurn(old(agent.conversations), threadId, freshId, query, turn, now);
      && (turn.Err? ==> r == Err(HttpError(500, "Chat failed: " + turn.error)) && agent.conversations == after)
      && (turn.Ok? ==>
            && r == Ok(QueryResponse(turn.value.answer, tid, Some(TitleFor(after[tid].title, generatedTitle)),
                                     SourcesInfo(Kept(turn.value.used)), ScoresOf(Kept(turn.value.used))))
            && agent.conversations == Titled(after, tid, generatedTitle, now))
  {
    if agent == null {
      return Err(HttpError(500, "Chat failed: " + NotInitialized));
    }
    if matches == [] {
      var tid: string;
      if Truthy(threadId) {
        tid := threadId.value;
      } else {
        tid := NoMatchThreadId(uuidHex);
        agent.Store(tid, NewConversation(tid, now));
      }
      return Ok(QueryResponse(NoMatchAnswer, tid, Some("New Conversation"), [], []));
    }
    var answer := agent.GenerateAnswer(query, matches, threadId, freshId, create, status, listing, parse, now);
    if answer.Err? {
      return Err(HttpError(500, "Chat failed: " + answer.error));
    }
    var tid := answer.value.1;
    var conversationTitle := "New Conversation";
    if tid in agent.conversations {
      if !Truthy(agent.conversations[tid].title) {
        conversationTitle := generatedTitle;
        var _ := agent.UpdateConversationTitle(tid, conversationTitle, now);
      } else {
        conversationTitle := DisplayTitle(agent.conversations[tid].title);
      }
    }
    var sources, scores := DedupSources(answer.value.2);
    r := Ok(QueryResponse(answer.value.0, tid, Some(conversationTitle), sources, scores));
  }

  // ---------------------------------------------------------------------------
  // Conversation endpoints

  /** `GET /conversations`: every stored thread, newest update first. */
  method GetAllConversations(agent: Agent?) returns (r: Result<seq<ConversationSummary>, HttpError>)
    requires agent != null ==> agent.Valid()
    ensures agent == null ==> r == Err(HttpError(500, "Failed to get conversations: " + NotInitialized))
    ensures agent != null ==>
      && r.Ok? && |r.value| == |agent.order|
      && (forall id :: id in agent.conversations ==> SummaryOf(agent.conversations[id]) in r.value)
      && Sorting.SortedDesc(r.value, (s: ConversationSummary) => s.updatedAt)
  {
    if agent == null {
      return Err(HttpError(500, "Failed to get conversations: " + NotInitialized));
    }
    var list := agent.GetConversations();
    r := Ok(list);
  }

  /** `GET /conversations/{thread_id}`: the thread, or 404 when it is not stored. */
  method GetConversation(agent: Agent?, tid: string) returns (r: Result<ConversationView, HttpError>)
    requires agent != null ==> agent.Valid()
    ensures agent == null ==> r == Err(HttpError(500, "Failed to get conversation: " + NotInitialized))
    ensures agent != null && tid !in agent.conversations ==> r == Err(HttpError(404, "Conversation not found: " + tid))
    ensures agent != null && tid in agent.conversations ==> r == Ok(ViewOf(agent.conversations[tid]))
  {
    if agent == null {
      return Err(HttpError(500, "Failed to get conversation: " + NotInitialized));
    }
    var conversation := agent.GetConversation(tid);
    if conversation.None? {
      return Err(HttpError(404, "Conversation not found: " + tid));
    }
    r := Ok(conversation.value);
  }

  /** `DELETE /conversations/{thread_id}`: 404 and no change when the thread is not stored. */
  method DeleteConversation(agent: Agent?, tid: string) returns (r: Result<string, HttpError>)
    requires agent != null ==> agent.Valid()
    modifies agent
    ensures agent != null ==> agent.Valid()
    ensures agent == null ==> r == Err(HttpError(500, "Failed to delete conversation: " + NotInitialized))
    ensures agent != null ==> agent.conversations == old(agent.conversations) - {tid}
    ensures agent != null && tid !in old(agent.conversations) ==> r == Err(HttpError(404, "Conversation not found: " + tid))
    ensures agent != null && tid in old(agent.conversations) ==> r == Ok("Conversation " + tid + " deleted successfully")
  {
    if agent == null {
      return Err(HttpError(500, "Failed to delete conversation: " + NotInitialized));
    }
    var success := agent.DeleteConversation(tid);
    if !success {
      return Err(HttpError(404, "Conversation not found: " + tid));
    }
    r := Ok("Conversation " + tid + " deleted successfully");
  }

  /** `PUT /conversations/{thread_id}/title`: 404 and no change when the thread is not stored. */
  method UpdateConversationTitle(agent: Agent?, tid: string, title: string, now: Time)
    returns (r: Result<(string, string, string), HttpError>)
    requires agent != null ==> agent.Valid()
    modifies agent
    ensures agent != null ==> agent.Valid()
    ensures agent == null ==> r == Err(HttpError(500, "Failed to update conversation title: " + NotInitialized))
    ensures agent != null && tid !in old(agent.conversations) ==>
      r == Err(HttpError(404, "Conversation not found: " + tid)) && agent.conversations == old(agent.conversations)
    ensures agent != null && tid in old(agent.conversations) ==>
      && r == Ok(("Conversation title updated successfully", tid, title))
      && agent.conversations == old(agent.conversations)[tid := old(agent.conversations)[tid].(title := Some(title), updatedAt := now)]
  {
    if agent == null {
      return Err(HttpError(500, "Failed to update conversation title: " + NotInitialized));
    }
    var success := agent.UpdateConversationTitle(tid, title, now);
    if !success {
      return Err(HttpError(404, "Conversation not found: " + tid));
    }
    r := Ok(("Conversation title updated successfully", tid, title));
  }
}
