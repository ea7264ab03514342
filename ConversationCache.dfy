/**
  The client's query cache as the chat components use it: one conversation
  detail per `['conversation', threadId]` key, and the `['conversations']`
  list, of which only its invalidations are observable here.
 */
module ConversationCache {
  import opened Wrappers
  import opened ChatTypes

  /**
    The `setQueryData` updater of ChatArea.tsx:64-75: without an entry it makes
    a "New Chat" detail holding the pair; with one it keeps the title and the
    earlier messages and appends the pair after them.
   */
  function MergedDetail(prior: Option<ConversationDetail>, userMsg: Message, aiMsg: Message): (r: ConversationDetail)
    ensures r.title == (if prior.Some? then prior.value.title else "New Chat")
    ensures var before := if prior.Some? then prior.value.messages else [];
      |r.messages| == |before| + 2 && r.messages[..|before|] == before
      && r.messages[|before|] == userMsg && r.messages[|before| + 1] == aiMsg
  {
    match prior
    case None => ConversationDetail("New Chat", [userMsg, aiMsg])
    case Some(d) => d.(messages := d.messages + [userMsg, aiMsg])
  }

  /** Merging turn after turn keeps every earlier turn, in order, ahead of the new one. */
  lemma MergedDetailTwice(prior: Option<ConversationDetail>, u1: Message, a1: Message, u2: Message, a2: Message)
    ensures var before := if prior.Some? then prior.value.messages else [];
      MergedDetail(Some(MergedDetail(prior, u1, a1)), u2, a2).messages == before + [u1, a1, u2, a2]
  {
  }

  class QueryClient {
    /** Cached details, keyed by the thread id of the query key (`null` is `None`). */
    var details: map<Option<string>, ConversationDetail>
    /** How many times the thread list has been marked stale. */
    var listInvalidations: nat

    constructor ()
      ensures details == map[] && listInvalidations == 0
    {
      details := map[];
      listInvalidations := 0;
    }

    function Get(key: Option<string>): (r: Option<ConversationDetail>)
      reads this
      ensures r.Some? <==> key in details
      ensures r.Some? ==> r.value == details[key]
    {
      if key in details then Some(details[key]) else None
    }

    /** A completed detail fetch replaces the entry for its key. */
    method Put(key: Option<string>, detail: ConversationDetail)
      modifies this
      ensures details == old(details)[key := detail]
      ensures listInvalidations == old(listInvalidations)
    {
      details := details[key := detail];
    }

    /** `setQueryData(['conversation', key], updater)` with the merge updater. */
    method MergeTurn(key: Option<string>, userMsg: Message, aiMsg: Message)
      modifies this
      ensures details == old(details)[key := MergedDetail(old(Get(key)), userMsg, aiMsg)]
      ensures listInvalidations == old(listInvalidations)
    {
      details := details[key := MergedDetail(Get(key), userMsg, aiMsg)];
    }

    /** `invalidateQueries({ queryKey: ['conversations'] })`; per-thread details are untouched. */
    method InvalidateList()
      modifies this`listInvalidations
      ensures listInvalidations == old(listInvalidations) + 1
    {
      listInvalidations := listInvalidations + 1;
    }
  }
}
