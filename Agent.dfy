/**
  The chat service's agent (backend/services/agent.py): the in-memory store of
  conversation threads, the post-processing of the assistant's reply, and the
  retry loop around run creation.

  Every call into the hosted agent becomes an input. `freshId` is the id the
  service would get for a new thread. `create(k)` is the outcome of the
  `k`-th call to create a run. `status` is the terminal status the polling
  loop ends on. `listing` is the message listing of the thread. `parse` is
  `json.loads`, reduced to what the service reads from its result.
  Timestamps are instants passed in as `now`; they are only compared.
 */
module AgentService {
  import opened Wrappers
  import opened ChatTypes
  import Text
  import Sorting

  /** One retrieval hit: the metadata the service reads, and its similarity score, which is only copied. */
  datatype Match = Match(source: string, chunkText: string, chunkIndex: int, score: real)

  /** One stored thread; `title` is `None` until a title is set. */
  datatype Conversation = Conversation(
    threadId: string, title: Option<string>, createdAt: Time, updatedAt: Time, messages: seq<Message>)

  /** The body of `get_conversation`: the stored thread with its title shown. */
  datatype ConversationView = ConversationView(
    threadId: string, title: string, createdAt: Time, updatedAt: Time, messages: seq<Message>)

  /** No two positions of `s` hold the same id. */
  predicate Distinct(s: seq<string>) {
    forall i, j :: 0 <= i < j < |s| ==> s[i] != s[j]
  }

  // ---------------------------------------------------------------------------
  // What the service shows of a stored thread

  /** `conv.get("title") or "New Conversation"`. */
  function DisplayTitle(title: Option<string>): (shown: string)
    ensures shown != ""
    ensures Truthy(title) ==> shown == title.value
    ensures !Truthy(title) ==> shown == "New Conversation"
  {
    if Truthy(title) then title.value else "New Conversation"
  }

  /** One row of `get_conversations`. */
  function SummaryOf(conv: Conversation): ConversationSummary {
    ConversationSummary(conv.threadId, DisplayTitle(conv.title), conv.createdAt, conv.updatedAt, |conv.messages|)
  }

  function ViewOf(conv: Conversation): ConversationView {
    ConversationView(conv.threadId, DisplayTitle(conv.title), conv.createdAt, conv.updatedAt, conv.messages)
  }

  // ---------------------------------------------------------------------------
  // Citations stored with an answer

  const ExcerptLength := 200

  /** `text[:200] + "..."`: at most the first 200 characters, then an ellipsis. */
  function Excerpt(text: string): (e: string)
    ensures |e| == (if |text| < ExcerptLength then |text| else ExcerptLength) + 3
    ensures e[..|e| - 3] == text[..|e| - 3] && e[|e| - 3..] == "..."
  {
    (if |text| < ExcerptLength then text else text[..ExcerptLength]) + "..."
  }

  /** The citation recorded for one match. */
  function SourceInfo(m: Match): Source {
    Source(m.source, Excerpt(m.chunkText), m.chunkIndex)
  }

  /** `sources_info`: one citation per used match, in the order of the matches. */
  function SourcesInfo(used: seq<Match>): (infos: seq<Source>)
    ensures |infos| == |used|
    ensures forall i :: 0 <= i < |used| ==> infos[i] == SourceInfo(used[i])
  {
    if used == [] then []
    else SourcesInfo(used[..|used| - 1]) + [SourceInfo(used[|used| - 1])]
  }

  // ---------------------------------------------------------------------------
  // The assistant's reply

  /** Drops a leading "```json". */
  function DropJsonFence(s: string): string {
    if Text.StartsWith(s, "```json") then s[7..] else s
  }

  /** Drops a leading "```". */
  function DropOpenFence(s: string): string {
    if Text.StartsWith(s, "```") then s[3..] else s
  }

  /** Drops a trailing "```". */
  function DropCloseFence(s: string): string {
    if Text.EndsWith(s, "```") then s[..|s| - 3] else s
  }

  /**
    The clean-up of the reply text: strip it, drop a leading "```json", then
    a leading "```", then a trailing "```", and strip again.
   */
  function StripFences(reply: string): (body: string)
    ensures Text.Trim(Text.Python, body) == body
  {
    var s3 := DropCloseFence(DropOpenFence(DropJsonFence(Text.Trim(Text.Python, reply))));
    Text.TrimIdempotent(Text.Python, s3);
    Text.Trim(Text.Python, s3)
  }

  /** Text that starts with "```json" starts with "```". */
  lemma JsonFenceIsFence(s: string)
    ensures Text.StartsWith(s, "```json") ==> Text.StartsWith(s, "```")
  {
    if Text.StartsWith(s, "```json") {
      assert s[..3] == s[..7][..3];
    }
  }

  /** A reply with no fence at either end is only stripped. */
  lemma StripFencesUnfenced(reply: string)
    requires !Text.StartsWith(Text.Trim(Text.Python, reply), "```")
    requires !Text.EndsWith(Text.Trim(Text.Python, reply), "```")
    ensures StripFences(reply) == Text.Trim(Text.Python, reply)
  {
    var t := Text.Trim(Text.Python, reply);
    JsonFenceIsFence(t);
    assert DropCloseFence(DropOpenFence(DropJsonFence(t))) == t;
    Text.TrimIdempotent(Text.Python, reply);
  }

  /** A reply that starts and ends with a backquote is not changed by stripping. */
  lemma FencedUnpadded(reply: string)
    requires reply != [] && reply[0] == '`' && reply[|reply| - 1] == '`'
    ensures Text.Trim(Text.Python, reply) == reply
  {
    Text.TrimUnpadded(Text.Python, reply);
  }

  /** The closing fence of a block body that starts with no backquote is dropped, and nothing else. */
  lemma ClosingFence(inner: string)
    requires inner != [] && inner[0] != '`'
    ensures DropOpenFence(inner + "```") == inner + "```"
    ensures DropCloseFence(inner + "```") == inner
  {
    var s := inner + "```";
    assert s[0] == inner[0];
    assert s[|s| - 3..] == "```" && s[..|s| - 3] == inner;
  }

  /**
    A reply fenced as a JSON code block gives back the stripped body of the
    block. The body is restricted to one that does not start with a
    backquote, which is more than the reading needs: a body only has to
    avoid starting with a second fence.
   */
  lemma StripFencesJsonBlock(inner: string)
    requires inner != [] && inner[0] != '`'
    ensures StripFences("```json" + inner + "```") == Text.Trim(Text.Python, inner)
  {
    var reply := "```json" + inner + "```";
    ClosingFence(inner);
    var tail := inner + "```";
    assert reply == "```json" + tail;
    assert reply[..7] == "```json" && reply[7..] == tail;
    assert DropCloseFence(DropOpenFence(DropJsonFence(reply))) == inner;
    assert reply[0] == '`' && reply[|reply| - 1] == '`';
    FencedUnpadded(reply);
  }

  /** A plain fence is read as a JSON fence only when the body starts with "json". */
  lemma PlainOpening(inner: string)
    ensures Text.StartsWith("```" + inner + "```", "```json") ==> Text.StartsWith(inner, "json")
  {
    var reply := "```" + inner + "```";
    if |inner| >= 4 {
      assert reply[3..7] == inner[..4];
    } else if |inner| > 0 {
      var k := 3 + |inner|;
      assert reply[..7][k] == '`' && "```json"[k] != '`';
    }
  }

  /**
    A reply fenced as a plain code block gives back the stripped body, unless
    the body starts with "json". As for `StripFencesJsonBlock`, the body is
    restricted to one that does not start with a backquote.
   */
  lemma StripFencesPlainBlock(inner: string)
    requires inner != [] && inner[0] != '`' && !Text.StartsWith(inner, "json")
    ensures StripFences("```" + inner + "```") == Text.Trim(Text.Python, inner)
  {
    var reply := "```" + inner + "```";
    ClosingFence(inner);
    var tail := inner + "```";
    assert reply == "```" + tail;
    PlainOpening(inner);
    assert reply[..3] == "```" && reply[3..] == tail;
    assert DropCloseFence(DropOpenFence(DropJsonFence(reply))) == inner;
    assert reply[0] == '`' && reply[|reply| - 1] == '`';
    FencedUnpadded(reply);
  }

  /** One element of `used_source_indices`. */
  datatype JsonItem = JInt(n: int) | JBool(b: bool) | JOther

  /** What `json.loads` makes of the stripped reply, as far as the service reads it. */
  datatype Parsed =
    | NotJson
      // valid JSON that is not an object: calling `.get` on it raises
    | NotObject(kind: JsonValueKind)
      // an object; each field is `None` when its key is missing
    | Object(answer: Option<string>, indices: Option<seq<JsonItem>>)

  /** The JSON values other than objects, by the Python type `json.loads` gives them. */
  datatype JsonValueKind = ListValue | StringValue | IntValue | FloatValue | BoolValue | NullValue

  /** `type(value).__name__` for a parsed value of that kind. */
  function PyTypeName(kind: JsonValueKind): (name: string)
    ensures name != []
  {
    match kind
    case ListValue => "list"
    case StringValue => "str"
    case IntValue => "int"
    case FloatValue => "float"
    case BoolValue => "bool"
    case NullValue => "NoneType"
  }

  /** The text of the `AttributeError` that `.get` raises on a value that is not an object. */
  function NoGet(kind: JsonValueKind): (msg: string)
    ensures |msg| > |PyTypeName(kind)| + 1
    ensures msg[1..|PyTypeName(kind)| + 1] == PyTypeName(kind)
    ensures Text.StartsWith(msg, "'") && Text.EndsWith(msg, "' object has no attribute 'get'")
  {
    "'" + PyTypeName(kind) + "' object has no attribute 'get'"
  }

  /** The error text names the type: two kinds give the same text only when they are the same kind. */
  lemma NoGetNamesType(k1: JsonValueKind, k2: JsonValueKind)
    ensures NoGet(k1) == NoGet(k2) <==> k1 == k2
  {
    if NoGet(k1) == NoGet(k2) {
      assert NoGet(k1)[1] == PyTypeName(k1)[0] && NoGet(k2)[1] == PyTypeName(k2)[0];
    }
  }

  /** `isinstance(idx, int) and 0 <= idx < count`, where a Python `bool` is an `int`. */
  function IndexOf(item: JsonItem, count: nat): (idx: Option<nat>)
    ensures idx.Some? ==> idx.value < count
    ensures item.JOther? ==> idx.None?
    ensures item.JInt? ==> (idx.Some? <==> 0 <= item.n < count) && (idx.Some? ==> idx.value == item.n)
    ensures item.JBool? ==> (idx.Some? <==> (if item.b then 1 else 0) < count)
  {
    match item
    case JInt(n) => if 0 <= n < count then Some(n) else None
    case JBool(b) => var n := if b then 1 else 0; if n < count then Some(n) else None
    case JOther => None
  }

  /** The matches the reply names, in the order it names them; unusable items are dropped. */
  function UsedMatches(matches: seq<Match>, indices: seq<JsonItem>): (used: seq<Match>)
    ensures |used| <= |indices|
    ensures forall m :: m in used ==> m in matches
  {
    if indices == [] then []
    else
      var idx := IndexOf(indices[|indices| - 1], |matches|);
      UsedMatches(matches, indices[..|indices| - 1]) + (if idx.Some? then [matches[idx.value]] else [])
  }

  /** When every item is an integer position of a match, exactly those matches are used, position by position. */
  lemma {:induction false} UsedMatchesAllValid(matches: seq<Match>, indices: seq<JsonItem>)
    requires forall i :: 0 <= i < |indices| ==> indices[i].JInt? && 0 <= indices[i].n < |matches|
    ensures |UsedMatches(matches, indices)| == |indices|
    ensures forall i :: 0 <= i < |indices| ==> UsedMatches(matches, indices)[i] == matches[indices[i].n]
  {
    if indices != [] {
      var init, last := indices[..|indices| - 1], indices[|indices| - 1];
      assert forall i :: 0 <= i < |init| ==> init[i] == indices[i];
      UsedMatchesAllValid(matches, init);
      assert IndexOf(last, |matches|) == Some(last.n);
      assert UsedMatches(matches, indices) == UsedMatches(matches, init) + [matches[last.n]];
    }
  }

  /** Items that name no match contribute nothing. */
  lemma {:induction false} UsedMatchesNoneValid(matches: seq<Match>, indices: seq<JsonItem>)
    requires forall i :: 0 <= i < |indices| ==> IndexOf(indices[i], |matches|).None?
    ensures UsedMatches(matches, indices) == []
  {
    if indices != [] {
      UsedMatchesNoneValid(matches, indices[..|indices| - 1]);
    }
  }

  /** The filter over `used_source_indices`. */
  method FilterUsedMatches(matches: seq<Match>, indices: seq<JsonItem>) returns (used: seq<Match>)
    ensures used == UsedMatches(matches, indices)
  {
    used := [];
    for k := 0 to |indices|
      invariant used == UsedMatches(matches, indices[..k])
    {
      assert indices[..k + 1][..k] == indices[..k];
      var idx := indices[k];
      if idx.JInt? && 0 <= idx.n < |matches| {
        used := used + [matches[idx.n]];
      } else if idx.JBool? && (if idx.b then 1 else 0) < |matches| {
        used := used + [matches[if idx.b then 1 else 0]];
      }
    }
    assert indices[..|indices|] == indices;
  }

  /** The answer and the used matches of a stripped reply, or the error of JSON that is not an object. */
  function Reading(body: string, matches: seq<Match>, parsed: Parsed): Result<(string, seq<Match>), string> {
    match parsed
    case NotJson => Ok((body, matches))
    case NotObject(kind) => Err(NoGet(kind))
    case Object(answer, indices) => Ok((answer.GetOr(body), UsedMatches(matches, indices.GetOr([]))))
  }

  /**
    The `try`/`except` around `json.loads`: unparsable text is the answer and
    every match counts as used; an object gives its `answer` (the text when
    missing) and the matches its `used_source_indices` name (none when
    missing); other JSON raises.
   */
  method ReadReply(body: string, matches: seq<Match>, parsed: Parsed) returns (r: Result<(string, seq<Match>), string>)
    ensures r == Reading(body, matches, parsed)
    ensures r.Err? <==> parsed.NotObject?
    ensures parsed.NotObject? ==> r == Err(NoGet(parsed.kind))
    ensures parsed.NotJson? ==> r == Ok((body, matches))
    ensures parsed.Object? && parsed.answer.None? ==> r.Ok? && r.value.0 == body
    ensures parsed.Object? && parsed.indices.None? ==> r.Ok? && r.value.1 == []
  {
    match parsed {
      case NotJson =>
        r := Ok((body, matches));
      case NotObject(kind) =>
        r := Err(NoGet(kind));
      case Object(answer, indices) =>
        var used := FilterUsedMatches(matches, indices.GetOr([]));
        r := Ok((answer.GetOr(body), used));
    }
  }

  /** One message of the thread listing the agent returns. */
  datatype ThreadMessage = ThreadMessage(role: string, text: string)

  /** The text of the first assistant message of the listing. */
  function FirstAssistant(listing: seq<ThreadMessage>): Option<string> {
    if listing == [] then None
    else if listing[0].role == "assistant" then Some(listing[0].text)
    else FirstAssistant(listing[1..])
  }

  /** No reply iff no message is the assistant's; otherwise the reply is that of the earliest assistant message. */
  lemma {:induction false} FirstAssistantFound(listing: seq<ThreadMessage>)
    ensures FirstAssistant(listing).None? <==> forall i :: 0 <= i < |listing| ==> listing[i].role != "assistant"
    ensures FirstAssistant(listing).Some? ==>
      exists i :: 0 <= i < |listing| && listing[i].role == "assistant" && listing[i].text == FirstAssistant(listing).value
        && forall j :: 0 <= j < i ==> listing[j].role != "assistant"
  {
    if listing != [] && listing[0].role != "assistant" {
      var rest := listing[1..];
      FirstAssistantFound(rest);
      assert forall i :: 0 <= i < |rest| ==> rest[i] == listing[i + 1];
      if FirstAssistant(rest).Some? {
        var i :| 0 <= i < |rest| && rest[i].role == "assistant" && rest[i].text == FirstAssistant(rest).value
          && forall j :: 0 <= j < i ==> rest[j].role != "assistant";
        assert listing[i + 1] == rest[i];
        assert forall j :: 0 <= j < i + 1 ==> listing[j].role != "assistant" by {
          forall j | 0 <= j < i + 1 ensures listing[j].role != "assistant" {
            if j > 0 { assert listing[j] == rest[j - 1]; }
          }
        }
      } else {
        forall i | 0 <= i < |listing| ensures listing[i].role != "assistant" {
          if i > 0 { assert listing[i] == rest[i - 1]; }
        }
      }
    }
  }

  /** The `for msg in messages` search for the assistant's reply. */
  method FindAssistantReply(listing: seq<ThreadMessage>) returns (reply: Option<string>)
    ensures reply == FirstAssistant(listing)
  {
    var k := 0;
    while k < |listing|
      invariant 0 <= k <= |listing|
      invariant FirstAssistant(listing) == FirstAssistant(listing[k..])
    {
      assert listing[k..][1..] == listing[k + 1..];
      if listing[k].role == "assistant" {
        return Some(listing[k].text);
      }
      k := k + 1;
    }
    return None;
  }

  // ---------------------------------------------------------------------------
  // Run creation

  /** The outcome of one call to create a run. */
  datatype Attempt = Created(runId: string) | Raises(message: string)

  const MaxRetries := 3
  const RetriesExhausted := "Failed to create agent run after all retries"

  /** The retry test: the lower-cased error text contains "timed out". */
  predicate IsTimeout(message: string) {
    Text.Contains(Text.AsciiLower(message), "timed out")
  }

  /**
    The retry loop entered with `retryCount` failures behind it: the run id
    or the error that escapes, and how many calls were made in all.
   */
  function RunFrom(create: nat -> Attempt, retryCount: nat): (Result<string, string>, nat)
    decreases MaxRetries - retryCount
  {
    if retryCount >= MaxRetries then (Err(RetriesExhausted), retryCount)
    else match create(retryCount)
      case Created(runId) => (Ok(runId), retryCount + 1)
      case Raises(message) =>
        if IsTimeout(message) && retryCount + 1 < MaxRetries then RunFrom(create, retryCount + 1)
        else (Err(message), retryCount + 1)
  }

  /**
    From a count below the limit, the loop makes at most `MaxRetries` calls
    in all; every call but the last raised a time-out; the last call decides:
    its run id, or its own error, which is either not a time-out or the one
    of the last allowed attempt.
   */
  lemma {:induction false} RunFromShape(create: nat -> Attempt, k: nat)
    requires k < MaxRetries
    ensures var r := RunFrom(create, k);
      && k < r.1 <= MaxRetries
      && (forall j :: k <= j < r.1 - 1 ==> create(j).Raises? && IsTimeout(create(j).message))
      && (r.0.Ok? <==> create(r.1 - 1).Created?)
      && (r.0.Ok? ==> r.0.value == create(r.1 - 1).runId)
      && (r.0.Err? ==> r.0.error == create(r.1 - 1).message && (r.1 == MaxRetries || !IsTimeout(r.0.error)))
    decreases MaxRetries - k
  {
    match create(k)
    case Created(_) =>
    case Raises(message) =>
      if IsTimeout(message) && k + 1 < MaxRetries {
        RunFromShape(create, k + 1);
      }
  }

  /**
    The whole loop: at most three calls, a retry only after a time-out, and
    the exhaustion error after the loop is never the one that escapes.
   */
  lemma RunCreation(create: nat -> Attempt)
    ensures var r := RunFrom(create, 0);
      && 1 <= r.1 <= MaxRetries
      && (forall j :: 0 <= j < r.1 - 1 ==> create(j).Raises? && IsTimeout(create(j).message))
      && (r.0.Ok? <==> create(r.1 - 1).Created?)
      && (r.0.Err? ==> r.0.error == create(r.1 - 1).message)
      && (create(0).Raises? && !IsTimeout(create(0).message) ==> r == (Err(create(0).message), 1))
  {
    RunFromShape(create, 0);
  }

  /** The `while retry_count < max_retries` loop and the `run is None` check after it. */
  method CreateRun(create: nat -> Attempt) returns (outcome: Result<string, string>, calls: nat)
    ensures (outcome, calls) == RunFrom(create, 0)
  {
    var retryCount: nat := 0;
    var run: Option<string> := None;
    calls := 0;
    while retryCount < MaxRetries
      invariant calls == retryCount && run == None
      invariant RunFrom(create, retryCount) == RunFrom(create, 0)
    {
      var attempt := create(retryCount);
      calls := calls + 1;
      if attempt.Created? {
        run := Some(attempt.runId);
        break;
      }
      retryCount := retryCount + 1;
      if IsTimeout(attempt.message) && retryCount < MaxRetries {
        continue;
      }
      return Err(attempt.message), calls;
    }
    if run.None? {
      return Err(RetriesExhausted), calls;
    }
    outcome := Ok(run.value);
  }

  // ---------------------------------------------------------------------------
  // One turn of `generate_answer`

  /** What a turn produces: the answer, the matches it used, and whether it is stored in the thread. */
  datatype Turn = Turn(answer: string, used: seq<Match>, stored: bool)

  /** The turn the agent's outcomes determine, or the error that escapes `generate_answer`. */
  function TurnOf(matches: seq<Match>, create: nat -> Attempt, status: string, listing: seq<ThreadMessage>,
                  parse: string -> Parsed): Result<Turn, string>
  {
    var run := RunFrom(create, 0).0;
    if run.Err? then Err(run.error)
    else if status != "completed" then Ok(Turn("Agent run " + status + ". Please try again.", [], false))
    else match FirstAssistant(listing)
      case None => Ok(Turn("No response from agent.", [], false))
      case Some(text) =>
        var body := StripFences(text);
        match Reading(body, matches, parse(body))
        case Err(e) => Err(e)
        case Ok(read) => Ok(Turn(read.0, read.1, true))
  }

  /**
    The agent side of `generate_answer`: create the run and, on a completed
    run, read the first assistant reply.
   */
  method RunTurn(matches: seq<Match>, create: nat -> Attempt, status: string, listing: seq<ThreadMessage>,
                 parse: string -> Parsed) returns (turn: Result<Turn, string>)
    ensures turn == TurnOf(matches, create, status, listing, parse)
  {
    var run, calls := CreateRun(create);
    if run.Err? {
      return Err(run.error);
    }
    if status == "completed" {
      var reply := FindAssistantReply(listing);
      if reply.Some? {
        var body := StripFences(reply.value);
        var read := ReadReply(body, matches, parse(body));
        if read.Err? {
          return Err(read.error);
        }
        return Ok(Turn(read.value.0, read.value.1, true));
      }
      return Ok(Turn("No response from agent.", [], false));
    }
    return Ok(Turn("Agent run " + status + ". Please try again.", [], false));
  }

  /**
    Only a completed run with an assistant reply is stored; every other
    ending uses no match, and only an unusable run or reply raises.
   */
  lemma TurnOutcomes(matches: seq<Match>, create: nat -> Attempt, status: string, listing: seq<ThreadMessage>,
                     parse: string -> Parsed)
    ensures var t := TurnOf(matches, create, status, listing, parse);
      && (t.Ok? && t.value.stored <==>
            RunFrom(create, 0).0.Ok? && status == "completed" && FirstAssistant(listing).Some?
            && !parse(StripFences(FirstAssistant(listing).value)).NotObject?)
      && (t.Ok? && !t.value.stored ==> t.value.used == [])
      && (t.Ok? && status != "completed" ==> t.value.answer == "Agent run " + status + ". Please try again.")
      && (t.Ok? ==> forall m :: m in t.value.used ==> m in matches)
      && (RunFrom(create, 0).0.Ok? && status == "completed" && FirstAssistant(listing).Some?
          && parse(StripFences(FirstAssistant(listing).value)).NotObject? ==>
            t == Err(NoGet(parse(StripFences(FirstAssistant(listing).value)).kind)))
  {
    var run := RunFrom(create, 0).0;
    if run.Ok? && status == "completed" && FirstAssistant(listing).Some? {
      var body := StripFences(FirstAssistant(listing).value);
      match parse(body)
      case NotJson =>
      case NotObject(_) =>
      case Object(_, indices) =>
        var used := UsedMatches(matches, indices.GetOr([]));
        assert forall m :: m in used ==> m in matches;
    }
  }

  /** A truthy id that is already stored is reused. */
  predicate Reuses(conversations: map<string, Conversation>, threadId: Option<string>) {
    Truthy(threadId) && threadId.value in conversations
  }

  /** The thread a turn runs on. */
  function ThreadFor(conversations: map<string, Conversation>, threadId: Option<string>, freshId: string): string {
    if Reuses(conversations, threadId) then threadId.value else freshId
  }

  /** The entry a new thread starts with. */
  function NewConversation(id: string, now: Time): Conversation {
    Conversation(id, None, now, now, [])
  }

  /** The store once the turn's thread is chosen. */
  function Opened(conversations: map<string, Conversation>, threadId: Option<string>, freshId: string, now: Time)
    : (started: map<string, Conversation>)
    ensures ThreadFor(conversations, threadId, freshId) in started
  {
    if Reuses(conversations, threadId) then conversations
    else conversations[freshId := NewConversation(freshId, now)]
  }

  /**
    A reused thread leaves the store as it is; otherwise exactly one entry,
    empty and untitled, is added under the new id. No other entry changes.
   */
  lemma OpenedShape(conversations: map<string, Conversation>, threadId: Option<string>, freshId: string, now: Time)
    ensures var tid := ThreadFor(conversations, threadId, freshId);
      var started := Opened(conversations, threadId, freshId, now);
      && tid in started
      && (Reuses(conversations, threadId) ==> tid == threadId.value && started == conversations)
      && (!Reuses(conversations, threadId) ==>
            tid == freshId && started[tid] == NewConversation(freshId, now)
            && started.Keys == conversations.Keys + {freshId})
      && forall id :: id in conversations && id != tid ==> id in started && started[id] == conversations[id]
  {
  }

  /** A thread after one stored turn: the user's message, then the answer with its citations. */
  function WithTurn(conv: Conversation, query: string, answer: string, used: seq<Match>, now: Time): Conversation {
    conv.(updatedAt := now,
          messages := conv.messages + [Message(User, query, Some(now), None),
                                       Message(Assistant, answer, Some(now), Some(SourcesInfo(used)))])
  }

  /**
    Storing a turn appends exactly two messages, user first, and bumps the
    update time; the earlier messages, the title and the creation time stay.
   */
  lemma WithTurnAppendsPair(conv: Conversation, query: string, answer: string, used: seq<Match>, now: Time)
    ensures var c := WithTurn(conv, query, answer, used, now);
      && |c.messages| == |conv.messages| + 2
      && c.messages[..|conv.messages|] == conv.messages
      && c.messages[|conv.messages|].role == User && c.messages[|conv.messages|].content == query
      && c.messages[|conv.messages|].sources == None
      && c.messages[|conv.messages| + 1].role == Assistant && c.messages[|conv.messages| + 1].content == answer
      && c.messages[|conv.messages| + 1].sources == Some(SourcesInfo(used))
      && c.threadId == conv.threadId && c.title == conv.title && c.createdAt == conv.createdAt && c.updatedAt == now
      && SummaryOf(c).messageCount == SummaryOf(conv).messageCount + 2
  {
  }

  /** The store after a whole turn: the thread chosen, and the turn stored in it when there is one to store. */
  function AfterTurn(conversations: map<string, Conversation>, threadId: Option<string>, freshId: string,
                     query: string, turn: Result<Turn, string>, now: Time): (after: map<string, Conversation>)
    ensures ThreadFor(conversations, threadId, freshId) in after
  {
    var tid := ThreadFor(conversations, threadId, freshId);
    var started := Opened(conversations, threadId, freshId, now);
    if turn.Ok? && turn.value.stored then started[tid := WithTurn(started[tid], query, turn.value.answer, turn.value.used, now)]
    else started
  }

  /**
    A turn touches only its own thread: the keys grow by the thread id at
    most, every other entry stays, and the thread's title is the one it had
    (`None` for a new thread).
   */
  lemma AfterTurnShape(conversations: map<string, Conversation>, threadId: Option<string>, freshId: string,
                       query: string, turn: Result<Turn, string>, now: Time)
    ensures var tid := ThreadFor(conversations, threadId, freshId);
      var after := AfterTurn(conversations, threadId, freshId, query, turn, now);
      && after.Keys == conversations.Keys + {tid}
      && (forall id :: id in conversations && id != tid ==> after[id] == conversations[id])
      && after[tid].title == (if Reuses(conversations, threadId) then conversations[tid].title else None)
      && |after[tid].messages| == |Opened(conversations, threadId, freshId, now)[tid].messages|
                                   + (if turn.Ok? && turn.value.stored then 2 else 0)
  {
    OpenedShape(conversations, threadId, freshId, now);
  }

  /** The key order of the store after assigning `id`: a new key goes last, an existing one keeps its place. */
  function Enrolled(order: seq<string>, conversations: map<string, Conversation>, id: string): seq<string> {
    if id in conversations then order else order + [id]
  }

  /** The key order after `del`: the id is gone and the others keep their order. */
  function Without(s: seq<string>, x: string): (r: seq<string>)
    ensures forall y :: y in r <==> y in s && y != x
    ensures Distinct(s) ==> Distinct(r)
  {
    if s == [] then []
    else
      var rest := Without(s[1..], x);
      assert Distinct(s) ==> s[0] !in s[1..];
      (if s[0] == x then [] else [s[0]]) + rest
  }

  /** `Agent`, reduced to its `conversations` dict; `order` is the dict's key order. */
  class Agent {
    var conversations: map<string, Conversation>
    var order: seq<string>

    ghost predicate Valid()
      reads this
    {
      && (forall id :: id in conversations <==> id in order)
      && Distinct(order)
      && (forall id :: id in conversations ==> conversations[id].threadId == id)
    }

    constructor ()
      ensures Valid() && conversations == map[] && order == []
    {
      conversations := map[];
      order := [];
    }

    /** `self.conversations[id] = conv`. */
    method Store(id: string, conv: Conversation)
      requires Valid() && conv.threadId == id
      modifies this
      ensures Valid()
      ensures conversations == old(conversations)[id := conv]
      ensures order == Enrolled(old(order), old(conversations), id)
    {
      order := Enrolled(order, conversations, id);
      conversations := conversations[id := conv];
    }

    /** Reuse a truthy stored thread id, or start a new, empty, untitled thread. */
    method UseOrCreateThread(threadId: Option<string>, freshId: string, now: Time) returns (tid: string)
      requires Valid()
      modifies this
      ensures Valid()
      ensures tid == ThreadFor(old(conversations), threadId, freshId)
      ensures conversations == Opened(old(conversations), threadId, freshId, now)
      ensures order == Enrolled(old(order), old(conversations), tid)
    {
      if Truthy(threadId) && threadId.value in conversations {
        tid := threadId.value;
      } else {
        tid := freshId;
        Store(freshId, NewConversation(freshId, now));
      }
    }

    /** The storing step of a completed turn, done only while the thread is still stored. */
    method StoreTurn(tid: string, query: string, answer: string, used: seq<Match>, now: Time)
      requires Valid()
      modifies this`conversations
      ensures Valid()
      ensures tid in old(conversations) ==>
        conversations == old(conversations)[tid := WithTurn(old(conversations)[tid], query, answer, used, now)]
      ensures tid !in old(conversations) ==> conversations == old(conversations)
    {
      if tid in conversations {
        var conv := conversations[tid];
        var userMessage := Message(User, query, Some(now), None);
        var messages := conv.messages + [userMessage];
        var sourcesInfo := SourcesInfo(used);
        var assistantMessage := Message(Assistant, answer, Some(now), Some(sourcesInfo));
        messages := messages + [assistantMessage];
        assert messages == conv.messages + [userMessage, assistantMessage];
        conversations := conversations[tid := conv.(messages := messages, updatedAt := now)];
      }
    }

    /**
      `generate_answer`: choose the thread, create the run, and on a
      completed run read the first assistant reply and store the turn. The
      thread chosen stays stored even when an error escapes.
     */
    method GenerateAnswer(query: string, matches: seq<Match>, threadId: Option<string>, freshId: string,
                          create: nat -> Attempt, status: string, listing: seq<ThreadMessage>,
                          parse: string -> Parsed, now: Time)
      returns (result: Result<(string, string, seq<Match>), string>)
      requires Valid()
      modifies this
      ensures Valid()
      ensures var tid := ThreadFor(old(conversations), threadId, freshId);
        var turn := TurnOf(matches, create, status, listing, parse);
        && order == Enrolled(old(order), old(conversations), tid)
        && conversations == AfterTurn(old(conversations), threadId, freshId, query, turn, now)
        && (turn.Err? ==> result == Err(turn.error))
        && (turn.Ok? ==> result == Ok((turn.value.answer, tid, turn.value.used)))
    {
      var tid := UseOrCreateThread(threadId, freshId, now);
      var turn := RunTurn(matches, create, status, listing, parse);
      if turn.Err? {
        return Err(turn.error);
      }
      if turn.value.stored {
        StoreTurn(tid, query, turn.value.answer, turn.value.used, now);
      }
      return Ok((turn.value.answer, tid, turn.value.used));
    }

    /** The summaries of the stored threads, in storage order. */
    method Summaries() returns (rows: seq<ConversationSummary>)
      requires Valid()
      ensures |rows| == |order|
      ensures forall i :: 0 <= i < |order| ==> rows[i] == SummaryOf(conversations[order[i]])
    {
      rows := [];
      for k := 0 to |order|
        invariant |rows| == k
        invariant forall i :: 0 <= i < k ==> rows[i] == SummaryOf(conversations[order[i]])
      {
        rows := rows + [SummaryOf(conversations[order[k]])];
      }
    }

    /** `get_conversations`: one summary per stored thread, newest update first. */
    method GetConversations() returns (list: seq<ConversationSummary>)
      requires Valid()
      ensures |list| == |order|
      ensures forall id :: id in conversations ==> SummaryOf(conversations[id]) in list
      ensures forall s :: s in list ==> s.threadId in conversations && s == SummaryOf(conversations[s.threadId])
      ensures Sorting.SortedDesc(list, (s: ConversationSummary) => s.updatedAt)
    {
      var rows := Summaries();
      forall id | id in conversations
        ensures SummaryOf(conversations[id]) in rows
      {
        var i :| 0 <= i < |order| && order[i] == id;
        assert rows[i] == SummaryOf(conversations[id]);
      }
      var a := new ConversationSummary[|rows|](i requires 0 <= i < |rows| => rows[i]);
      assert a[..] == rows;
      Sorting.SortDescending(a, (s: ConversationSummary) => s.updatedAt);
      list := a[..];
      Sorting.SameElements(list, rows);
    }

    /** `get_conversation`: `None` iff the id is not stored. */
    method GetConversation(tid: string) returns (r: Option<ConversationView>)
      requires Valid()
      ensures r.None? <==> tid !in conversations
      ensures r.Some? ==> r.value == ViewOf(conversations[tid]) && r.value.title != ""
    {
      if tid !in conversations {
        return None;
      }
      var conv := conversations[tid];
      r := Some(ConversationView(tid, DisplayTitle(conv.title), conv.createdAt, conv.updatedAt, conv.messages));
    }

    /** `delete_conversation`: true iff the id was stored; only that entry goes. */
    method DeleteConversation(tid: string) returns (deleted: bool)
      requires Valid()
      modifies this
      ensures Valid()
      ensures deleted <==> tid in old(conversations)
      ensures conversations == old(conversations) - {tid}
      ensures order == Without(old(order), tid)
    {
      deleted := tid in conversations;
      order := Without(order, tid);
      conversations := conversations - {tid};
    }

    /** `update_conversation_title`: true iff the id is stored; only that entry's title and update time change. */
    method UpdateConversationTitle(tid: string, title: string, now: Time) returns (updated: bool)
      requires Valid()
      modifies this`conversations
      ensures Valid()
      ensures updated <==> tid in old(conversations)
      ensures updated ==>
        conversations == old(conversations)[tid := old(conversations)[tid].(title := Some(title), updatedAt := now)]
      ensures !updated ==> conversations == old(conversations)
    {
      if tid in conversations {
        conversations := conversations[tid := conversations[tid].(title := Some(title), updatedAt := now)];
        return true;
      }
      return false;
    }
  }
}
