/**
 * `get_chat_response` in app/chatbot.py: the chat endpoint's reply built from the
 * list `handle_user_query` returns.  An empty list is answered "no results", a
 * list led by a greeting item is answered with that greeting, and any other list
 * becomes a "success" reply echoing the query with each item's summary and score.
 */
module Chatbot {
  import opened Wrappers
  import opened Records
  import opened IntentClassifier
  import opened QueryHandler
  import opened QueryHandlerProperties

  /** The reply's `status`: "no_results", "greeting" or "success". */
  datatype Status = NoResults | GreetingReply | Success

  /** One entry of the reply's `results`. */
  datatype ChatResult = ChatResult(summary: Summary, similarityScore: Score)

  /** The reply dict; `message` and `query` are `None` where the dict has no such key. */
  datatype ChatResponse = ChatResponse(status: Status, message: Option<Summary>, query: Option<string>, results: seq<ChatResult>)

  const SorryText := "Sorry, no matching apartments found."
  const NoSummaryText := "No summary available."

  /** `{"summary": match.get("summary", ...), "similarity_score": match.get("similarity_score", 0)}` */
  function ResultOf(m: ResponseItem): (r: ChatResult)
    ensures m.summary.Some? ==> r.summary == m.summary.value
    ensures m.summary.None? ==> r.summary == Message(NoSummaryText)
    ensures m.similarityScore.Some? ==> r.similarityScore == m.similarityScore.value
    ensures m.similarityScore.None? ==> r.similarityScore == 0.0
  {
    ChatResult(if m.summary.Some? then m.summary.value else Message(NoSummaryText),
               if m.similarityScore.Some? then m.similarityScore.value else 0.0)
  }

  /** A leading greeting item has a summary: `matches[0]["summary"]` does not raise. */
  predicate Answerable(matches: seq<ResponseItem>) {
    matches != [] && matches[0].kind == Some("greeting") ==> matches[0].summary.Some?
  }

  /** The reply `get_chat_response` builds from `matches`. */
  function ChatFor(query: string, matches: seq<ResponseItem>): (resp: ChatResponse)
    requires Answerable(matches)
    ensures resp.status == NoResults <==> matches == []
    ensures resp.status == NoResults ==> resp.message == Some(Message(SorryText)) && resp.results == []
    ensures resp.status == GreetingReply <==> matches != [] && matches[0].kind == Some("greeting")
    ensures resp.status == GreetingReply ==> resp.message == matches[0].summary && resp.results == []
    ensures resp.status == Success ==>
      && resp.query == Some(query) && resp.message.None?
      && |resp.results| == |matches|
      && forall i :: 0 <= i < |matches| ==> resp.results[i] == ResultOf(matches[i])
  {
    if matches == [] then ChatResponse(NoResults, Some(Message(SorryText)), None, [])
    else if matches[0].kind == Some("greeting") then ChatResponse(GreetingReply, matches[0].summary, None, [])
    else ChatResponse(Success, None, Some(query), seq(|matches|, i requires 0 <= i < |matches| => ResultOf(matches[i])))
  }

  /** The statements of `get_chat_response` after the call: the two early returns
      and the loop that collects the results. */
  method Respond(query: string, matches: seq<ResponseItem>) returns (resp: ChatResponse)
    requires Answerable(matches)
    ensures resp == ChatFor(query, matches)
  {
    if matches == [] {
      return ChatResponse(NoResults, Some(Message(SorryText)), None, []);
    }
    if matches[0].kind == Some("greeting") {
      return ChatResponse(GreetingReply, matches[0].summary, None, []);
    }
    var results: seq<ChatResult> := [];
    for i := 0 to |matches|
      invariant |results| == i
      invariant forall k :: 0 <= k < i ==> results[k] == ResultOf(matches[k])
    {
      results := results + [ResultOf(matches[i])];
    }
    resp := ChatResponse(Success, None, Some(query), results);
  }

  /** `get_chat_response(query)`: the handler is called with its default `top_k` of 5. */
  method GetChatResponse(query: string, locs: seq<string>, store: Store, index: Index) returns (resp: ChatResponse)
    ensures Answerable(HandleSpec(query, 5, locs, store, index))
    ensures resp == ChatFor(query, HandleSpec(query, 5, locs, store, index))
  {
    var matches := HandleUserQuery(query, 5, locs, store, index);
    ItemsShape(Classify(query, locs), query, 5, locs, store, index);
    resp := Respond(query, matches);
  }
}

module ChatbotProperties {
  import opened Wrappers
  import opened Records
  import opened IntentClassifier
  import opened QueryHandler
  import opened QueryHandlerProperties
  import opened Chatbot

  /** Over the handler's answers the "no results" reply never occurs: even an empty
      retrieval yields a one-item list.  The reply is the greeting exactly for a
      greeting intent, and otherwise every score is 0, because no handler item
      carries a `similarity_score` key. */
  lemma ReplyToAnswer(intent: Intent, query: string, topK: int, locs: seq<string>, store: Store, index: Index)
    ensures Answerable(Answer(intent, query, topK, locs, store, index))
    ensures var resp := ChatFor(query, Answer(intent, query, topK, locs, store, index));
      && resp.status != NoResults
      && (resp.status == GreetingReply <==> intent == Greeting)
      && (resp.status == GreetingReply ==> resp.message == Some(Message(GreetingText)))
      && (resp.status == Success ==>
            |resp.results| >= 1 && resp.results[0].summary.Message?
            && forall i :: 0 <= i < |resp.results| ==> resp.results[i].similarityScore == 0.0)
  {
    var items := Answer(intent, query, topK, locs, store, index);
    ItemsShape(intent, query, topK, locs, store, index);
    GreetingIffFirstTyped(intent, query, topK, locs, store, index);
    if intent == Greeting {
      assert items == [GreetingItem];
    } else {
      SuccessReply(query, items);
    }
  }

  /** A non-empty list that does not start with a greeting, whose items carry no
      score, gets a success reply with one zero-score result per item. */
  lemma SuccessReply(query: string, items: seq<ResponseItem>)
    requires items != [] && items[0].kind != Some("greeting")
    requires items[0].summary.Some? && items[0].summary.value.Message?
    requires forall k :: 0 <= k < |items| ==> items[k].summary.Some? && items[k].similarityScore.None?
    ensures var resp := ChatFor(query, items);
      && resp.status == Success && |resp.results| == |items|
      && resp.results[0].summary.Message?
      && forall i :: 0 <= i < |resp.results| ==> resp.results[i].similarityScore == 0.0
  {
  }
}
