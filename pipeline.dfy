/** `MathAgent.process_query` as a function of the query, the capabilities the
    agent was built with and the services it calls: the input gate, the
    knowledge-base attempt, the web search with its no-answer fallback, and the
    output gate, together with the calls each run makes. */
module Pipeline {
  import opened Outcomes
  import opened Text
  import opened Config
  import opened Guardrails
  import opened Oracles
  import opened WebContext

  /** The answer `process_query` starts from, returned when nothing overwrites it.
      agent.py:159, split into pieces so it can be shown free of privacy keywords. */
  const DefaultApology: string :=
    "Sorry, I en" + ("c" + "ountered an issue ") + ("and " + ("c" + "ouldn't pro")) + ("c" + "ess your ") + "request."

  /** Assigned when the RAG chain fails; web search always overwrites it.
      agent.py:184, written in two pieces like the other fixed messages. */
  const KbErrorText: string :=
    "Sorry, I found relevant information " + "but encountered an error processing it."

  /** Phrases whose presence in the web context sends the query to the no-answer chain. */
  const NoContentMarkers: seq<string> :=
    ["No relevant information found", "Web search is not configured", "An error occurred"]

  /** The substring test on the web context at agent.py:201. */
  predicate NoContent(context: string)
  {
    ContainsAny(context, NoContentMarkers)
  }

  /** Which stage produced the answer. */
  datatype Route = Rejected | KnowledgeBase | Web | NoAnswer | Apology

  /** What one call of `process_query` yields: the returned string (`Failed` when
      an exception escapes), the stage that produced it and the service calls made. */
  datatype Run = Run(answer: Outcome<string>, route: Route, calls: seq<Call>)

  /** The end of the knowledge-base stage, by the value `retrieved_docs` has then:
      - `Answered`: the best document was appended and the RAG chain answered;
      - `Stuck`: the best document was appended, then the top-k retrieval raised,
        so `final_response` keeps the default apology;
      - `FallThrough`: `retrieved_docs` is empty and web search runs. */
  datatype KbStage = Answered(response: string, calls: seq<Call>) | Stuck(calls: seq<Call>) | FallThrough(calls: seq<Call>)

  /** The web stage: the chain answer (`Failed` when the no-answer chain raises),
      which of the two chains produced it and the calls made. */
  datatype WebStage = WebStage(response: Outcome<string>, route: Route, calls: seq<Call>)

  /** The calls of `check_input_guardrails`: the classifier is asked only once the
      privacy scan has passed. */
  function GateCalls(query: string): (calls: seq<Call>)
    ensures calls == [] <==> MentionsPrivacy(query)
    ensures forall c :: c in calls ==> c == Classify(query)
  {
    if ConsultsClassifier(query) then [Classify(query)] else []
  }

  /** The knowledge-base stage of `process_query`: the similarity search, the
      strict threshold test on the best distance, the top-k retrieval and the
      RAG chain, each of which may fail. */
  function KnowledgeStage(s: Services, hasRetriever: bool, query: string): KbStage
  {
    if !hasRetriever then FallThrough([])
    else
      match s.similaritySearch(query)
      case Failed => FallThrough([SimilaritySearch(query)])
      case Ok(hits) =>
        if |hits| == 0 || !(hits[0].distance < SimilarityThreshold) then FallThrough([SimilaritySearch(query)])
        else
          match s.retrieve(query)
          case Failed => Stuck([SimilaritySearch(query), Retrieve(query)])
          case Ok(docs) =>
            var context := FormatDocs(docs);
            var calls := [SimilaritySearch(query), Retrieve(query), RagChain(context, query)];
            match s.ragChain(context, query)
            case Ok(response) => Answered(response, calls)
            case Failed => FallThrough(calls)
  }

  /** The web context `process_query` obtains. */
  function WebContextFor(s: Services, hasWebSearch: bool, query: string): string
  {
    Context(hasWebSearch, s.webSearch(query), s.fetchPage)
  }

  /** The web stage of `process_query`: the web chain answers when the context
      holds no marker and the chain succeeds; otherwise the no-answer chain. */
  function WebAnswer(s: Services, hasWebSearch: bool, query: string): (w: WebStage)
    ensures w.route == Web || w.route == NoAnswer
    ensures w.route == Web <==>
      !NoContent(WebContextFor(s, hasWebSearch, query)) && s.webChain(WebContextFor(s, hasWebSearch, query), query).Ok?
    ensures w.route == Web ==> w.response == s.webChain(WebContextFor(s, hasWebSearch, query), query)
    ensures w.route == NoAnswer ==> w.response == s.noAnswerChain(query)
    ensures hasWebSearch ==> |w.calls| > 0 && w.calls[0] == WebSearch(query)
  {
    var context := WebContextFor(s, hasWebSearch, query);
    var calls := WebCalls(query, hasWebSearch, s.webSearch(query));
    if NoContent(context) then
      WebStage(s.noAnswerChain(query), NoAnswer, calls + [NoAnswerChain(query)])
    else
      match s.webChain(context, query)
      case Ok(response) => WebStage(Ok(response), Web, calls + [WebChain(context, query)])
      case Failed => WebStage(s.noAnswerChain(query), NoAnswer, calls + [WebChain(context, query), NoAnswerChain(query)])
  }

  /** The string the output gate lets through. */
  function OutputGate(response: string): string
  {
    CheckOutput(response).message
  }

  /** `process_query(query)`. */
  function Process(s: Services, hasRetriever: bool, hasWebSearch: bool, query: string): (run: Run)
    ensures run.route == Rejected <==> !CheckInput(query, s.classify(query)).safe
    ensures run.answer.Failed? ==> run.route == NoAnswer
  {
    var verdict := CheckInput(query, s.classify(query));
    if !verdict.safe then Run(Ok(verdict.message), Rejected, GateCalls(query))
    else AfterGate(s, hasRetriever, hasWebSearch, query, GateCalls(query))
  }

  /** The stages after the input gate, once the gate's calls `gate` are made. */
  function AfterGate(s: Services, hasRetriever: bool, hasWebSearch: bool, query: string, gate: seq<Call>): (run: Run)
    ensures run.route != Rejected
    ensures run.answer.Failed? ==> run.route == NoAnswer
  {
    match KnowledgeStage(s, hasRetriever, query)
    case Answered(response, kb) => Run(Ok(OutputGate(response)), KnowledgeBase, gate + kb)
    case Stuck(kb) => Run(Ok(OutputGate(DefaultApology)), Apology, gate + kb)
    case FallThrough(kb) =>
      var w := WebAnswer(s, hasWebSearch, query);
      var answer := match w.response
        case Ok(response) => Ok(OutputGate(response))
        case Failed => Failed;
      Run(answer, w.route, gate + kb + w.calls)
  }

  /** An accepted query: the input gate let it through. */
  predicate Accepted(s: Services, query: string)
  {
    CheckInput(query, s.classify(query)).safe
  }

  /** The best hit of the similarity search is strictly closer than the threshold. */
  predicate ConfidentMatch(s: Services, query: string)
  {
    s.similaritySearch(query).Ok? && |s.similaritySearch(query).value| > 0
    && s.similaritySearch(query).value[0].distance < SimilarityThreshold
  }

  // ---------------------------------------------------------------------------
  // The input gate

  /** A rejected query is answered with the gate's message; at most the
      classifier was called: no retrieval, search or generation. */
  lemma RejectedQueriesStopAtGate(s: Services, hasRetriever: bool, hasWebSearch: bool, query: string)
    requires !Accepted(s, query)
    ensures Process(s, hasRetriever, hasWebSearch, query).answer == Ok(CheckInput(query, s.classify(query)).message)
    ensures CheckInput(query, s.classify(query)).message in {PrivacyInputMessage, GreetingMessage, ScopeMessage}
    ensures forall c :: c in Process(s, hasRetriever, hasWebSearch, query).calls ==> c == Classify(query)
  {
  }

  /** A query naming a privacy keyword gets the privacy refusal and makes no call at all. */
  lemma PrivacyQueriesMakeNoCalls(s: Services, hasRetriever: bool, hasWebSearch: bool, query: string)
    requires MentionsPrivacy(query)
    ensures Process(s, hasRetriever, hasWebSearch, query) == Run(Ok(PrivacyInputMessage), Rejected, [])
  {
    PrivacyShortCircuits(query, s.classify(query), Failed);
  }

  // ---------------------------------------------------------------------------
  // The knowledge base

  /** The knowledge base answers exactly when the query is accepted, a retriever
      exists, the best hit is strictly below the threshold, and both the top-k
      retrieval and the RAG chain succeed; the answer is the RAG answer through
      the output gate. */
  lemma KnowledgeRouteIff(s: Services, hasRetriever: bool, hasWebSearch: bool, query: string)
    ensures Process(s, hasRetriever, hasWebSearch, query).route == KnowledgeBase <==>
      Accepted(s, query) && hasRetriever && ConfidentMatch(s, query) && s.retrieve(query).Ok?
      && s.ragChain(FormatDocs(s.retrieve(query).value), query).Ok?
    ensures Process(s, hasRetriever, hasWebSearch, query).route == KnowledgeBase ==>
      Process(s, hasRetriever, hasWebSearch, query).answer
        == Ok(OutputGate(s.ragChain(FormatDocs(s.retrieve(query).value), query).value))
  {
    var w := WebAnswer(s, hasWebSearch, query);
    assert w.route == Web || w.route == NoAnswer;
  }

  /** Without a confident match (no retriever, a failed or empty search, or a best
      distance at or above the threshold) the knowledge base is skipped: no
      retrieval, no RAG chain, and web search when a tool is configured. */
  lemma KnowledgeBaseSkipped(s: Services, hasRetriever: bool, hasWebSearch: bool, query: string)
    requires Accepted(s, query) && !(hasRetriever && ConfidentMatch(s, query))
    ensures Process(s, hasRetriever, hasWebSearch, query).route in {Web, NoAnswer}
    ensures forall c :: c in Process(s, hasRetriever, hasWebSearch, query).calls ==> !c.Retrieve? && !c.RagChain?
    ensures hasWebSearch ==> WebSearch(query) in Process(s, hasRetriever, hasWebSearch, query).calls
  {
    var kb := KnowledgeStage(s, hasRetriever, query);
    assert kb == FallThrough(if hasRetriever then [SimilaritySearch(query)] else []);
    var w := WebAnswer(s, hasWebSearch, query);
    WebAnswerCalls(s, hasWebSearch, query);
    var before := GateCalls(query) + kb.calls;
    assert Process(s, hasRetriever, hasWebSearch, query).calls == before + w.calls;
    if hasWebSearch {
      assert (before + w.calls)[|before|] == WebSearch(query);
    }
  }

  /** The web stage calls the search, the page fetcher and the two chains only. */
  lemma WebAnswerCalls(s: Services, hasWebSearch: bool, query: string)
    ensures forall c :: c in WebAnswer(s, hasWebSearch, query).calls ==>
      c.WebSearch? || c.FetchPage? || c.WebChain? || c.NoAnswerChain?
  {
    WebCallsAreSearchesAndFetches(query, hasWebSearch, s.webSearch(query));
  }

  /** A distance equal to the threshold does not count as a match. */
  lemma ThresholdIsStrict(s: Services, hasRetriever: bool, hasWebSearch: bool, query: string)
    requires Accepted(s, query) && s.similaritySearch(query).Ok?
    requires |s.similaritySearch(query).value| > 0 && s.similaritySearch(query).value[0].distance == SimilarityThreshold
    ensures Process(s, hasRetriever, hasWebSearch, query).route != KnowledgeBase
  {
    KnowledgeRouteIff(s, hasRetriever, hasWebSearch, query);
  }

  /** A failing RAG chain empties `retrieved_docs`: the answer is the web stage's,
      and the error text assigned in between never reaches the output. */
  lemma RagFailureFallsThroughToWeb(s: Services, hasRetriever: bool, hasWebSearch: bool, query: string)
    requires Accepted(s, query) && hasRetriever && ConfidentMatch(s, query) && s.retrieve(query).Ok?
    requires s.ragChain(FormatDocs(s.retrieve(query).value), query).Failed?
    ensures Process(s, hasRetriever, hasWebSearch, query).route == WebAnswer(s, hasWebSearch, query).route
    ensures Process(s, hasRetriever, hasWebSearch, query).answer ==
      (match WebAnswer(s, hasWebSearch, query).response
       case Ok(r) => Ok(OutputGate(r))
       case Failed => Failed)
    ensures Process(s, hasRetriever, hasWebSearch, query).calls ==
      GateCalls(query)
      + [SimilaritySearch(query), Retrieve(query), RagChain(FormatDocs(s.retrieve(query).value), query)]
      + WebAnswer(s, hasWebSearch, query).calls
  {
  }

  /** A failing top-k retrieval after the best document was kept skips web search,
      and the default apology passes the output gate unchanged. */
  lemma RetrieveFailureGivesApology(s: Services, hasRetriever: bool, hasWebSearch: bool, query: string)
    requires Accepted(s, query) && hasRetriever && ConfidentMatch(s, query) && s.retrieve(query).Failed?
    ensures Process(s, hasRetriever, hasWebSearch, query) ==
      Run(Ok(DefaultApology), Apology, GateCalls(query) + [SimilaritySearch(query), Retrieve(query)])
  {
    DefaultApologyIsClean();
  }

  // ---------------------------------------------------------------------------
  // Web search and the no-answer chain

  /** Each sentinel of the web-context builder holds one of the markers. */
  lemma SentinelsAreNoContent()
    ensures NoContent(NotConfigured) && NoContent(NoResults) && NoContent(SearchError)
  {
    NotConfiguredIsNoContent();
    NoResultsIsNoContent();
    SearchErrorIsNoContent();
  }

  lemma NotConfiguredIsNoContent()
    ensures NoContent(NotConfigured)
  {
    assert NoContentMarkers[1] == "Web search is not configured";
    ContainsPrefix("Web search is not configured", ".");
  }

  lemma NoResultsIsNoContent()
    ensures NoContent(NoResults)
  {
    assert NoContentMarkers[0] == "No relevant information found";
    ContainsPrefix("No relevant information found", " in web search results.");
  }

  lemma SearchErrorIsNoContent()
    ensures NoContent(SearchError)
  {
    assert NoContentMarkers[2] == "An error occurred";
    ContainsPrefix("An error occurred", " during web search.");
  }

  /** With a missing search tool, a failed search, or no usable result, the
      web-grounded chain is not called and the no-answer chain answers. */
  lemma SentinelsGoToNoAnswer(s: Services, hasRetriever: bool, hasWebSearch: bool, query: string)
    requires Accepted(s, query) && KnowledgeStage(s, hasRetriever, query).FallThrough?
    requires !hasWebSearch || s.webSearch(query).Failed?
      || (forall i :: 0 <= i < |s.webSearch(query).value| ==>
            s.webSearch(query).value[i].url == "" && s.webSearch(query).value[i].snippet == "")
    ensures Process(s, hasRetriever, hasWebSearch, query).route == NoAnswer
    ensures Process(s, hasRetriever, hasWebSearch, query).answer ==
      (match s.noAnswerChain(query)
       case Ok(r) => Ok(OutputGate(r))
       case Failed => Failed)
    ensures forall c :: c in Process(s, hasRetriever, hasWebSearch, query).calls ==> !c.WebChain?
  {
    SentinelsAreNoContent();
    if hasWebSearch && s.webSearch(query).Ok? {
      NoUsableResultGivesSentinel(s.webSearch(query).value, s.fetchPage);
    }
    NoContentSkipsWebChain(s, hasRetriever, hasWebSearch, query);
  }

  /** A web context holding a marker never reaches the web-grounded chain. */
  lemma NoContentSkipsWebChain(s: Services, hasRetriever: bool, hasWebSearch: bool, query: string)
    requires Accepted(s, query) && KnowledgeStage(s, hasRetriever, query).FallThrough?
    requires NoContent(WebContextFor(s, hasWebSearch, query))
    ensures Process(s, hasRetriever, hasWebSearch, query).route == NoAnswer
    ensures Process(s, hasRetriever, hasWebSearch, query).answer ==
      (match s.noAnswerChain(query)
       case Ok(r) => Ok(OutputGate(r))
       case Failed => Failed)
    ensures forall c :: c in Process(s, hasRetriever, hasWebSearch, query).calls ==> !c.WebChain?
  {
    var kb := KnowledgeStage(s, hasRetriever, query).calls;
    var w := WebAnswer(s, hasWebSearch, query);
    assert w.calls == WebCalls(query, hasWebSearch, s.webSearch(query)) + [NoAnswerChain(query)];
    WebCallsAreSearchesAndFetches(query, hasWebSearch, s.webSearch(query));
    assert forall c :: c in kb ==> !c.WebChain?;
    assert Process(s, hasRetriever, hasWebSearch, query).calls == GateCalls(query) + kb + w.calls;
  }

  /** The marker test reads real content too: a url-less result whose snippet
      mentions a marker sends the query to the no-answer chain. */
  lemma MarkerInSnippetGoesToNoAnswer(s: Services, hasRetriever: bool, query: string, i: nat, k: nat)
    requires Accepted(s, query) && KnowledgeStage(s, hasRetriever, query).FallThrough?
    requires s.webSearch(query).Ok? && i < |s.webSearch(query).value| && k < |NoContentMarkers|
    requires s.webSearch(query).value[i].url == ""
    requires Contains(s.webSearch(query).value[i].snippet, NoContentMarkers[k])
    ensures Process(s, hasRetriever, true, query).route == NoAnswer
  {
    SnippetReachesContext(s.webSearch(query).value, s.fetchPage, i, NoContentMarkers[k]);
    NoContentSkipsWebChain(s, hasRetriever, true, query);
  }

  /** A failing web-grounded chain falls back to the no-answer chain. */
  lemma WebChainFailureFallsBack(s: Services, hasRetriever: bool, hasWebSearch: bool, query: string)
    requires Accepted(s, query) && KnowledgeStage(s, hasRetriever, query).FallThrough?
    requires !NoContent(WebContextFor(s, hasWebSearch, query))
    requires s.webChain(WebContextFor(s, hasWebSearch, query), query).Failed?
    ensures Process(s, hasRetriever, hasWebSearch, query).route == NoAnswer
    ensures Process(s, hasRetriever, hasWebSearch, query).answer ==
      (match s.noAnswerChain(query)
       case Ok(r) => Ok(OutputGate(r))
       case Failed => Failed)
    ensures Process(s, hasRetriever, hasWebSearch, query).calls[|Process(s, hasRetriever, hasWebSearch, query).calls| - 2..]
      == [WebChain(WebContextFor(s, hasWebSearch, query), query), NoAnswerChain(query)]
  {
  }

  /** The web-grounded chain answers exactly when the knowledge base fell through,
      the web context holds no marker and the web chain succeeds; its reply then
      passes through the output gate. */
  lemma WebRouteIff(s: Services, hasRetriever: bool, hasWebSearch: bool, query: string)
    ensures Process(s, hasRetriever, hasWebSearch, query).route == Web <==>
      Accepted(s, query) && KnowledgeStage(s, hasRetriever, query).FallThrough?
      && !NoContent(WebContextFor(s, hasWebSearch, query))
      && s.webChain(WebContextFor(s, hasWebSearch, query), query).Ok?
    ensures Process(s, hasRetriever, hasWebSearch, query).route == Web ==>
      Process(s, hasRetriever, hasWebSearch, query).answer ==
        Ok(OutputGate(s.webChain(WebContextFor(s, hasWebSearch, query), query).value))
  {
  }

  /** `process_query` raises exactly when the no-answer chain is reached and fails:
      that chain's failure is caught nowhere. */
  lemma FailureIffNoAnswerChainFails(s: Services, hasRetriever: bool, hasWebSearch: bool, query: string)
    ensures Process(s, hasRetriever, hasWebSearch, query).answer.Failed? <==>
      Process(s, hasRetriever, hasWebSearch, query).route == NoAnswer && s.noAnswerChain(query).Failed?
  {
  }

  // ---------------------------------------------------------------------------
  // The output gate

  /** Every answer is free of privacy keywords, and the output check would pass it
      unchanged. */
  lemma AnswerNeverMentionsPrivacy(s: Services, hasRetriever: bool, hasWebSearch: bool, query: string)
    requires Process(s, hasRetriever, hasWebSearch, query).answer.Ok?
    ensures !MentionsPrivacy(Process(s, hasRetriever, hasWebSearch, query).answer.value)
    ensures CheckOutput(Process(s, hasRetriever, hasWebSearch, query).answer.value)
      == Verdict(true, Process(s, hasRetriever, hasWebSearch, query).answer.value)
  {
    var run := Process(s, hasRetriever, hasWebSearch, query);
    if run.route == Rejected {
      InputPrivacyMessageIsClean();
      GreetingMessageIsClean();
      ScopeMessageIsClean();
    } else {
      match KnowledgeStage(s, hasRetriever, query)
      case Answered(response, _) => OutputNeverMentionsPrivacy(response);
      case Stuck(_) => OutputNeverMentionsPrivacy(DefaultApology);
      case FallThrough(_) => OutputNeverMentionsPrivacy(WebAnswer(s, hasWebSearch, query).response.value);
    }
  }

  // ---------------------------------------------------------------------------
  // The default apology holds no privacy keyword, shown piece by piece as for
  // the guardrail messages.

  lemma PieceApologySorry()
    ensures Piece("Sorry, I en")
  {
    PlainPiece("Sorry, I en");
  }

  lemma PieceApologyOuntered()
    ensures AfterC("ountered an issue ")
  {
    PlainAfterC("ountered an issue ");
  }

  lemma PieceApologyAnd()
    ensures Piece("and ")
  {
    PlainPiece("and ");
  }

  lemma PieceApologyOuldnt()
    ensures AfterC("ouldn't pro")
  {
    PlainAfterC("ouldn't pro");
  }

  lemma PieceApologyEss()
    ensures AfterC("ess your ")
  {
    PlainAfterC("ess your ");
  }

  lemma PieceApologyRequest()
    ensures Piece("request.")
  {
    PlainPiece("request.");
  }

  lemma DefaultApologyIsClean()
    ensures !MentionsPrivacy(DefaultApology)
    ensures OutputGate(DefaultApology) == DefaultApology
  {
    PieceApologySorry();
    PieceApologyOuntered();
    PieceApologyAnd();
    PieceApologyOuldnt();
    PieceApologyEss();
    PieceApologyRequest();
    CleanJoinC3("Sorry, I en", "ountered an issue ", "and ", "ouldn't pro", "ess your ", "request.");
  }
}
