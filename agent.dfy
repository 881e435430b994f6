/** The `MathAgent` class: its capabilities, fixed at construction, and the two
    methods that do the work, written as the source writes them and proved
    equal to the functions of `WebContext` and `Pipeline`. */
module Agent {
  import opened Outcomes
  import opened Text
  import opened Config
  import opened Guardrails
  import opened Oracles
  import opened WebContext
  import opened Pipeline

  class MathAgent {
    /** The services the agent calls. */
    const services: Services
    /** `self.retriever` is set: the vector store loaded. */
    const hasRetriever: bool
    /** `self.web_search_tool` is set: a Tavily key was configured. */
    const hasWebSearch: bool

    constructor (services: Services, vectorStoreLoaded: bool, tavilyKeySet: bool)
      ensures this.services == services
      ensures hasRetriever == vectorStoreLoaded && hasWebSearch == tavilyKeySet
    {
      this.services := services;
      hasRetriever := vectorStoreLoaded;
      hasWebSearch := tavilyKeySet;
    }

    /** `_fetch_and_extract_web_content(query)`, with the calls it makes. */
    method FetchAndExtractWebContent(query: string) returns (context: string, calls: seq<Call>)
      ensures context == Context(hasWebSearch, services.webSearch(query), services.fetchPage)
      ensures calls == WebCalls(query, hasWebSearch, services.webSearch(query))
    {
      if !hasWebSearch {
        return NotConfigured, [];
      }
      var search := services.webSearch(query);
      calls := [WebSearch(query)];
      if search.Failed? {
        return SearchError, calls;
      }
      var results := search.value;
      var extracted: seq<string> := [];
      var i := 0;
      while i < |results|
        invariant i <= |results|
        invariant extracted == Blocks(results[..i], services.fetchPage)
        invariant calls == [WebSearch(query)] + FetchCalls(results[..i])
      {
        var url := results[i].url;
        var snippet := results[i].snippet;
        BlocksStep(results, i, services.fetchPage);
        if url != "" {
          var page := services.fetchPage(url);
          calls := calls + [FetchPage(url)];
          assert calls == [WebSearch(query)] + (FetchCalls(results[..i]) + [FetchPage(url)]);
          match page
          case Ok(text) =>
            assert Block(results[i], services.fetchPage) == Some(FetchedBlock(url, text));
            extracted := extracted + [FetchedBlock(url, text)];
          case Failed =>
            assert Block(results[i], services.fetchPage) == Some(SnippetBlock(url, snippet));
            extracted := extracted + [SnippetBlock(url, snippet)];
        } else if snippet != "" {
          assert Block(results[i], services.fetchPage) == Some(ResultSnippetBlock(snippet));
          extracted := extracted + [ResultSnippetBlock(snippet)];
        }
        i := i + 1;
      }
      assert results[..i] == results;
      if |extracted| == 0 {
        return NoResults, calls;
      }
      context := Join(Separator, extracted);
    }

    /** `process_query(query)`: the returned string (`Failed` when an exception
        escapes) and the calls made. The knowledge-base and web stages are the
        two methods below; `final_response` and `retrieved_docs` pass between
        them as in the source. */
    method ProcessQuery(query: string) returns (answer: Outcome<string>, calls: seq<Call>)
      ensures answer == Process(services, hasRetriever, hasWebSearch, query).answer
      ensures calls == Process(services, hasRetriever, hasWebSearch, query).calls
    {
      // 1. Input guardrails; the classifier is asked only after the privacy scan.
      var reply: Outcome<string> := Failed;
      calls := [];
      if ConsultsClassifier(query) {
        reply := services.classify(query);
        calls := [Classify(query)];
      } else {
        PrivacyShortCircuits(query, reply, services.classify(query));
      }
      var verdict := CheckInput(query, reply);
      if !verdict.safe {
        return Ok(verdict.message), calls;
      }
      if verdict.message != ValidMessage {
        // An accepted query always carries the valid message: the greeting
        // branch of the source cannot be reached.
        assert false;
      }
      ghost var gate := calls;

      // 2. Knowledge base.
      var finalResponse, retrievedDocs, kbCalls := KnowledgeBaseStage(query);
      calls := calls + kbCalls;

      // 3. Web search.
      if retrievedDocs == [] {
        var webResponse, webCalls := WebSearchStage(query);
        calls := calls + webCalls;
        if webResponse.Failed? {
          return Failed, calls;
        }
        finalResponse := webResponse.value;
      }

      // 4. Output guardrails.
      var outputVerdict := CheckOutput(finalResponse);
      answer := Ok(outputVerdict.message);
      assert Process(services, hasRetriever, hasWebSearch, query) == AfterGate(services, hasRetriever, hasWebSearch, query, gate);
    }

    /** Stage 2 of `process_query`: `final_response`, `retrieved_docs` and the
        calls made once the knowledge-base attempt is over. */
    method KnowledgeBaseStage(query: string) returns (finalResponse: string, retrievedDocs: seq<Doc>, calls: seq<Call>)
      ensures calls == KnowledgeStage(services, hasRetriever, query).calls
      ensures retrievedDocs == [] <==> KnowledgeStage(services, hasRetriever, query).FallThrough?
      ensures KnowledgeStage(services, hasRetriever, query).Answered? ==>
        finalResponse == KnowledgeStage(services, hasRetriever, query).response
      ensures KnowledgeStage(services, hasRetriever, query).Stuck? ==> finalResponse == DefaultApology
    {
      finalResponse := DefaultApology;
      retrievedDocs := [];
      calls := [];
      if hasRetriever {
        var search := services.similaritySearch(query);
        calls := calls + [SimilaritySearch(query)];
        if search.Ok? && |search.value| > 0 {
          var best := search.value[0];
          if best.distance < SimilarityThreshold {
            retrievedDocs := retrievedDocs + [best.doc];
            var fullContext := services.retrieve(query);
            calls := calls + [Retrieve(query)];
            if fullContext.Ok? {
              var formatted := FormatDocs(fullContext.value);
              var response := services.ragChain(formatted, query);
              calls := calls + [RagChain(formatted, query)];
              if response.Ok? {
                finalResponse := response.value;
              } else {
                finalResponse := KbErrorText;
                retrievedDocs := [];
              }
            }
          }
        }
      }
    }

    /** Stage 3 of `process_query`, run when `retrieved_docs` is empty: the new
        `final_response` (`Failed` when the no-answer chain raises) and the calls made. */
    method WebSearchStage(query: string) returns (finalResponse: Outcome<string>, calls: seq<Call>)
      ensures finalResponse == WebAnswer(services, hasWebSearch, query).response
      ensures calls == WebAnswer(services, hasWebSearch, query).calls
    {
      var webContext;
      webContext, calls := FetchAndExtractWebContent(query);
      ghost var before := calls;
      if NoContent(webContext) {
        finalResponse := services.noAnswerChain(query);
        calls := calls + [NoAnswerChain(query)];
      } else {
        var response := services.webChain(webContext, query);
        calls := calls + [WebChain(webContext, query)];
        if response.Ok? {
          finalResponse := response;
        } else {
          finalResponse := services.noAnswerChain(query);
          calls := calls + [NoAnswerChain(query)];
          assert calls == before + [WebChain(webContext, query), NoAnswerChain(query)];
        }
      }
    }
  }
}
