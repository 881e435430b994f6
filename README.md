# Math Professor Agent: the per-query decision logic in Dafny

The Math Professor Agent answers mathematics questions. Each query goes through
a fixed pipeline:

- an **input guardrail**: a privacy keyword scan, then a topic check by a
  classifier with a keyword fallback, then the greeting and scope refusals;
- a **knowledge-base** attempt over a FAISS index, trusted only when the best L2
  distance is strictly below `SIMILARITY_THRESHOLD`;
- a **web search** whose results become labelled text blocks;
- a **no-answer** chain for when nothing usable was found;
- an **output guardrail** that either passes the answer through unchanged or
  replaces it with a fixed refusal.

This project models that logic. Every external service is a total function to
an outcome (`Ok(value)` or `Failed`, where `Failed` stands for any exception):

- the language model behind the topic classifier and the three chains;
- FAISS and the retriever;
- Tavily;
- the page fetcher.

A run is therefore determined by the query, the capabilities the agent was
built with and those functions. The model records the service calls each run
makes, so that "the classifier is never consulted" and "no retrieval happens"
can be stated.

Modules:

- `Outcomes`: `Outcome` and `Option`.
- `Config`: the constants of `src/config.py`.
- `Text`: the Python string operations used: `in`, `lower()`, `strip()`, slicing and `join`.
- `Guardrails`: `check_input_guardrails` and `check_output_guardrails`, as functions, with their lemmas.
- `Oracles`: the services, and the `Call` record of which service was called with what.
- `WebContext`: `_fetch_and_extract_web_content` and `_format_docs` as functions.
- `Pipeline`: `process_query` as a function, with the routing lemmas.
- `Agent`: the `MathAgent` class. Its constructor fixes the capabilities. Its
  methods `FetchAndExtractWebContent` and `ProcessQuery` follow the source's
  loop and its staged updates of `final_response` and `retrieved_docs`, and are
  proved equal to the functions above.

The long fixed messages are written in the Dafny source as concatenations of
short literals. Their values are the source's strings. Splitting them lets the
absence of privacy keywords be proved piece by piece, using one fact: each
privacy keyword contains one of the adjacent letter pairs "sw", "cr" or "ci".

## Model

| member | source | states |
|---|---|---|
| Guardrails.CheckInput | src/guardrails.py:11-61 | a query is accepted exactly when its lower-cased form holds no privacy keyword and the topic is allowed; accepted exactly when the message is "Input is valid." |
| Guardrails.PrivacyShortCircuits | src/guardrails.py:16-23 | a privacy keyword yields the fixed privacy refusal whatever the classifier would say; that the classifier is then not called is stated by `Pipeline.GateCalls` |
| Guardrails.ClassifierDecidesTopic | src/guardrails.py:26-37 | with a classifier reply, the verdict is safe exactly when "yes" occurs in the lower-cased reply (stripping cannot change that) |
| Guardrails.KeywordFallbackDecidesTopic | src/guardrails.py:39-45 | when the classifier fails, the verdict is safe exactly when a topic word or a fallback indicator occurs in the lower-cased query |
| Guardrails.RejectedTopicMessage | src/guardrails.py:48-58 | a disallowed topic gets the greeting when any greeting occurs, and the scope refusal otherwise |
| Guardrails.GreetingMatchesInsideWords | src/guardrails.py:50-54 | the greeting test is a substring test: every rejected query whose lower-cased form contains "this" gets the greeting, because "hi" occurs inside "this" |
| Guardrails.CheckInputIgnoresCase | src/guardrails.py:16 | for the same classifier reply, the verdict on a query equals that on its lower-cased form (the classifier sees the original query, so its reply may differ) |
| Guardrails.TopicAllowed | src/guardrails.py:26-45 | transcribes the topic check: with a reply, "yes" occurs in the stripped, lower-cased reply; when the classifier raised, a topic word or a fallback indicator occurs in the lower-cased query |
| Guardrails.CheckOutput | src/guardrails.py:63-88 | the response is safe exactly when it holds no privacy keyword; the message is the response unchanged when safe, and the fixed refusal otherwise |
| Guardrails.RefusalHeuristicIsAdvisory | src/guardrails.py:77-88 | a response flagged by the refusal heuristic but free of privacy keywords passes unchanged |
| Guardrails.PotentialRefusal | src/guardrails.py:78-79 | transcribes the refusal heuristic: a refusal phrase occurs in the lower-cased response and the response is shorter than 150 characters |
| Guardrails.OutputNeverMentionsPrivacy | src/guardrails.py:68-88 | no message leaving the output check holds a privacy keyword |
| Guardrails.OutputCheckIdempotent | src/guardrails.py:71-75 | re-checking the output check's message returns it unchanged and safe |
| Guardrails.InputPrivacyMessageIsClean | src/guardrails.py:21 | the input privacy refusal holds no privacy keyword |
| Guardrails.GreetingMessageIsClean | src/guardrails.py:51 | the greeting holds no privacy keyword |
| Guardrails.ScopeMessageIsClean | src/guardrails.py:56 | the scope refusal holds no privacy keyword |
| Guardrails.OutputPrivacyMessageIsClean | src/guardrails.py:73 | the output privacy refusal holds no privacy keyword |
| Text.Strip | src/guardrails.py:35 | `strip()` gives a slice with no whitespace at either end, and only whitespace is cut away around it |
| Text.StripLowerKeepsWord | src/guardrails.py:35-37 | a word without whitespace occurs in the stripped, lower-cased text exactly when it occurs in the lower-cased text |
| Pipeline.GateCalls | src/guardrails.py:18-34 | the classifier is called exactly when the query holds no privacy keyword, and nothing else is called by the gate |
| WebContext.Context | src/agent.py:96-141 | transcribes the web-context builder: the not-configured sentinel without a search tool, the error sentinel when the search raised, the no-results sentinel with no blocks, and otherwise the blocks joined by the separator |
| WebContext.WebCalls | src/agent.py:98-103 | without a search tool nothing is called; otherwise the first call is the web search |
| WebContext.WebCallsAreSearchesAndFetches | src/agent.py:98-141 | the web-context builder calls only the search and the page fetcher |
| WebContext.FetchCallsAreFetches | src/agent.py:108-114 | the loop fetches exactly the pages of the results that have a url: every fetch is of some result's non-empty url, and every result with a url is fetched |
| WebContext.Blocks | src/agent.py:106-130 | there are at most as many blocks as search results |
| WebContext.BlocksConcat | src/agent.py:107-130 | blocks keep the order of the search results |
| WebContext.BlocksEmptyIff | src/agent.py:129-135 | there are no blocks exactly when every result has neither a url nor a snippet |
| WebContext.SingleResultBlocks | src/agent.py:108-130 | the block of a url result is the fetched text truncated to 1500 characters with "..." when the fetch succeeds, and the snippet block when it fails; a url-less result gives the snippet block when the snippet is non-empty, and is skipped otherwise |
| WebContext.FetchedBlockBounded | src/agent.py:121 | a fetched block keeps exactly the first min(1500, length) characters of the page |
| WebContext.ContextHoldsEveryBlock | src/agent.py:137 | with at least one block, the context is the blocks joined by "\n\n---\n\n" and holds every block |
| WebContext.NoUsableResultGivesSentinel | src/agent.py:133-135 | with no usable result, the context is the no-results sentinel |
| WebContext.SnippetReachesContext | src/agent.py:129-137 | whatever occurs in the snippet of a url-less result occurs in the context |
| WebContext.FormatDocs | src/agent.py:93-94 | transcribes `_format_docs`: the documents' page contents joined by "\n\n" |
| WebContext.FormatDocsHoldsEveryDoc | src/agent.py:93-94 | the formatted knowledge-base context holds every document's text |
| Pipeline.Process | src/agent.py:144-223 | the run is routed to the rejection exactly when the input gate rejects; `process_query` raises only on the no-answer route |
| Pipeline.AfterGate | src/agent.py:159-223 | after the gate the run is never a rejection, and it raises only on the no-answer route |
| Pipeline.WebAnswer | src/agent.py:196-213 | the web stage ends on the web route exactly when the context holds no marker and the web chain succeeds, with that chain's reply; otherwise on the no-answer route with the no-answer chain's outcome; with a search tool its first call is the search |
| Pipeline.WebAnswerCalls | src/agent.py:196-213 | the web stage calls only the search, the page fetcher and the two chains |
| Pipeline.RejectedQueriesStopAtGate | src/agent.py:149-151 | a rejected query gets the gate's message, one of the three refusals; at most the classifier is called |
| Pipeline.PrivacyQueriesMakeNoCalls | src/agent.py:149-151 | a query with a privacy keyword gets the privacy refusal and makes no call at all |
| Pipeline.KnowledgeStage | src/agent.py:161-194 | transcribes the knowledge-base stage: the similarity search, the strict threshold test on the best distance, the top-k retrieval and the RAG chain, ending answered, stuck with the default apology, or falling through to web search |
| Pipeline.NoContent | src/agent.py:201 | transcribes the no-content test: one of the three markers occurs in the web context |
| Pipeline.KnowledgeRouteIff | src/agent.py:163-180 | the knowledge base answers exactly when a retriever exists, the best distance is strictly below the threshold and both retrieval and the RAG chain succeed; the answer is then the RAG answer after the output gate |
| Pipeline.KnowledgeBaseSkipped | src/agent.py:163-197 | with no retriever, a failed or empty similarity search, or a distance at or above the threshold, nothing is retrieved, the RAG chain is not called, and web search runs when configured |
| Pipeline.ThresholdIsStrict | src/agent.py:171 | a distance equal to the threshold does not reach the knowledge-base route |
| Pipeline.RagFailureFallsThroughToWeb | src/agent.py:178-186 | a failing RAG chain leads to the web stage, whose answer is returned, so the error text is never returned |
| Pipeline.RetrieveFailureGivesApology | src/agent.py:172-175 | a failing top-k retrieval after the best document was kept skips web search and returns the default apology unchanged |
| Pipeline.DefaultApologyIsClean | src/agent.py:159 | the default apology holds no privacy keyword, so the output gate keeps it |
| Pipeline.SentinelsAreNoContent | src/agent.py:201 | each of the three sentinels satisfies the no-content substring test |
| Pipeline.SentinelsGoToNoAnswer | src/agent.py:197-204 | a missing search tool, a failed search or no usable result leads to the no-answer chain and never to the web chain |
| Pipeline.NoContentSkipsWebChain | src/agent.py:201-204 | a context holding a marker goes to the no-answer chain without calling the web chain |
| Pipeline.MarkerInSnippetGoesToNoAnswer | src/agent.py:201 | real content mentioning a marker also sends the query to the no-answer chain |
| Pipeline.WebChainFailureFallsBack | src/agent.py:208-213 | a failing web chain falls back to the no-answer chain, called right after it |
| Pipeline.WebRouteIff | src/agent.py:197-210 | `process_query` answers from the web chain exactly when the input is accepted, the knowledge base fell through, the web context holds no marker and the web chain succeeds; the answer is then that reply after the output gate |
| Pipeline.FailureIffNoAnswerChainFails | src/agent.py:204-213 | `process_query` raises exactly when the no-answer chain is reached and fails |
| Pipeline.AnswerNeverMentionsPrivacy | src/agent.py:216-223 | every returned answer holds no privacy keyword and would pass the output check unchanged |
| Agent.MathAgent.constructor | src/agent.py:18-32 | the retriever exists exactly when the vector store loaded, and the search tool exactly when a Tavily key is set |
| Agent.MathAgent.FetchAndExtractWebContent | src/agent.py:96-141 | the loop's context and calls equal the web-context function's |
| Agent.MathAgent.KnowledgeBaseStage | src/agent.py:161-194 | `retrieved_docs` ends empty exactly when web search must run, and `final_response` is the RAG answer or the default apology accordingly |
| Agent.MathAgent.WebSearchStage | src/agent.py:196-213 | the new `final_response` and the calls equal the web stage's |
| Agent.MathAgent.ProcessQuery | src/agent.py:144-223 | the returned string and the calls equal those of `Process` |

## Left out

- Logging (every `logger` call and `src/utils.py`) has no effect on results and is not modelled. This includes the refusal heuristic's warning, whose condition is `Guardrails.PotentialRefusal`.
- The prompt texts, the LangChain wiring and the language model are left out. Each chain is an outcome-valued function of what it is given.
- The RAG chain is modelled as receiving the formatted context and the query. The source passes it a dict, which its first step hands to the retriever.
- The topic classifier's reply is a function of the query. The prompt built around the query is not modelled.
- Tavily, `requests.get` and BeautifulSoup are left out. The extracted page text is an outcome-valued function of the url, and both exception types give `Failed`.
- `MAX_WEB_RESULTS` is not modelled. It is a parameter of the search tool, and the model takes whatever result list the tool returns.
- A result's url is modelled as a string, where "" means missing. This matches Python's `if url:` for a missing, `None` or empty url.
- A result whose `content` key holds `None` is not modelled. The snippet is a string, "" when missing.
- Text.Lower: maps only ASCII `A`-`Z`, while Python's `lower()` covers all of Unicode.
- Text.IsSpace: recognises only ASCII and Latin-1 whitespace, while Python's `strip()` covers all of Unicode.
- The constructor's `ValueError` without a Google API key is not modelled. API-key loading from the environment is not modelled either. Capabilities are booleans.
- `app.py` (the Streamlit user interface and the feedback file) is not part of this model.
- `src/vector_store.py` (CSV loading, embeddings, building and loading the index) is not part of this model. The similarity search and the retriever are oracles.
- The source's `process_query` is one method. Here its knowledge-base and web stages are the helper methods `KnowledgeBaseStage` and `WebSearchStage`, and the locals pass between them unchanged.
