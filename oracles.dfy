/** The services the agent calls but cannot see: the topic classifier of the
    input guardrail, the FAISS index and retriever, the three LangChain chains,
    the Tavily search and the page fetcher. Each is a total function from its
    arguments to an outcome, so a run of the agent is determined once they are
    fixed. */
module Oracles {
  import opened Outcomes

  /** A knowledge-base document; only its text is read. */
  datatype Doc = Doc(pageContent: string)

  /** One entry of `similarity_search_with_score`: a document and its L2 distance. */
  datatype Hit = Hit(doc: Doc, distance: real)

  /** One Tavily result: `url` is `""` when the result has none (Python's `if url:`
      treats a missing and an empty url alike), and `snippet` is its `content`. */
  datatype SearchResult = SearchResult(url: string, snippet: string)

  datatype Services = Services(
    /** The classifier's reply to the topic prompt built from the query. */
    classify: string -> Outcome<string>,
    /** `vector_store.similarity_search_with_score(query, k=1)`. */
    similaritySearch: string -> Outcome<seq<Hit>>,
    /** `retriever.invoke(query)`: the top documents. */
    retrieve: string -> Outcome<seq<Doc>>,
    /** The RAG chain, given the formatted context and the query. */
    ragChain: (string, string) -> Outcome<string>,
    /** `web_search_tool.invoke(query)`. */
    webSearch: string -> Outcome<seq<SearchResult>>,
    /** The text extracted from the page at a url; `Failed` for a request or parse error. */
    fetchPage: string -> Outcome<string>,
    /** The web-grounded chain, given the web context and the query. */
    webChain: (string, string) -> Outcome<string>,
    /** The no-answer chain, given the query. */
    noAnswerChain: string -> Outcome<string>)

  /** A call into one of the services, with its arguments. */
  datatype Call =
    | Classify(query: string)
    | SimilaritySearch(query: string)
    | Retrieve(query: string)
    | RagChain(context: string, query: string)
    | WebSearch(query: string)
    | FetchPage(url: string)
    | WebChain(context: string, query: string)
    | NoAnswerChain(query: string)
}
