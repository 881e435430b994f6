/** `MathAgent._fetch_and_extract_web_content` as a function of the search
    outcome and the page fetcher: one labelled block per usable search result,
    in result order, joined by a separator, or one of three sentinel strings. */
module WebContext {
  import opened Outcomes
  import opened Text
  import opened Oracles

  // The three sentinels of agent.py:100, 135 and 141, each split in two so
  // the no-content markers can be read off as prefixes.
  const NotConfigured: string := "Web search is not configured" + "."
  const NoResults: string := "No relevant information found" + " in web search results."
  const SearchError: string := "An error occurred" + " during web search."

  const Separator: string := "\n\n---\n\n"

  /** Characters of a fetched page kept in its block. */
  const PageLimit: nat := 1500

  /** `f"Source: {url}\nContent:\n{text[:1500]}..."`. */
  function FetchedBlock(url: string, text: string): string
  {
    "Source: " + url + "\nContent:\n" + Take(text, PageLimit) + "..."
  }

  /** `f"Source: {url}\nContent Snippet:\n{content_snippet}"`. */
  function SnippetBlock(url: string, snippet: string): string
  {
    "Source: " + url + "\nContent Snippet:\n" + snippet
  }

  /** `f"Source: Search Result Snippet\nContent:\n{content_snippet}"`. */
  function ResultSnippetBlock(snippet: string): string
  {
    "Source: Search Result Snippet\nContent:\n" + snippet
  }

  /** The block one search result contributes, if any. */
  function Block(r: SearchResult, fetch: string -> Outcome<string>): Option<string>
  {
    if r.url != "" then
      match fetch(r.url)
      case Ok(text) => Some(FetchedBlock(r.url, text))
      case Failed => Some(SnippetBlock(r.url, r.snippet))
    else if r.snippet != "" then Some(ResultSnippetBlock(r.snippet))
    else None
  }

  function BlockList(b: Option<string>): seq<string>
  {
    match b
    case Some(x) => [x]
    case None => []
  }

  /** The `extracted_content` list after the loop over `results`. */
  function Blocks(results: seq<SearchResult>, fetch: string -> Outcome<string>): (bs: seq<string>)
    ensures |bs| <= |results|
    decreases |results|
  {
    if |results| == 0 then []
    else Blocks(results[..|results| - 1], fetch) + BlockList(Block(results[|results| - 1], fetch))
  }

  /** The pages the loop over `results` fetches, in order. */
  function FetchCalls(results: seq<SearchResult>): (calls: seq<Call>)
    ensures |calls| <= |results|
    decreases |results|
  {
    if |results| == 0 then []
    else
      var r := results[|results| - 1];
      FetchCalls(results[..|results| - 1]) + (if r.url != "" then [FetchPage(r.url)] else [])
  }

  /** The returned web context, given whether a search tool is configured, the
      outcome of the search and the page fetcher. */
  function Context(configured: bool, search: Outcome<seq<SearchResult>>, fetch: string -> Outcome<string>): string
  {
    if !configured then NotConfigured
    else
      match search
      case Failed => SearchError
      case Ok(results) =>
        var bs := Blocks(results, fetch);
        if |bs| == 0 then NoResults else Join(Separator, bs)
  }

  /** The calls the web-context builder makes. */
  function WebCalls(query: string, configured: bool, search: Outcome<seq<SearchResult>>): (calls: seq<Call>)
    ensures configured <==> |calls| > 0
    ensures configured ==> calls[0] == WebSearch(query)
  {
    if !configured then []
    else
      match search
      case Failed => [WebSearch(query)]
      case Ok(results) => [WebSearch(query)] + FetchCalls(results)
  }

  /** Python's `"\n\n".join(doc.page_content for doc in docs)` (`_format_docs`). */
  function FormatDocs(docs: seq<Doc>): string
  {
    Join("\n\n", seq(|docs|, i requires 0 <= i < |docs| => docs[i].pageContent))
  }

  // ---------------------------------------------------------------------------
  // Lemmas

  /** Blocks keep the order of the search results. */
  lemma {:induction false} BlocksConcat(a: seq<SearchResult>, b: seq<SearchResult>, fetch: string -> Outcome<string>)
    ensures Blocks(a + b, fetch) == Blocks(a, fetch) + Blocks(b, fetch)
    decreases |b|
  {
    if |b| == 0 {
      assert a + b == a;
    } else {
      var b' := b[..|b| - 1];
      assert (a + b)[..|a + b| - 1] == a + b';
      assert (a + b)[|a + b| - 1] == b[|b| - 1];
      BlocksConcat(a, b', fetch);
    }
  }

  /** One more result adds its own block and fetch, if any. */
  lemma BlocksStep(results: seq<SearchResult>, i: nat, fetch: string -> Outcome<string>)
    requires i < |results|
    ensures Blocks(results[..i + 1], fetch) == Blocks(results[..i], fetch) + BlockList(Block(results[i], fetch))
    ensures FetchCalls(results[..i + 1]) ==
      FetchCalls(results[..i]) + (if results[i].url != "" then [FetchPage(results[i].url)] else [])
  {
    assert results[..i + 1][..i] == results[..i];
  }

  /** The fetched pages follow the order of the search results too. */
  lemma {:induction false} FetchCallsConcat(a: seq<SearchResult>, b: seq<SearchResult>)
    ensures FetchCalls(a + b) == FetchCalls(a) + FetchCalls(b)
    decreases |b|
  {
    if |b| == 0 {
      assert a + b == a;
    } else {
      var b' := b[..|b| - 1];
      assert (a + b)[..|a + b| - 1] == a + b';
      assert (a + b)[|a + b| - 1] == b[|b| - 1];
      FetchCallsConcat(a, b');
    }
  }

  /** The loop fetches exactly the pages of the results that have a url: every
      fetch is of some result's url, and every result with a url is fetched. */
  lemma {:induction false} FetchCallsAreFetches(results: seq<SearchResult>)
    ensures forall c :: c in FetchCalls(results) ==>
      c.FetchPage? && c.url != "" && exists i :: 0 <= i < |results| && results[i].url == c.url
    ensures forall i :: 0 <= i < |results| && results[i].url != "" ==> FetchPage(results[i].url) in FetchCalls(results)
    decreases |results|
  {
    if |results| > 0 {
      var front := results[..|results| - 1];
      FetchCallsAreFetches(front);
      assert forall i :: 0 <= i < |front| ==> front[i] == results[i];
    }
  }

  /** The web-context builder calls the search and the page fetcher, nothing else. */
  lemma WebCallsAreSearchesAndFetches(query: string, configured: bool, search: Outcome<seq<SearchResult>>)
    ensures forall c :: c in WebCalls(query, configured, search) ==> c.WebSearch? || c.FetchPage?
  {
    if configured && search.Ok? {
      FetchCallsAreFetches(search.value);
    }
  }

  /** No block at all exactly when every result lacks both a url and a snippet. */
  lemma {:induction false} BlocksEmptyIff(results: seq<SearchResult>, fetch: string -> Outcome<string>)
    ensures |Blocks(results, fetch)| == 0 <==>
      forall i :: 0 <= i < |results| ==> results[i].url == "" && results[i].snippet == ""
    decreases |results|
  {
    if |results| > 0 {
      var front := results[..|results| - 1];
      BlocksEmptyIff(front, fetch);
      assert forall i :: 0 <= i < |front| ==> front[i] == results[i];
    }
  }

  /** A result with a url gives the fetched block or, when fetching fails, the
      snippet block; a url-less result gives its snippet block when the snippet
      is non-empty, and nothing otherwise. */
  lemma SingleResultBlocks(r: SearchResult, fetch: string -> Outcome<string>)
    ensures r.url != "" && fetch(r.url).Ok? ==>
      Blocks([r], fetch) == ["Source: " + r.url + "\nContent:\n" + Take(fetch(r.url).value, 1500) + "..."]
    ensures r.url != "" && fetch(r.url).Failed? ==>
      Blocks([r], fetch) == ["Source: " + r.url + "\nContent Snippet:\n" + r.snippet]
    ensures r.url == "" && r.snippet != "" ==>
      Blocks([r], fetch) == ["Source: Search Result Snippet\nContent:\n" + r.snippet]
    ensures r.url == "" && r.snippet == "" ==> Blocks([r], fetch) == []
  {
    assert [r][..0] == [];
  }

  /** A fetched block keeps at most 1500 characters of the page, and exactly its
      first ones. */
  lemma FetchedBlockBounded(url: string, text: string)
    ensures |FetchedBlock(url, text)| <= |url| + 1500 + 21
    ensures |text| >= 1500 ==> FetchedBlock(url, text) == "Source: " + url + "\nContent:\n" + text[..1500] + "..."
    ensures |text| < 1500 ==> FetchedBlock(url, text) == "Source: " + url + "\nContent:\n" + text + "..."
  {
  }

  /** With at least one block, the context is the blocks joined by the separator
      and holds every block. */
  lemma ContextHoldsEveryBlock(results: seq<SearchResult>, fetch: string -> Outcome<string>, k: nat)
    requires k < |Blocks(results, fetch)|
    ensures Context(true, Ok(results), fetch) == Join(Separator, Blocks(results, fetch))
    ensures Contains(Context(true, Ok(results), fetch), Blocks(results, fetch)[k])
  {
    JoinContainsPart(Separator, Blocks(results, fetch), k);
  }

  /** Whatever occurs in the snippet of a url-less result occurs in the context. */
  lemma SnippetReachesContext(results: seq<SearchResult>, fetch: string -> Outcome<string>, i: nat, p: string)
    requires i < |results| && results[i].url == "" && |p| > 0 && Contains(results[i].snippet, p)
    ensures Contains(Context(true, Ok(results), fetch), p)
  {
    var r := results[i];
    assert r.snippet != "" by {
      var j: nat :| j <= |r.snippet| && MatchesAt(r.snippet, p, j);
    }
    var before := Blocks(results[..i], fetch);
    var block := ResultSnippetBlock(r.snippet);
    assert results == results[..i] + [r] + results[i + 1..];
    BlocksConcat(results[..i] + [r], results[i + 1..], fetch);
    BlocksConcat(results[..i], [r], fetch);
    SingleResultBlocks(r, fetch);
    assert Blocks(results, fetch)[|before|] == block;
    ContextHoldsEveryBlock(results, fetch, |before|);
    ContainsInfix("Source: Search Result Snippet\nContent:\n", r.snippet, "", p);
    assert "Source: Search Result Snippet\nContent:\n" + r.snippet + "" == block;
    ContainsTrans(Context(true, Ok(results), fetch), block, p);
  }

  /** With no usable result, the context is the no-results sentinel. */
  lemma NoUsableResultGivesSentinel(results: seq<SearchResult>, fetch: string -> Outcome<string>)
    requires forall i :: 0 <= i < |results| ==> results[i].url == "" && results[i].snippet == ""
    ensures Context(true, Ok(results), fetch) == NoResults
  {
    BlocksEmptyIff(results, fetch);
  }

  /** `_format_docs` keeps every document's text. */
  lemma FormatDocsHoldsEveryDoc(docs: seq<Doc>, k: nat)
    requires k < |docs|
    ensures Contains(FormatDocs(docs), docs[k].pageContent)
  {
    JoinContainsPart("\n\n", seq(|docs|, i requires 0 <= i < |docs| => docs[i].pageContent), k);
  }
}
