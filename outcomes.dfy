/** The results of calls into services the agent cannot see (the language model,
    the similarity index, the web search and the page fetcher). Any exception such a
    call raises is `Failed`; what it carried is only logged by the source. */
module Outcomes {

  datatype Outcome<+T> = Ok(value: T) | Failed

  datatype Option<+T> = None | Some(value: T)
}
