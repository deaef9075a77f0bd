/** The answers of the services the scan handler calls, fixed in advance so
    that the handler becomes a deterministic function of its request, and the
    trace of the calls it makes. */
module Oracles {
  import opened Wrappers
  import opened Json
  import opened Extract

  /** An analyzer's chat completion: the call threw, or it replied with the
      first choice's message content (None for a null content or no choice). */
  datatype AnalyzerReply = Threw | Replied(content: Option<string>)

  /** One external call made while a scan request is handled. */
  datatype Call =
    | Classifier
    | ToolAnalyzer
    | MaterialAnalyzer
    | BuildingAnalyzer
    | Lens
    | TitleCleaner
    | Search(query: string)

  /** The answers of every service for one request.
      classifier: the classifier's text, None when the call fails;
      serpKeySet: whether SERP_API_KEY is a non-empty string;
      lens: the Google Lens response body, None when fetching it fails;
      cleaner: the title cleaner's text, None when the call fails or has no text;
      search: the SerpAPI response body for a query, None when the call fails;
      parse: JSON.parse. */
  datatype Oracles = Oracles(
    classifier: Option<string>,
    tool: AnalyzerReply,
    material: AnalyzerReply,
    building: AnalyzerReply,
    serpKeySet: bool,
    lens: Option<Json>,
    cleaner: Option<string>,
    search: string -> Option<Json>,
    parse: Parser)
}
