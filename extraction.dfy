/** The per-item work inside the `try` of `partition_content`: fetch the
    result's page, choose the reader service for HTML or the document
    partitioner otherwise, then truncate and regroup the text; and the
    `except` clauses that turn a failure into a sentinel content string.

    Network access and the third-party extraction library are not modelled:
    they are the fields of `Web`, total functions the caller supplies, each
    answering one call with either a value or the exception it raised. */
module Extraction {
  import opened Wrappers
  import opened Strings
  import opened Truncation

  /** The exception classes the `except` clauses tell apart:
      `requests.exceptions.Timeout`, and everything else. */
  datatype Failure = Timeout | OtherError

  /** The outcome of one call that may raise. */
  datatype Attempt<+T> = Done(value: T) | Raised(failure: Failure)

  /** One element of the search response's `organic` list; a key that may be
      absent from the item's dictionary is an `Option`. */
  datatype SearchItem = SearchItem(link: Option<string>, title: Option<string>, description: Option<string>)

  /** The search response; `organic` is `None` when the key is absent. */
  datatype SearchResponse = SearchResponse(organic: Option<seq<SearchItem>>)

  /** `search_results.get('organic', [])`. */
  function OrganicOf(response: SearchResponse): seq<SearchItem> {
    response.organic.GetOr([])
  }

  /** The outside world of one batch. Every call takes the URL and the timeout
      in seconds that the source passes (`None` when it passes none).
      - `pageContentType`: `requests.get(link, ...)` followed by
        `r.headers.get('content-type')`, `None` for a missing header;
      - `readerText`: `requests.get(url, ...).text`;
      - `partitionElements`: the `.text` of each element `partition(url=...)` returns;
      - `groupBrokenParagraphs`: the library's paragraph repair. */
  datatype Web = Web(
    pageContentType: (string, Option<nat>) -> Attempt<Option<string>>,
    readerText: (string, Option<nat>) -> Attempt<string>,
    partitionElements: (string, Option<nat>) -> Attempt<seq<string>>,
    groupBrokenParagraphs: string -> string)

  /** The `timeout=30` of the page fetch, the partitioner and (in one version) the reader call. */
  const FetchTimeout: nat := 30

  /** HTML pages are fetched again through this reader service. */
  const ReaderPrefix: string := "https://r.jina.ai/"

  const HtmlType: string := "text/html"

  /** Content of an item whose fetch timed out. */
  const TimedOut: string := "Timed out"

  /** Content of an item that failed in any other way. */
  const CouldNotAccess: string := "Could not access content"

  /** `'text/html' in content_type`. */
  predicate IsHtml(contentType: string) {
    Contains(contentType, HtmlType)
  }

  /** The HTML path is taken exactly when "text/html" occurs somewhere in the
      content type, whatever surrounds it (parameters such as a charset,
      upper-case variants excepted). */
  lemma IsHtmlIffOccurs(contentType: string)
    ensures IsHtml(contentType) <==> exists i :: OccursAt(contentType, HtmlType, i)
  {
    ContainsIffOccurs(contentType, HtmlType);
  }

  /** The body of the `try` up to the extracted text: the `link` lookup
      (absent: `KeyError`), the page fetch, the content-type test (missing
      header: `TypeError` from `in`), then the reader service for HTML or the
      partitioner's elements joined with newlines otherwise. `readerTimeout`
      is the timeout the version passes to the reader call. */
  function ExtractText(web: Web, item: SearchItem, readerTimeout: Option<nat>): Attempt<string> {
    match item.link
    case None => Raised(OtherError)
    case Some(link) =>
      match web.pageContentType(link, Some(FetchTimeout))
      case Raised(f) => Raised(f)
      case Done(None) => Raised(OtherError)
      case Done(Some(contentType)) =>
        if IsHtml(contentType) then
          web.readerText(ReaderPrefix + link, readerTimeout)
        else
          match web.partitionElements(link, Some(FetchTimeout))
          case Raised(f) => Raised(f)
          case Done(elements) => Done(Join("\n", elements))
  }

  /** The `content` the `try`/`except` leaves in the record. */
  function ItemContent(web: Web, item: SearchItem, readerTimeout: Option<nat>): string {
    match ExtractText(web, item, readerTimeout)
    case Raised(Timeout) => TimedOut
    case Raised(OtherError) => CouldNotAccess
    case Done(text) => web.groupBrokenParagraphs(TruncateContent(text, MaxChars))
  }

  /** The item's extraction succeeded and its repaired text is one of the
      two sentinel strings, so its content looks like a failure. */
  predicate LooksLikeFailure(web: Web, item: SearchItem, readerTimeout: Option<nat>) {
    match ExtractText(web, item, readerTimeout)
    case Done(text) =>
      web.groupBrokenParagraphs(TruncateContent(text, MaxChars)) in {TimedOut, CouldNotAccess}
    case Raised(_) => false
  }

  /** A failing item always gets its sentinel: "Timed out" for a timeout,
      "Could not access content" for any other error. Unless its repaired text
      happens to equal a sentinel, the reverse holds too, so the content tells
      which kind of failure, if any, the item met. */
  lemma SentinelIffFailure(web: Web, item: SearchItem, readerTimeout: Option<nat>)
    ensures ExtractText(web, item, readerTimeout) == Raised(Timeout)
            ==> ItemContent(web, item, readerTimeout) == TimedOut
    ensures ExtractText(web, item, readerTimeout) == Raised(OtherError)
            ==> ItemContent(web, item, readerTimeout) == CouldNotAccess
    ensures !LooksLikeFailure(web, item, readerTimeout) ==>
              (ItemContent(web, item, readerTimeout) == TimedOut
               <==> ExtractText(web, item, readerTimeout) == Raised(Timeout))
              && (ItemContent(web, item, readerTimeout) == CouldNotAccess
                  <==> ExtractText(web, item, readerTimeout) == Raised(OtherError))
  {
  }

  /** An idealised environment in which a `Timeout` can only come from a
      call that was given a timeout (operating-system connect timeouts, which
      `requests` also reports as `Timeout`, are left out). */
  ghost predicate NoTimeoutWithoutLimit(web: Web) {
    (forall url :: web.pageContentType(url, None) != Raised(Timeout))
    && (forall url :: web.readerText(url, None) != Raised(Timeout))
    && (forall url :: web.partitionElements(url, None) != Raised(Timeout))
  }

  /** When the reader call is given no timeout, an HTML item never times out:
      once the page fetch has succeeded, the item either has text or fails
      with some other error. */
  lemma UnlimitedReaderNeverTimesOut(web: Web, item: SearchItem, contentType: string)
    requires NoTimeoutWithoutLimit(web)
    requires item.link.Some?
    requires web.pageContentType(item.link.value, Some(FetchTimeout)) == Done(Some(contentType))
    requires IsHtml(contentType)
    ensures ExtractText(web, item, None) != Raised(Timeout)
  {
  }
}
