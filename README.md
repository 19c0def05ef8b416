# partition_content: the search-result content assembler

This project models, in Dafny, the content assembler of a research pipeline
that studies renewable-energy power plants. The assembler is
`partition_content`. It takes one search response and walks its `organic`
results. For each result it fetches the page, extracts the text and bounds
its length. It then returns two things: one record per result and a single
`full_text` string for a language model.

The repository holds two versions, and both are modelled:

- `local_parallel.py` is the current one. It returns a fixed text for an
  empty batch, gives each record a positional article letter and wraps each
  record in a `<doc>` block.
- `search.py` is the older one. It has no empty-batch guard and no letters.
  Its records carry `link` only when the item had one, and its blocks are
  separated by a line of `=` characters.

Modules, one per file:

- `Wrappers` (wrappers.dfy): `Option`, for a dictionary key that may be absent.
- `Strings` (strings.dfy): Python's `str(n)`, the substring test `in` and
  `sep.join`. Each has an independent characterisation: a decimal reader
  with both round trips, substring occurrence at an index, and the offset
  layout of a join.
- `Truncation` (truncation.dfy): `truncate_content`, plus a reader that
  finds the truncation marker and the original length it states.
- `Extraction` (extraction.dfy): the body of the per-item `try`/`except`.
  Network calls and the extraction library are the fields of a `Web` value.
  Each field is a total function that answers one call with a value or with
  the exception it raised (`Timeout` or any other error).
- `LocalParallel` (local_parallel.dfy) and `Search` (search.dfy): the two
  assemblers. Each is a method whose `for` loop appends one record per item,
  as the source does. Functions give the full-text layout.

The model follows the code:

- Both versions truncate the extracted text first and repair broken
  paragraphs afterwards. So the exact-prefix and length-marker properties
  hold for `truncate_content`'s output, not for the final `content`.
- The records carry no `truncated` flag and no separate original length.
  The length appears only inside the marker text.
- In search.py the reader-service call passes no timeout. The model passes
  `None` as its timeout there and `Some(30)` in local_parallel.py.
  `Extraction.UnlimitedReaderNeverTimesOut` states the consequence under the
  idealisation `Extraction.NoTimeoutWithoutLimit` (only a call given a
  timeout can raise `Timeout`): then an HTML item in search.py whose page
  fetch succeeded never ends in a timeout.
- A failing item always gets its sentinel content. A page whose repaired
  text equals "Timed out" or "Could not access content" cannot be told
  apart from a failure by its content.

## Model

| member | source | states |
|---|---|---|
| `Strings.NatToDecimal` | local_parallel.py:64 | `str(len(content))` yields a canonical decimal numeral (digits only, no leading zero); it has one digit exactly when the number is below 10 |
| `Strings.DecimalRoundTrip` | local_parallel.py:64 | reading back the numeral `str(n)` wrote gives `n` |
| `Strings.DecimalCanonical` | local_parallel.py:64 | every canonical numeral is `str` of the value it denotes, so the marker's numeral determines the length and the reverse |
| `Strings.ContainsIffOccurs` | local_parallel.py:85 | Python's left-to-right substring test succeeds exactly when the substring occurs at some index |
| `Strings.JoinLayout` | local_parallel.py:103-106 | `sep.join(parts)` is part 0, separator, part 1, ...: each part sits at its offset, a separator follows every part but the last, and the last part ends the string |
| `Strings.OffsetStep` | local_parallel.py:103 | each part's offset is the previous part's offset plus that part's length and one separator |
| `Strings.JoinStartsWithFirst` | local_parallel.py:103 | a non-empty join begins with its first part |
| `Truncation.TruncateContent` | local_parallel.py:59-66 | text of at most `max_chars` characters comes back unchanged; longer text keeps exactly its first `max_chars` characters; the output is over budget exactly when the input was |
| `Truncation.TruncationReadBack` | local_parallel.py:63-65 | the output has a marker after its first `max_chars` characters exactly when the input was over budget, and that marker states the input's length |
| `Truncation.TruncationSeparatesLengths` | search.py:47-54 | two over-budget texts truncate to the same output only if they share the kept prefix and have the same length |
| `Extraction.IsHtmlIffOccurs` | local_parallel.py:84-85 | the HTML path is taken exactly when "text/html" occurs somewhere in the content type |
| `Extraction.SentinelIffFailure` | local_parallel.py:80-95 | an item whose extraction timed out always gets "Timed out", and one that failed in any other way (missing link, missing content-type header, any other exception) always gets "Could not access content"; unless the item's own repaired text equals a sentinel, the content is a sentinel exactly when the matching failure occurred |
| `Extraction.UnlimitedReaderNeverTimesOut` | search.py:66-79 | in the idealised environment where only calls given a timeout raise `Timeout`: with no timeout passed to the reader call, an HTML item whose page fetch succeeded never ends in a timeout |
| `LocalParallel.ArticleLettersDistinct` | local_parallel.py:78 | two positions share a letter only if they are the same position |
| `LocalParallel.ArticleLetterAlphabetic` | local_parallel.py:96 | the letter is a capital 'A'..'Z' exactly for the first 26 positions |
| `LocalParallel.FullTextInOrder` | local_parallel.py:102-106 | `full_text` contains every record's `<doc>` block in record order, a newline between neighbours, and the last block ends the text |
| `LocalParallel.FullTextNotNoResults` | local_parallel.py:70-106 | a non-empty batch's `full_text` starts with its first `<doc>` block and is never the empty-batch text |
| `LocalParallel.PartitionContent` | local_parallel.py:50-108 | an empty or absent `organic` list gives "No organic results found." and no records. Otherwise each item gives exactly one record, in input order, even when it fails. Record `k` has letter `chr(65+k)`, the item's link, title and description ("" when absent) and the item's `try`/`except` content. `full_text` joins the records' blocks with newlines |
| `Search.FullTextInOrder` | search.py:84-88 | `full_text` contains every record's block in record order, with the `=====` separator between neighbours, and the last block ends the text |
| `Search.PartitionContent` | search.py:38-90 | each item gives exactly one record, in input order, so an empty or absent `organic` list gives "" and no records. Record `k` has `link` exactly when item `k` has one, the title and description ("" when absent) and the item's content (reader called without a timeout). `full_text` is the separator join of the blocks |

## Left out

- HTTP requests, the reader service, `unstructured.partition` and `group_broken_paragraphs` are not modelled. They are the fields of `Web`, supplied by the caller. Only the URL and the timeout of each call are represented. The browser header dictionary is not: local_parallel.py:83 and search.py:66 pass it as the second positional argument of `requests.get`, which is `params`.
- `group_broken_paragraphs` is a total function in the model. If it raised in the source, the item would get "Could not access content".
- LocalParallel.PartitionContent: requires at most 55231 organic items. A Dafny `char` cannot hold a surrogate code point, and `chr(65 + index)` reaches the surrogate range at index 55231, that is with 55232 items. Python would produce lone-surrogate letters there, and would raise `ValueError` from index 1114047 on, that is with 1114048 items or more.
- Extraction.UnlimitedReaderNeverTimesOut: operating-system timeouts are not modelled. On Python 3.11 a TCP connect that the operating system gives up with ETIMEDOUT reaches the caller as `requests`' `ConnectTimeout`, a `Timeout`, even for a call given no timeout; so the search.py:69 reader call can end as "Timed out", which the lemma's premise excludes.
- Repeated links: every call's answer is a function of its URL and timeout, so two items of one batch with the same link always get the same content. The source fetches each item anew, and the two fetches can have different outcomes.
- Calls that never return: every field of `Web` is total, so every call returns a value or raises. The search.py reader call without a timeout (search.py:69) can block the whole batch indefinitely; the model does not capture that.
- An `organic` key holding `null` is not modelled (Python raises `TypeError` from `enumerate`). Neither are metadata values that are not strings: an f-string would render `None` as "None".
- The key order of each record dictionary is not modelled; it is visible only in JSON serialisation.
- The `concurrency_limit=10` decorator is not modelled. It bounds parallelism across batches; within a batch the loop is sequential.
- The `tqdm` progress bar in search.py is not modelled.
- `get_search_results` (proxy, query encoding, backoff retry) is not modelled: it is network I/O with a time-based retry policy.
- The language-model scoring calls, the response schemas, the entry points, the file caching, the thread pool, the deployment definitions, the plotting script and the labeling app are not modelled: they are external calls, I/O and UI.
