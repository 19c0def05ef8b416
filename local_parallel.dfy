/** `partition_content` as it stands in local_parallel.py: the batch
    assembler with the empty-input guard, positional article letters and the
    `<doc>`-delimited full text. */
module LocalParallel {
  import opened Wrappers
  import opened Strings
  import opened Extraction

  /** One entry of `individual_results`. */
  datatype LetteredRecord = LetteredRecord(
    link: string,
    title: string,
    description: string,
    content: string,
    articleLetter: char)

  /** The dictionary `partition_content` returns. */
  datatype Batch = Batch(fullText: string, individualResults: seq<LetteredRecord>)

  /** `full_text` of a batch with no organic results. */
  const NoResults: string := "No organic results found."

  /** Positions whose letter `chr(65 + index)` is a character below the
      surrogate range, which is where a Dafny `char` can stand for it. */
  const LetterCapacity: nat := 0xD800 - 65

  /** `chr(65 + index)`: 'A' for the first item, 'B' for the second, ... */
  function ArticleLetter(index: nat): char
    requires index < LetterCapacity
  {
    (65 + index) as char
  }

  /** Different positions get different letters, whatever the items hold. */
  lemma ArticleLettersDistinct(i: nat, j: nat)
    requires i < LetterCapacity && j < LetterCapacity
    ensures ArticleLetter(i) == ArticleLetter(j) <==> i == j
  {
  }

  /** The letters are the capitals 'A'..'Z' for the first 26 positions only;
      the 27th item gets '[' and later ones further punctuation and lower case. */
  lemma ArticleLetterAlphabetic(index: nat)
    requires index < LetterCapacity
    ensures 'A' <= ArticleLetter(index) <= 'Z' <==> index < 26
  {
  }

  /** The block `<doc>\nArticle Letter: {L}\n{title}\n{description}\n{content}\n</doc>`. */
  function DocBlock(r: LetteredRecord): string {
    "<doc>\nArticle Letter: " + [r.articleLetter] + "\n" + r.title + "\n" + r.description + "\n"
      + r.content + "\n</doc>"
  }

  function DocBlocks(records: seq<LetteredRecord>): seq<string> {
    seq(|records|, k requires 0 <= k < |records| => DocBlock(records[k]))
  }

  /** `"\n".join` of the records' blocks. */
  function FullText(records: seq<LetteredRecord>): string {
    Join("\n", DocBlocks(records))
  }

  /** The full text holds the records' blocks in record order: block `k`
      stands at its offset, one newline follows it unless it is last, and the
      last block ends the text. */
  lemma FullTextInOrder(records: seq<LetteredRecord>, k: nat)
    requires k < |records|
    ensures var o := Offset("\n", DocBlocks(records), k);
            o + |DocBlock(records[k])| <= |FullText(records)|
            && FullText(records)[o..o + |DocBlock(records[k])|] == DocBlock(records[k])
    ensures k + 1 < |records| ==>
              var e := Offset("\n", DocBlocks(records), k) + |DocBlock(records[k])|;
              e + 1 <= |FullText(records)|
              && FullText(records)[e..e + 1] == "\n"
              && Offset("\n", DocBlocks(records), k + 1) == e + 1
    ensures k + 1 == |records| ==>
              |FullText(records)| == Offset("\n", DocBlocks(records), k) + |DocBlock(records[k])|
  {
    JoinLayout("\n", DocBlocks(records), k);
    if k + 1 < |records| {
      OffsetStep("\n", DocBlocks(records), k);
    }
  }

  /** A batch with results cannot be mistaken for the empty batch: its full
      text opens with the first record's `<doc>` block. */
  lemma FullTextNotNoResults(records: seq<LetteredRecord>)
    requires records != []
    ensures StartsWith(FullText(records), DocBlock(records[0]))
    ensures FullText(records) != NoResults
  {
  }

  /** `partition_content(search_results)`. An empty or absent `organic` list
      gives the fixed empty batch. Otherwise every item yields exactly one
      record, in input order, whatever happened to its fetch: record `k`
      carries the letter of position `k`, the item's metadata with "" for an
      absent key, and the content the item's `try`/`except` produced; the
      full text is the records' blocks joined by newlines. */
  method PartitionContent(web: Web, response: SearchResponse) returns (batch: Batch)
    requires |OrganicOf(response)| <= LetterCapacity
    ensures response.organic.None? ==> batch == Batch(NoResults, [])
    ensures response.organic == Some([]) ==> batch == Batch(NoResults, [])
    ensures |batch.individualResults| == |OrganicOf(response)|
    ensures forall k :: 0 <= k < |batch.individualResults| ==>
              var r, item := batch.individualResults[k], OrganicOf(response)[k];
              r.articleLetter == ArticleLetter(k)
              && r.link == item.link.GetOr("")
              && r.title == item.title.GetOr("")
              && r.description == item.description.GetOr("")
              && r.content == ItemContent(web, item, Some(FetchTimeout))
    ensures OrganicOf(response) != [] ==> batch.fullText == FullText(batch.individualResults)
  {
    var organic := OrganicOf(response);
    if organic == [] {
      return Batch(NoResults, []);
    }
    var endResult: seq<LetteredRecord> := [];
    for index := 0 to |organic|
      invariant |endResult| == index
      invariant forall k :: 0 <= k < index ==>
                  var r, item := endResult[k], organic[k];
                  r.articleLetter == ArticleLetter(k)
                  && r.link == item.link.GetOr("")
                  && r.title == item.title.GetOr("")
                  && r.description == item.description.GetOr("")
                  && r.content == ItemContent(web, item, Some(FetchTimeout))
    {
      var item := organic[index];
      // the try/except: `link` is looked up inside it, `content` set by it
      var content := ItemContent(web, item, Some(FetchTimeout));
      var letter := ArticleLetter(index);
      // `link` is set again after the try, with "" when the key is absent
      var link := item.link.GetOr("");
      var title := item.title.GetOr("");
      var description := item.description.GetOr("");
      endResult := endResult + [LetteredRecord(link, title, description, content, letter)];
    }
    batch := Batch(FullText(endResult), endResult);
  }
}
