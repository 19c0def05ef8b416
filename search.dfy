/** `partition_content` as it stands in search.py: the older assembler,
    without the empty-input guard or article letters, whose records hold a
    `link` key only when the item had one, and whose full text separates the
    blocks with a line of '=' characters. */
module Search {
  import opened Wrappers
  import opened Strings
  import opened Extraction

  /** One entry of `individual_results`; `link` is `None` when the dictionary
      has no `link` key. */
  datatype PlainRecord = PlainRecord(
    link: Option<string>,
    title: string,
    description: string,
    content: string)

  /** The dictionary `partition_content` returns. */
  datatype Batch = Batch(fullText: string, individualResults: seq<PlainRecord>)

  /** The separator between two blocks of the full text. */
  const Separator: string := "\n\n========================\n\n"

  /** The block `{title}\n{description}\n{content}`. */
  function PlainBlock(r: PlainRecord): string {
    r.title + "\n" + r.description + "\n" + r.content
  }

  function PlainBlocks(records: seq<PlainRecord>): seq<string> {
    seq(|records|, k requires 0 <= k < |records| => PlainBlock(records[k]))
  }

  /** The blocks joined with the separator. */
  function FullText(records: seq<PlainRecord>): string {
    Join(Separator, PlainBlocks(records))
  }

  /** The full text holds the records' blocks in record order: block `k`
      stands at its offset, the separator follows it unless it is last, and
      the last block ends the text. */
  lemma FullTextInOrder(records: seq<PlainRecord>, k: nat)
    requires k < |records|
    ensures var o := Offset(Separator, PlainBlocks(records), k);
            o + |PlainBlock(records[k])| <= |FullText(records)|
            && FullText(records)[o..o + |PlainBlock(records[k])|] == PlainBlock(records[k])
    ensures k + 1 < |records| ==>
              var e := Offset(Separator, PlainBlocks(records), k) + |PlainBlock(records[k])|;
              e + |Separator| <= |FullText(records)|
              && FullText(records)[e..e + |Separator|] == Separator
              && Offset(Separator, PlainBlocks(records), k + 1) == e + |Separator|
    ensures k + 1 == |records| ==>
              |FullText(records)| == Offset(Separator, PlainBlocks(records), k) + |PlainBlock(records[k])|
  {
    JoinLayout(Separator, PlainBlocks(records), k);
    if k + 1 < |records| {
      OffsetStep(Separator, PlainBlocks(records), k);
    }
  }

  /** `partition_content(search_results)`. There is no empty-input guard: an
      empty or absent `organic` list gives an empty full text. Every item
      yields exactly one record, in input order: its `link` only when the
      item has one (the key is set inside the `try` and never again), its
      title and description with "" for an absent key, and the content its
      `try`/`except` produced, the reader call passing no timeout. */
  method PartitionContent(web: Web, response: SearchResponse) returns (batch: Batch)
    ensures response.organic.None? ==> batch == Batch("", [])
    ensures response.organic == Some([]) ==> batch == Batch("", [])
    ensures |batch.individualResults| == |OrganicOf(response)|
    ensures forall k :: 0 <= k < |batch.individualResults| ==>
              var r, item := batch.individualResults[k], OrganicOf(response)[k];
              r.link == item.link
              && r.title == item.title.GetOr("")
              && r.description == item.description.GetOr("")
              && r.content == ItemContent(web, item, None)
    ensures batch.fullText == FullText(batch.individualResults)
  {
    var organic := OrganicOf(response);
    var endResult: seq<PlainRecord> := [];
    for index := 0 to |organic|
      invariant |endResult| == index
      invariant forall k :: 0 <= k < index ==>
                  var r, item := endResult[k], organic[k];
                  r.link == item.link
                  && r.title == item.title.GetOr("")
                  && r.description == item.description.GetOr("")
                  && r.content == ItemContent(web, item, None)
    {
      var item := organic[index];
      // `link` is copied only if the lookup inside the try succeeds
      var link: Option<string> := None;
      if item.link.Some? {
        link := Some(item.link.value);
      }
      var content := ItemContent(web, item, None);
      var title := item.title.GetOr("");
      var description := item.description.GetOr("");
      endResult := endResult + [PlainRecord(link, title, description, content)];
    }
    batch := Batch(FullText(endResult), endResult);
  }
}
