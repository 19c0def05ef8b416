/** `truncate_content`, the bound on how much extracted text one search
    result contributes, and a reader for the marker it appends. */
module Truncation {
  import opened Wrappers
  import opened Strings

  /** The default character budget of `truncate_content`. */
  const MaxChars: nat := 10000

  /** The text placed between the kept prefix and the original length. */
  const MarkerHead: string := "... Remaining content truncated. Full length: "

  /** The text that closes the marker. */
  const MarkerTail: string := " characters."

  /** `truncate_content(content, max_chars)`: text within the budget is kept as
      it is; longer text keeps exactly its first `maxChars` characters and gains
      a marker that states the original length in decimal. */
  function TruncateContent(content: string, maxChars: nat): (r: string)
    ensures |content| <= maxChars ==> r == content
    ensures |r| > maxChars <==> |content| > maxChars
    ensures |content| > maxChars ==> r[..maxChars] == content[..maxChars]
  {
    if |content| > maxChars then
      content[..maxChars] + MarkerHead + NatToDecimal(|content|) + MarkerTail
    else
      content
  }

  /** What a consumer of truncated text can recover: the original length, when
      the text is over budget and what follows the budget is exactly a marker
      around a canonical decimal numeral; `None` otherwise. */
  function ReadTruncation(r: string, maxChars: nat): Option<nat> {
    if |r| <= maxChars then None
    else
      var tail := r[maxChars..];
      if |tail| >= |MarkerHead| + |MarkerTail|
         && tail[..|MarkerHead|] == MarkerHead
         && tail[|tail| - |MarkerTail|..] == MarkerTail
         && IsDecimal(tail[|MarkerHead|..|tail| - |MarkerTail|])
      then Some(DecimalValue(tail[|MarkerHead|..|tail| - |MarkerTail|]))
      else None
  }

  /** Truncation is detectable and carries the original length: reading the
      output finds a marker exactly when the input was over budget, and the
      marker states the input's length. */
  lemma TruncationReadBack(content: string, maxChars: nat)
    ensures ReadTruncation(TruncateContent(content, maxChars), maxChars)
            == if |content| > maxChars then Some(|content|) else None
  {
    if |content| > maxChars {
      var digits := NatToDecimal(|content|);
      var tail := MarkerHead + digits + MarkerTail;
      var r := TruncateContent(content, maxChars);
      assert r == content[..maxChars] + tail;
      assert r[maxChars..] == tail;
      assert tail[..|MarkerHead|] == MarkerHead;
      assert tail[|tail| - |MarkerTail|..] == MarkerTail;
      assert tail[|MarkerHead|..|tail| - |MarkerTail|] == digits;
      DecimalRoundTrip(|content|);
    }
  }

  /** Two inputs over budget are truncated to the same text only when they
      share their first `maxChars` characters and have the same length: the
      marker keeps apart texts whose kept prefixes agree. */
  lemma TruncationSeparatesLengths(a: string, b: string, maxChars: nat)
    requires |a| > maxChars && |b| > maxChars
    requires TruncateContent(a, maxChars) == TruncateContent(b, maxChars)
    ensures a[..maxChars] == b[..maxChars] && |a| == |b|
  {
    TruncationReadBack(a, maxChars);
    TruncationReadBack(b, maxChars);
  }
}
