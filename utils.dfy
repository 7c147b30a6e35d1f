/** Text helpers shared by the agents. */
module Utils {
  import opened Base
  import opened Strings

  /**
   * `truncate_text`: a text that fits is kept; a longer one is cut to
   * `text[:max_chars - 3]` and marked with "...". With a limit of at least 3
   * the result fits the limit exactly; below 3 the slice bound is negative,
   * counts from the end of the text, and the result is longer than the limit.
   */
  function TruncateText(text: string, maxChars: int): (r: string)
    ensures |text| <= maxChars ==> r == text
    ensures |text| > maxChars ==> r == Take(text, maxChars - 3) + "..."
    ensures |text| > maxChars && maxChars >= 3 ==> |r| == maxChars && r[..maxChars - 3] == text[..maxChars - 3]
    ensures |text| > maxChars && maxChars < 3 ==> |r| == Max(0, |text| + maxChars - 3) + 3 > maxChars
  {
    if |text| <= maxChars then text else Take(text, maxChars - 3) + "..."
  }

  /** With a limit of at least 3, cutting a second time changes nothing. */
  lemma TruncateIdempotent(text: string, maxChars: int)
    requires maxChars >= 3
    ensures TruncateText(TruncateText(text, maxChars), maxChars) == TruncateText(text, maxChars)
  {
  }
}
