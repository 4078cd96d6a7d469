/**
 * `DialogJumpToPage`: the client dialog in which the user types the page
 * of the post list to jump to. The widgets are not modelled: the dialog's
 * state is the typed text and the total page count given to `reset`.
 */
module DialogJumpToPage {
  import opened Wrappers
  import opened Strings

  /**
   * `pageToJumpTo`: text that does not parse as an unsigned number, or
   * parses to 0, gives page 1; a number beyond the last page gives the
   * last page; any other number is the page.
   */
  function PageToJumpTo(text: string, totalPageCount: UInt64): (r: UInt64)
    ensures TryParseUnsigned64(text).None? || TryParseUnsigned64(text).value < 1 ==> r == 1
    ensures TryParseUnsigned64(text).Some? && TryParseUnsigned64(text).value >= 1 ==>
      r == if TryParseUnsigned64(text).value > totalPageCount then totalPageCount else TryParseUnsigned64(text).value
  {
    match TryParseUnsigned64(text)
    case None => 1
    case Some(parsedValue) =>
      if parsedValue < 1 then 1
      else if parsedValue > totalPageCount then totalPageCount
      else parsedValue
  }

  /** `jumpTextChanged`: the Jump button is enabled exactly when the text parses as an unsigned number. */
  predicate JumpEnabled(text: string)
  {
    TryParseUnsigned64(text).Some?
  }

  /** With at least one page, the page jumped to always exists. */
  lemma PageInRange(text: string, totalPageCount: UInt64)
    requires totalPageCount >= 1
    ensures 1 <= PageToJumpTo(text, totalPageCount) <= totalPageCount
  {
  }

  /** The text `reset` shows (the current page in decimal) jumps back to that page when it exists. */
  lemma ResetTextJumpsToCurrentPage(currentPage: UInt64, totalPageCount: UInt64)
    requires 1 <= currentPage <= totalPageCount
    ensures JumpEnabled(NatToString(currentPage))
    ensures PageToJumpTo(NatToString(currentPage), totalPageCount) == currentPage
  {
    ParseNatToString(currentPage);
  }

  /** The button is enabled exactly for the decimal renderings of 64-bit numbers, and for no other text. */
  lemma JumpEnabledMeaning(text: string)
    ensures JumpEnabled(text) <==> IsDigits(text) && DigitsValue(text) <= UINT64_MAX
  {
  }

  /** An enabled button can still give a page other than the number typed: "0" goes to page 1. */
  lemma ZeroJumpsToFirstPage(totalPageCount: UInt64)
    ensures JumpEnabled("0") && PageToJumpTo("0", totalPageCount) == 1
  {
    ParseNatToString(0);
    assert NatToString(0) == "0";
  }
}
