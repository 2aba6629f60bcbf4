/** The Previous and Next buttons shared by the paged owner lists. */
module Pager {

  /** `Math.max(1, page - 1)`: one page back, never below the first. */
  function PreviousPage(page: int): (r: int)
    ensures r >= 1
    ensures page > 1 ==> r == page - 1
    ensures page <= 1 ==> r == 1
  {
    if page - 1 > 1 then page - 1 else 1
  }

  /** `Math.min(totalPages, page + 1)`: one page on, never past the last. */
  function NextPage(page: int, totalPages: int): (r: int)
    ensures r <= totalPages
    ensures page < totalPages ==> r == page + 1
    ensures page >= totalPages ==> r == totalPages
  {
    if totalPages < page + 1 then totalPages else page + 1
  }

  /** A page in `[1, totalPages]` stays there under Previous and Next, and they move it the right way. */
  lemma PageControlsStayInRange(page: int, totalPages: int)
    requires 1 <= page <= totalPages
    ensures 1 <= PreviousPage(page) <= totalPages
    ensures 1 <= NextPage(page, totalPages) <= totalPages
    ensures PreviousPage(page) <= page <= NextPage(page, totalPages)
  {
  }
}
