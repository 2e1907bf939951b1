/** The Prev/Next buttons under both appointment lists. Prev is disabled
    while `page <= 1`, Next while `page >= totalPages`; a click on an
    enabled button moves one page. A click on a disabled button does
    nothing, so a move is the identity there. */
module Pager {

  predicate PrevEnabled(page: int) {
    !(page <= 1)
  }

  predicate NextEnabled(page: int, totalPages: int) {
    !(page >= totalPages)
  }

  /** The page after a click on Prev. */
  function AfterPrev(page: int): (r: int)
    ensures PrevEnabled(page) ==> r == page - 1
    ensures !PrevEnabled(page) ==> r == page
    ensures page >= 1 ==> r >= 1
  {
    if PrevEnabled(page) then page - 1 else page
  }

  /** The page after a click on Next. */
  function AfterNext(page: int, totalPages: int): (r: int)
    ensures NextEnabled(page, totalPages) ==> r == page + 1 && r <= totalPages
    ensures !NextEnabled(page, totalPages) ==> r == page
    ensures r >= page
  {
    if NextEnabled(page, totalPages) then page + 1 else page
  }

  /** From any page in range, both buttons keep the page in range. */
  lemma MovesStayInRange(page: int, totalPages: int)
    requires 1 <= page <= totalPages
    ensures 1 <= AfterPrev(page) <= totalPages
    ensures 1 <= AfterNext(page, totalPages) <= totalPages
  {
  }

  /** Whatever the server reports as `totalPages`, the buttons never take
      the page below 1: a list page keeps `page >= 1` for its lifetime. */
  lemma MovesKeepPageFloor(page: int, totalPages: int)
    requires page >= 1
    ensures AfterPrev(page) >= 1 && AfterNext(page, totalPages) >= 1
  {
  }
}
