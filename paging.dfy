/** The Previous / Next controls the markets and exchanges pages share: 100 rows a page, and the
    next page offered only when the current one came back full. */
module Paging {

  import opened Common

  const PerPage := 100

  /** The page Previous goes to: one back, never below the first. */
  function PrevPage(page: int): (p: int)
    ensures p >= 1
    ensures page > 1 ==> p == page - 1
    ensures page <= 1 ==> p == 1
  {
    Max(1, page - 1)
  }

  /** Previous is disabled on page 1. */
  predicate PrevDisabled(page: int)
  {
    page == 1
  }

  /** Next is disabled when the page came back with fewer than 100 rows. */
  predicate NextDisabled(rowCount: nat)
  {
    rowCount < PerPage
  }

  /** On a page past the first, Previous is enabled and moves exactly one page back; on the first
      it is disabled, and would go nowhere anyway. Next is enabled exactly for a full page. */
  lemma PrevNextRules(page: int, rowCount: nat)
    requires page >= 1
    ensures !PrevDisabled(page) <==> PrevPage(page) == page - 1
    ensures PrevDisabled(page) <==> PrevPage(page) == page
    ensures !NextDisabled(rowCount) <==> rowCount >= PerPage
  {
  }
}
