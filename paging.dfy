/**
 * Page and page-size normalisation shared by the list endpoints: a page below
 * 1 becomes 1, a page size below 1 becomes the default 10 and one above the
 * endpoint's maximum becomes that maximum; the number of pages is the
 * ceiling of total / limit.
 */
module Paging {

  const DefaultLimit: int := 10

  /** A page number below 1 becomes the first page. */
  function ClampPage(page: int): (p: int)
    ensures p >= 1
    ensures page >= 1 ==> p == page
    ensures page < 1 ==> p == 1
  {
    if page <= 0 then 1 else page
  }

  /** A page size below 1 becomes the default, one above the maximum the maximum. */
  function ClampLimit(limit: int, max: int): (l: int)
    requires max >= DefaultLimit
    ensures 1 <= l <= max
    ensures 1 <= limit <= max ==> l == limit
    ensures limit <= 0 ==> l == DefaultLimit
    ensures limit > max ==> l == max
  {
    if limit <= 0 then DefaultLimit else if limit > max then max else limit
  }

  /** Clamping is idempotent: a normalised request is left as it is. */
  lemma ClampIdempotent(page: int, limit: int, max: int)
    requires max >= DefaultLimit
    ensures ClampPage(ClampPage(page)) == ClampPage(page)
    ensures ClampLimit(ClampLimit(limit, max), max) == ClampLimit(limit, max)
  {
  }

  /** The page count by rounded-up integer division; for the sizes in play
      it equals the ceiling of the floating-point quotient the list
      endpoints compute. */
  function TotalPages(total: nat, limit: int): (pages: nat)
    requires limit >= 1
  {
    (total + limit - 1) / limit
  }

  /** TotalPages is the ceiling of total / limit: the least page count whose
      pages hold all total items. */
  lemma TotalPagesIsCeiling(total: nat, limit: int)
    requires limit >= 1
    ensures TotalPages(total, limit) * limit >= total
    ensures TotalPages(total, limit) == 0 || (TotalPages(total, limit) - 1) * limit < total
    ensures TotalPages(total, limit) == 0 <==> total == 0
  {
    var n := total + limit - 1;
    var q := n / limit;
    var r := n % limit;
    assert n == q * limit + r && 0 <= r < limit;
    assert (q - 1) * limit == q * limit - limit;
    if total > 0 {
      assert q * limit > total - limit;
    }
  }
}
