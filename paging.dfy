/** The page count both usecases report with a list: `ceil(count / limit)`, computed in the source
    with floating point and modelled as integer ceiling division. */
module Paging {
  /** The number of pages of `limit` items that hold `count` items. */
  function TotalPage(count: int, limit: int): (r: int)
    requires limit > 0
  {
    -((-count) / limit)
  }

  /** The page count is the least whole number of pages covering every item. */
  lemma TotalPageIsCeiling(count: int, limit: int)
    requires limit > 0
    ensures (TotalPage(count, limit) - 1) * limit < count <= TotalPage(count, limit) * limit
  {
    var q := (-count) / limit;
    var m := (-count) % limit;
    assert -count == q * limit + m && 0 <= m < limit;
  }

  /** No items need no pages; whole pages need no extra one. */
  lemma TotalPageExact(k: int, limit: int)
    requires limit > 0
    ensures TotalPage(k * limit, limit) == k
  {
    TotalPageIsCeiling(k * limit, limit);
    var t := TotalPage(k * limit, limit);
    assert (t - k) * limit < limit && (t - k) * limit >= 0;
  }
}
