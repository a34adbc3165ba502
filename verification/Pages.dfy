/** Limit and offset slicing of a list, and what a walk over its pages gives back. */
module Pages {

  datatype Page<T> = Page(items: seq<T>, limit: nat, offset: nat, total: nat)

  /** Python's `items[start:end]` for bounds that are not negative. */
  function Slice<T>(items: seq<T>, start: nat, end: nat): seq<T> {
    if start < |items| && start < end then items[start..if end < |items| then end else |items|] else []
  }

  function Paginate<T>(items: seq<T>, limit: nat, offset: nat): Page<T> {
    Page(Slice(items, offset, offset + limit), limit, offset, |items|)
  }

  /** The pages met by walking the offsets `offset`, `offset + limit`, ... until the total is reached. */
  function Walk<T>(items: seq<T>, limit: nat, offset: nat): seq<Page<T>>
    requires limit >= 1
    decreases |items| - offset
  {
    var page := Paginate(items, limit, offset);
    if page.total <= offset then [] else [page] + Walk(items, limit, offset + limit)
  }

  function Concat<T>(pages: seq<Page<T>>): seq<T> {
    if pages == [] then [] else pages[0].items + Concat(pages[1..])
  }

  /** `k` is the quotient of `n` by `limit`, rounded up. */
  predicate IsCeiling(k: nat, n: nat, limit: nat) {
    n <= k * limit && (k > 0 ==> (k - 1) * limit < n)
  }

  lemma OnePageMore(k: nat, n: nat, limit: nat)
    requires n > 0 && if n > limit then IsCeiling(k, n - limit, limit) else k == 0
    ensures IsCeiling(k + 1, n, limit)
  {
    assert (k + 1) * limit == k * limit + limit;
    if k > 0 {
      assert k * limit == (k - 1) * limit + limit;
    }
  }

  /** Walking from an offset inside the list tiles the rest of it. */
  lemma {:induction false} WalkTiles<T>(items: seq<T>, limit: nat, offset: nat)
    requires limit >= 1 && offset <= |items|
    ensures Concat(Walk(items, limit, offset)) == items[offset..]
    ensures IsCeiling(|Walk(items, limit, offset)|, |items| - offset, limit)
    decreases |items| - offset
  {
    if offset < |items| {
      var next := offset + limit;
      if next < |items| {
        WalkTiles(items, limit, next);
        assert items[offset..] == items[offset..next] + items[next..];
      } else {
        assert Walk(items, limit, next) == [];
        assert items[offset..|items|] == items[offset..];
      }
      OnePageMore(|Walk(items, limit, next)|, |items| - offset, limit);
    }
  }

  /**
   * The pages at offsets 0, limit, 2 * limit, ... are as many as the total divided by the limit,
   * rounded up, and put together they are exactly the list, in order.
   */
  lemma PagesTileTheList<T>(items: seq<T>, limit: nat)
    requires limit >= 1
    ensures Concat(Walk(items, limit, 0)) == items
    ensures IsCeiling(|Walk(items, limit, 0)|, |items|, limit)
  {
    WalkTiles(items, limit, 0);
  }

  /** Each page is full unless the list ends first, and holds the list's own elements at its offset. */
  lemma PageContents<T>(items: seq<T>, limit: nat, offset: nat)
    ensures var page := Paginate(items, limit, offset);
            var left := if offset < |items| then |items| - offset else 0;
            && |page.items| == (if limit < left then limit else left)
            && page.total == |items| && page.limit == limit && page.offset == offset
            && forall k :: 0 <= k < |page.items| ==> page.items[k] == items[offset + k]
  {
  }
}
