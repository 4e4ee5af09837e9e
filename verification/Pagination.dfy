/** Complete inventories from a paged API: listAll in internal/cloudflare/client.go. */
module Pagination {
  import opened Basics

  const PAGE_LIMIT: nat := 1000

  /** A server that holds `items`. `counted` says whether replies carry total_pages;
      `broken` are the pages whose request fails. */
  datatype Server<T> = Server(items: seq<T>, counted: bool, broken: set<nat>)

  datatype Listing<T> = Complete(items: seq<T>) | Unlisted

  /** Pages that N items fill, the last one perhaps partly. */
  function PagesOf(n: nat, perPage: nat): nat
    requires perPage > 0
  {
    (n + perPage - 1) / perPage
  }

  function Batch<T>(s: Server<T>, perPage: nat, page: nat): seq<T>
    requires perPage > 0 && page > 0
  {
    if (page - 1) * perPage >= |s.items| then []
    else s.items[(page - 1) * perPage..Min(page * perPage, |s.items|)]
  }

  function TotalPages<T>(s: Server<T>, perPage: nat): nat
    requires perPage > 0
  {
    if s.counted then PagesOf(|s.items|, perPage) else 0
  }

  /** The inventory fits the page budget: up to 1000 full pages when the server counts them, and one item
      less otherwise, since then only a short page tells the end. */
  predicate Fits<T>(s: Server<T>, perPage: nat) {
    if s.counted then |s.items| <= PAGE_LIMIT * perPage else |s.items| < PAGE_LIMIT * perPage
  }

  /** The budget in items. */
  lemma FitsIff<T>(s: Server<T>, perPage: nat)
    ensures s.counted ==> (Fits(s, perPage) <==> |s.items| <= 1000 * perPage)
    ensures !s.counted ==> (Fits(s, perPage) <==> |s.items| < 1000 * perPage)
  {
  }

  /** The page with which the listing ends, if it does. */
  function LastPage<T>(s: Server<T>, perPage: nat): (last: nat)
    requires perPage > 0
    ensures last >= 1
  {
    if s.counted && s.items != [] then PagesOf(|s.items|, perPage) else |s.items| / perPage + 1
  }

  /** All N items in order, or a failure; never a proper prefix, and a failure only when the budget is
      exceeded or one of the pages up to the last cannot be read. */
  method ListAll<T>(s: Server<T>, perPage: nat) returns (r: Listing<T>)
    requires perPage > 0
    ensures r.Complete? ==> r.items == s.items
    ensures r.Complete? <==> Fits(s, perPage) && forall p :: 1 <= p <= LastPage(s, perPage) ==> p !in s.broken
  {
    LastPageInBudget(s, perPage);
    var last := LastPage(s, perPage);
    var result: seq<T> := [];
    var page := 1;
    while page <= PAGE_LIMIT
      invariant 1 <= page <= PAGE_LIMIT + 1
      invariant page <= last
      invariant (page - 1) * perPage <= |s.items| && result == s.items[..(page - 1) * perPage]
      invariant forall p :: 1 <= p < page ==> p !in s.broken
    {
      if page in s.broken {
        return Unlisted;
      }
      var batch, total := Batch(s, perPage, page), TotalPages(s, perPage);
      PageStep(s, perPage, page);
      result := result + batch;
      if (total > 0 && page >= total) || (total == 0 && |batch| < perPage) {
        return Complete(result);
      }
      page := page + 1;
    }
    return Unlisted;
  }

  /** One page: it extends the prefix read so far, and it is recognised as the end exactly at the last page. */
  lemma PageStep<T>(s: Server<T>, perPage: nat, page: nat)
    requires perPage > 0 && 1 <= page <= LastPage(s, perPage)
    requires (page - 1) * perPage <= |s.items|
    ensures var batch, total := Batch(s, perPage, page), TotalPages(s, perPage);
            var stop := (total > 0 && page >= total) || (total == 0 && |batch| < perPage);
            && (stop <==> page == LastPage(s, perPage))
            && (stop ==> s.items[..(page - 1) * perPage] + batch == s.items)
            && (!stop ==> page * perPage <= |s.items|)
            && (!stop ==> s.items[..(page - 1) * perPage] + batch == s.items[..page * perPage])
  {
    assert page * perPage == (page - 1) * perPage + perPage;
    Quotients(|s.items|, perPage, page);
  }

  /** Where page boundaries lie relative to n items. */
  lemma Quotients(n: nat, d: nat, page: nat)
    requires d > 0 && page >= 1
    ensures page <= n / d <==> page * d <= n
    ensures page >= PagesOf(n, d) <==> page * d >= n
  {
    AtMostQuotient(n, d, page);
    AtMostQuotient(n + d - 1, d, page + 1);
    assert (page + 1) * d == page * d + d;
  }

  lemma AtMostQuotient(n: nat, d: nat, k: nat)
    requires d > 0
    ensures k <= n / d <==> k * d <= n
  {
    var q := n / d;
    assert q * d <= n < (q + 1) * d;
    if k <= q {
      MulMonotone(k, q, d);
    } else {
      MulMonotone(q + 1, k, d);
    }
  }

  lemma LastPageInBudget<T>(s: Server<T>, perPage: nat)
    requires perPage > 0
    ensures LastPage(s, perPage) <= PAGE_LIMIT <==> Fits(s, perPage)
  {
    AtMostQuotient(|s.items|, perPage, PAGE_LIMIT);
    AtMostQuotient(|s.items| + perPage - 1, perPage, PAGE_LIMIT + 1);
  }
}
