/**
 * The new-arrivals page: the twelve most recently created products,
 * newest first, taken from the cached catalogue.
 */
module NouveautePage {
  import opened Entities
  import opened Sorting

  /** How many products the page shows at most. */
  const Limit: nat := 12

  /** The comparator `(a, b) => b.createdAt - a.createdAt`. */
  function NewestFirst(): (Product, Product) -> int
  {
    (a: Product, b: Product) => b.createdAt - a.createdAt
  }

  /** The sort key the comparator orders by: later creation sorts first. */
  function Age(p: Product): int
  {
    -p.createdAt
  }

  /** `[...products].sort(NewestFirst).slice(0, 12)` */
  function Newest(products: seq<Product>): (r: seq<Product>)
    ensures |r| == if |products| < Limit then |products| else Limit
  {
    var sorted := Sort(products, NewestFirst());
    SortPermutation(products, NewestFirst());
    if |sorted| <= Limit then sorted else sorted[..Limit]
  }

  /** The second effect: a non-empty catalogue replaces the list; an empty one leaves it. */
  function Update(previous: seq<Product>, products: seq<Product>): (r: seq<Product>)
    ensures products == [] ==> r == previous
    ensures products != [] ==> r == Newest(products) && 0 < |r| <= Limit
  {
    if |products| > 0 then Newest(products) else previous
  }

  /** Ordered newest first: creation dates never increase along the list. */
  predicate NewestFirstOrder(s: seq<Product>)
  {
    forall i, j :: 0 <= i < j < |s| ==> s[i].createdAt >= s[j].createdAt
  }

  /** The sorted catalogue is ordered newest first. */
  lemma SortedNewestFirst(products: seq<Product>)
    ensures NewestFirstOrder(Sort(products, NewestFirst()))
  {
    SortSortedByKey(products, NewestFirst(), Age);
    var s := Sort(products, NewestFirst());
    forall i, j | 0 <= i < j < |s|
      ensures s[i].createdAt >= s[j].createdAt
    {
      assert Age(s[i]) <= Age(s[j]);
    }
  }

  /** The shown products are ordered newest first. */
  lemma NewestIsOrdered(products: seq<Product>)
    ensures NewestFirstOrder(Newest(products))
  {
    SortedNewestFirst(products);
    var s := Sort(products, NewestFirst());
    var r := Newest(products);
    assert r == s[..|r|];
  }

  /**
   * Every shown product comes from the catalogue, at most as often as it
   * occurs there; a catalogue of at most twelve is shown whole.
   */
  lemma NewestComesFromProducts(products: seq<Product>)
    ensures multiset(Newest(products)) <= multiset(products)
    ensures forall p :: p in Newest(products) ==> p in products
    ensures |products| <= Limit ==> multiset(Newest(products)) == multiset(products)
  {
    var s := Sort(products, NewestFirst());
    SortPermutation(products, NewestFirst());
    if |s| > Limit {
      assert s == s[..Limit] + s[Limit..];
      assert multiset(s) == multiset(s[..Limit]) + multiset(s[Limit..]);
    }
    forall p | p in Newest(products)
      ensures p in products
    {
      assert p in multiset(Newest(products));
    }
  }

  /** In a list ordered newest first, nothing after position `n` is newer than anything before it. */
  lemma PrefixIsNewest(s: seq<Product>, n: nat)
    requires NewestFirstOrder(s) && n <= |s|
    ensures forall p, q :: p in s[n..] && q in s[..n] ==> p.createdAt <= q.createdAt
  {
    forall p, q | p in s[n..] && q in s[..n]
      ensures p.createdAt <= q.createdAt
    {
      var j :| 0 <= j < |s| - n && s[n..][j] == p;
      var i :| 0 <= i < n && s[..n][i] == q;
      assert s[i] == q && s[n + j] == p;
    }
  }

  /** No product left out is newer than a product shown. */
  lemma LeftOutAreNoNewer(products: seq<Product>)
    ensures forall p, q :: p in multiset(products) - multiset(Newest(products)) && q in Newest(products) ==>
      p.createdAt <= q.createdAt
  {
    var s := Sort(products, NewestFirst());
    SortPermutation(products, NewestFirst());
    SortedNewestFirst(products);
    var r := Newest(products);
    var rest := s[|r|..];
    assert r == s[..|r|];
    assert s == r + rest;
    assert multiset(products) - multiset(r) == multiset(rest);
    PrefixIsNewest(s, |r|);
  }
}
