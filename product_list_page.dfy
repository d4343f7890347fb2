/**
 * The catalogue page's view of the cached products: a filter by category,
 * brand, price range and name search, then a sort on a copy of the result.
 */
module ProductListPage {
  import opened Entities
  import opened Sorting

  /** The selected price range, already split at '-' into its two bounds. */
  datatype PriceRange = AnyPrice | Between(min: int, max: int)

  /** The filter controls; "" is an unset control. */
  datatype Filters = Filters(category: string, brand: string, priceRange: PriceRange, sortBy: string, search: string)

  /** `toLowerCase` on one character, for the ASCII letters. */
  function LowerChar(c: char): char
  {
    if 'A' <= c <= 'Z' then (c as int + 32) as char else c
  }

  function Lower(s: string): (r: string)
    ensures |r| == |s|
    ensures forall k :: 0 <= k < |s| ==> r[k] == LowerChar(s[k])
  {
    seq(|s|, k requires 0 <= k < |s| => LowerChar(s[k]))
  }

  /** `needle` occurs in `haystack` starting at index `i`. */
  predicate OccursAt(haystack: string, needle: string, i: int)
  {
    0 <= i && i + |needle| <= |haystack| && haystack[i..i + |needle|] == needle
  }

  /** `haystack.includes(needle)` */
  predicate Includes(haystack: string, needle: string)
  {
    exists i :: 0 <= i <= |haystack| && OccursAt(haystack, needle, i)
  }

  /** The filter's predicate: every set control must match, and the search must. */
  predicate Keep(p: Product, f: Filters)
  {
    var matchesSearch := f.search == "" || Includes(Lower(p.name), Lower(f.search));
    if f.category != "" && p.category != f.category then false
    else if f.brand != "" && p.brand != f.brand then false
    else if f.priceRange.Between? && (p.price < f.priceRange.min || p.price > f.priceRange.max) then false
    else matchesSearch
  }

  /** `products.filter(...)` */
  function FilterProducts(products: seq<Product>, f: Filters): (r: seq<Product>)
    ensures |r| <= |products|
    ensures forall k :: 0 <= k < |r| ==> Keep(r[k], f)
  {
    if products == [] then []
    else (if Keep(products[0], f) then [products[0]] else []) + FilterProducts(products[1..], f)
  }

  /** `a` is `b` with some elements left out, the rest in their order. */
  predicate SubsequenceOf<T(==)>(a: seq<T>, b: seq<T>)
    decreases |b|
  {
    if a == [] then true
    else if b == [] then false
    else if a[0] == b[0] && SubsequenceOf(a[1..], b[1..]) then true
    else SubsequenceOf(a, b[1..])
  }

  /**
   * The filtered list is a subsequence of the cached products, and holds
   * exactly those that pass the filter.
   */
  lemma {:induction false} FilterIsSubsequence(products: seq<Product>, f: Filters)
    ensures SubsequenceOf(FilterProducts(products, f), products)
    ensures forall p :: p in FilterProducts(products, f) <==> p in products && Keep(p, f)
  {
    if products != [] {
      FilterIsSubsequence(products[1..], f);
      assert products == [products[0]] + products[1..];
      var rest := FilterProducts(products[1..], f);
      if Keep(products[0], f) {
        var a := [products[0]] + rest;
        assert a[0] == products[0] && a[1..] == rest;
        assert SubsequenceOf(a[1..], products[1..]);
        assert SubsequenceOf(a, products);
        assert FilterProducts(products, f) == a;
      } else {
        assert FilterProducts(products, f) == rest;
        assert SubsequenceOf(rest, products);
      }
    }
  }

  /** What a kept product satisfies, control by control. */
  lemma KeptProductsMatch(products: seq<Product>, f: Filters)
    ensures forall p :: p in FilterProducts(products, f) ==>
      && (f.category != "" ==> p.category == f.category)
      && (f.brand != "" ==> p.brand == f.brand)
      && (f.priceRange.Between? ==> f.priceRange.min <= p.price <= f.priceRange.max)
      && (f.search != "" ==> Includes(Lower(p.name), Lower(f.search)))
  {
    FilterIsSubsequence(products, f);
  }

  /** With every control unset, nothing is filtered out. */
  lemma {:induction false} NoFiltersKeepAll(products: seq<Product>, sortBy: string)
    ensures FilterProducts(products, Filters("", "", AnyPrice, sortBy, "")) == products
  {
    if products != [] {
      NoFiltersKeepAll(products[1..], sortBy);
      assert products == [products[0]] + products[1..];
    }
  }

  /**
   * The comparator picked by `sortBy`; names compare with `localeCompare`,
   * which depends on the locale and is taken as a parameter.
   */
  function Comparator(sortBy: string, localeCompare: (string, string) -> int): (Product, Product) -> int
  {
    match sortBy
    case "price-asc" => (a: Product, b: Product) => a.price - b.price
    case "price-desc" => (a: Product, b: Product) => b.price - a.price
    case "name-asc" => (a: Product, b: Product) => localeCompare(a.name, b.name)
    case "name-desc" => (a: Product, b: Product) => localeCompare(b.name, a.name)
    case _ => (a: Product, b: Product) => 0
  }

  /** The products the page shows. */
  function View(products: seq<Product>, f: Filters, localeCompare: (string, string) -> int): seq<Product>
  {
    Sort(FilterProducts(products, f), Comparator(f.sortBy, localeCompare))
  }

  /** Whatever the sort key, the view holds exactly the filtered products. */
  lemma ViewIsPermutationOfFiltered(products: seq<Product>, f: Filters, localeCompare: (string, string) -> int)
    ensures multiset(View(products, f, localeCompare)) == multiset(FilterProducts(products, f))
  {
    SortPermutation(FilterProducts(products, f), Comparator(f.sortBy, localeCompare));
  }

  /** 'price-asc' gives non-decreasing prices. */
  lemma PriceAscending(products: seq<Product>, f: Filters, localeCompare: (string, string) -> int)
    requires f.sortBy == "price-asc"
    ensures var v := View(products, f, localeCompare);
      forall i, j :: 0 <= i < j < |v| ==> v[i].price <= v[j].price
  {
    SortSortedByKey(FilterProducts(products, f), Comparator(f.sortBy, localeCompare), (p: Product) => p.price);
  }

  /** 'price-desc' gives non-increasing prices. */
  lemma PriceDescending(products: seq<Product>, f: Filters, localeCompare: (string, string) -> int)
    requires f.sortBy == "price-desc"
    ensures var v := View(products, f, localeCompare);
      forall i, j :: 0 <= i < j < |v| ==> v[i].price >= v[j].price
  {
    var key := (p: Product) => -p.price;
    SortSortedByKey(FilterProducts(products, f), Comparator(f.sortBy, localeCompare), key);
    var v := View(products, f, localeCompare);
    forall i, j | 0 <= i < j < |v|
      ensures v[i].price >= v[j].price
    {
      assert key(v[i]) <= key(v[j]);
    }
  }

  /** A sort key other than the four known ones keeps the filtered order. */
  lemma UnknownSortKeepsOrder(products: seq<Product>, f: Filters, localeCompare: (string, string) -> int)
    requires f.sortBy !in {"price-asc", "price-desc", "name-asc", "name-desc"}
    ensures View(products, f, localeCompare) == FilterProducts(products, f)
  {
    SortAllEqual(FilterProducts(products, f), Comparator(f.sortBy, localeCompare));
  }
}
