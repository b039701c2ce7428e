/**
 * The admin dashboard's product list: the filter behind the search box and
 * the category and stock selectors, and the three integer stock counts.
 */
module Dashboard {
  import opened Seqs
  import opened Text
  import opened Catalog

  /** The search box: the term occurs, ignoring case, in the product's name or its description. */
  predicate MatchesSearch(p: Product, searchTerm: string)
  {
    MatchesIgnoringCase(p.name, searchTerm) || MatchesIgnoringCase(p.description, searchTerm)
  }

  /** The category selector: 'All' or exactly the product's category. */
  predicate MatchesCategory(p: Product, filterCategory: string)
  {
    filterCategory == "All" || p.category == filterCategory
  }

  /** The stock selector: 'All', 'In Stock' for stocked products, 'Out of Stock' for the others. */
  predicate MatchesStock(p: Product, filterStock: string)
  {
    filterStock == "All" ||
    (filterStock == "In Stock" && p.inStock) ||
    (filterStock == "Out of Stock" && !p.inStock)
  }

  predicate Shown(p: Product, searchTerm: string, filterCategory: string, filterStock: string)
  {
    MatchesSearch(p, searchTerm) && MatchesCategory(p, filterCategory) && MatchesStock(p, filterStock)
  }

  /** `filteredProducts`: the products passing all three selectors, in the order they were fetched. */
  function FilteredProducts(products: seq<Product>, searchTerm: string, filterCategory: string, filterStock: string)
    : (r: seq<Product>)
    ensures forall i :: 0 <= i < |r| ==> r[i] in products && Shown(r[i], searchTerm, filterCategory, filterStock)
    ensures forall i :: 0 <= i < |products| && Shown(products[i], searchTerm, filterCategory, filterStock) ==>
      products[i] in r
    ensures IsSubsequence(r, products)
  {
    FilterMembers(products, (p: Product) => Shown(p, searchTerm, filterCategory, filterStock));
    Filter(products, (p: Product) => Shown(p, searchTerm, filterCategory, filterStock))
  }

  /** An empty search term rules nothing out. */
  lemma EmptySearchMatchesAll(p: Product)
    ensures MatchesSearch(p, "")
  {
    EmptyTermMatches(p.name);
  }

  /** With every selector at its default, the whole list is shown, in order. */
  lemma {:induction false} DefaultFiltersShowAll(products: seq<Product>)
    ensures FilteredProducts(products, "", "All", "All") == products
  {
    forall i | 0 <= i < |products| ensures Shown(products[i], "", "All", "All") {
      EmptySearchMatchesAll(products[i]);
    }
    FilterKeepsAll(products, (p: Product) => Shown(p, "", "All", "All"));
  }

  /** The stock selector: 'In Stock' keeps exactly the stocked products, 'Out of Stock' exactly the others, 'All' both, and any other value none. */
  lemma StockFilterCases(p: Product, filterStock: string)
    ensures filterStock == "All" ==> MatchesStock(p, filterStock)
    ensures filterStock == "In Stock" ==> (MatchesStock(p, filterStock) <==> p.inStock)
    ensures filterStock == "Out of Stock" ==> (MatchesStock(p, filterStock) <==> !p.inStock)
    ensures filterStock !in {"All", "In Stock", "Out of Stock"} ==> !MatchesStock(p, filterStock)
  {
  }

  /** A stock selector value other than the three offered empties the list. */
  lemma UnknownStockFilterShowsNothing(products: seq<Product>, searchTerm: string, filterCategory: string, filterStock: string)
    requires filterStock != "All" && filterStock != "In Stock" && filterStock != "Out of Stock"
    ensures FilteredProducts(products, searchTerm, filterCategory, filterStock) == []
  {
    FilterKeepsNone(products, (p: Product) => Shown(p, searchTerm, filterCategory, filterStock));
  }

  /** A category other than 'All' keeps only products of exactly that category. */
  lemma CategoryFilterExact(products: seq<Product>, searchTerm: string, filterCategory: string, filterStock: string)
    requires filterCategory != "All"
    ensures forall i :: 0 <= i < |FilteredProducts(products, searchTerm, filterCategory, filterStock)| ==>
      FilteredProducts(products, searchTerm, filterCategory, filterStock)[i].category == filterCategory
  {
  }

  datatype Stats = Stats(totalProducts: int, inStockProducts: int, outOfStockProducts: int)

  /** The integer part of the dashboard's statistics. */
  function ProductStats(products: seq<Product>): (r: Stats)
    ensures r.totalProducts == |products|
    ensures 0 <= r.inStockProducts <= r.totalProducts
    ensures r.inStockProducts + r.outOfStockProducts == r.totalProducts
    ensures r.inStockProducts == |FilteredProducts(products, "", "All", "In Stock")|
    ensures r.outOfStockProducts == |FilteredProducts(products, "", "All", "Out of Stock")|
  {
    var totalProducts := |products|;
    var inStockProducts := |Filter(products, (p: Product) => p.inStock)|;
    StockCountsMatchFilter(products);
    Stats(totalProducts, inStockProducts, totalProducts - inStockProducts)
  }

  /** The in-stock count is what the 'In Stock' selector shows, and the rest is what 'Out of Stock' shows. */
  lemma StockCountsMatchFilter(products: seq<Product>)
    ensures |Filter(products, (p: Product) => p.inStock)| == |FilteredProducts(products, "", "All", "In Stock")|
    ensures |products| - |Filter(products, (p: Product) => p.inStock)| ==
      |FilteredProducts(products, "", "All", "Out of Stock")|
  {
    var stocked := (p: Product) => p.inStock;
    var inView := (p: Product) => Shown(p, "", "All", "In Stock");
    var outView := (p: Product) => Shown(p, "", "All", "Out of Stock");
    forall i | 0 <= i < |products| ensures inView(products[i]) == stocked(products[i]) && outView(products[i]) == !stocked(products[i]) {
      EmptySearchMatchesAll(products[i]);
    }
    FilterCongruent(products, inView, stocked);
    FilterComplementLength(products, stocked, outView);
  }
}
