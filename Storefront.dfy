/** The storefront page (app/page.tsx): the catalog filter it derives from its state, and the
    handlers that edit the catalog, the criteria and the order list. */
module Storefront {
  import opened Types
  import opened Text
  import Seqs
  import Filters
  import Seed

  /** The criteria the page starts with. */
  function InitialFilters(): FilterState
  {
    FilterState("All", (0.0, 1000.0), "All", 0.0, false)
  }

  /** Some tag contains the (already lowercased) query, ignoring case. */
  predicate SomeTagContains(tags: seq<string>, q: string)
  {
    exists i :: 0 <= i < |tags| && Contains(Lower(tags[i]), q)
  }

  /** Case-insensitive substring search over the name, the description and the tags. */
  predicate MatchesSearch(p: Product, query: string)
  {
    var q := Lower(query);
    Contains(Lower(p.name), q) || Contains(Lower(p.description), q) || SomeTagContains(p.tags, q)
  }

  predicate MatchesCategory(p: Product, f: FilterState)
  {
    f.category == "All" || p.category == f.category
  }

  predicate MatchesBrand(p: Product, f: FilterState)
  {
    f.brand == "All" || p.brand == f.brand
  }

  predicate MatchesPrice(p: Product, f: FilterState)
  {
    p.price >= f.priceRange.0 && p.price <= f.priceRange.1
  }

  predicate MatchesRating(p: Product, f: FilterState)
  {
    p.rating >= f.rating
  }

  predicate MatchesStock(p: Product, f: FilterState)
  {
    !f.inStock || p.inStock
  }

  /** The six tests of the catalog filter, all of which must pass. */
  predicate Matches(p: Product, query: string, f: FilterState)
  {
    && MatchesSearch(p, query)
    && MatchesCategory(p, f)
    && MatchesBrand(p, f)
    && MatchesPrice(p, f)
    && MatchesRating(p, f)
    && MatchesStock(p, f)
  }

  /** The six tests as the callback handed to `filter`. */
  function Passes(query: string, f: FilterState): Product -> bool
  {
    (p: Product) => Matches(p, query, f)
  }

  function OfCategory(c: string): Product -> bool
  {
    (p: Product) => p.category == c
  }

  function OfBrand(b: string): Product -> bool
  {
    (p: Product) => p.brand == b
  }

  function Stocked(): Product -> bool
  {
    (p: Product) => p.inStock
  }

  /** `filteredProducts`: the products that pass all six tests, as an order-preserving
      subsequence of the catalog that keeps every copy of a passing product and no copy of a failing one. */
  function FilterProducts(products: seq<Product>, query: string, f: FilterState): (r: seq<Product>)
    ensures Seqs.IsSubseq(r, products)
    ensures forall p :: multiset(r)[p] == if Matches(p, query, f) then multiset(products)[p] else 0
  {
    var keep := Passes(query, f);
    Seqs.FilterIsSubseq(keep, products);
    assert forall p :: multiset(Seqs.Filter(keep, products))[p] == if keep(p) then multiset(products)[p] else 0 by {
      forall p {
        Seqs.FilterCount(keep, products, p);
      }
    }
    Seqs.Filter(keep, products)
  }

  /** A product is in the filtered list exactly when it is in the catalog and passes all six tests. */
  lemma FilterMembership(products: seq<Product>, query: string, f: FilterState, p: Product)
    ensures p in FilterProducts(products, query, f) <==> p in products && Matches(p, query, f)
  {
    var r := FilterProducts(products, query, f);
    assert multiset(r)[p] == if Matches(p, query, f) then multiset(products)[p] else 0;
  }

  /** The empty query matches every product. */
  lemma EmptySearchMatchesEverything(p: Product)
    ensures MatchesSearch(p, "")
  {
    ContainsEmpty(Lower(p.name));
  }

  /** The price test is inclusive at both ends. */
  lemma PriceBoundsInclusive(p: Product, f: FilterState)
    ensures p.price == f.priceRange.0 && f.priceRange.0 <= f.priceRange.1 ==> MatchesPrice(p, f)
    ensures p.price == f.priceRange.1 && f.priceRange.0 <= f.priceRange.1 ==> MatchesPrice(p, f)
  {
  }

  /** An inverted price range (low above high) lets nothing through. */
  lemma {:induction false} InvertedRangeIsEmpty(products: seq<Product>, query: string, f: FilterState)
    requires f.priceRange.0 > f.priceRange.1
    ensures FilterProducts(products, query, f) == []
  {
    var r := FilterProducts(products, query, f);
    if r != [] {
      FilterMembership(products, query, f, r[0]);
      assert false;
    }
  }

  lemma CategoryPasses(p: Product, query: string, f: FilterState, c: string)
    requires c != "All"
    ensures Matches(p, query, f.(category := c)) == (Matches(p, query, f.(category := "All")) && p.category == c)
  {
  }

  lemma BrandPasses(p: Product, query: string, f: FilterState, b: string)
    requires b != "All"
    ensures Matches(p, query, f.(brand := b)) == (Matches(p, query, f.(brand := "All")) && p.brand == b)
  {
  }

  lemma StockPasses(p: Product, query: string, f: FilterState)
    ensures Matches(p, query, f.(inStock := true)) == (Matches(p, query, f.(inStock := false)) && p.inStock)
  {
  }

  /** With the sentinel "All" the category test passes everything; any other value keeps exactly
      the products of that category among those that pass the other five tests. */
  lemma {:induction false} CategorySentinel(products: seq<Product>, query: string, f: FilterState, c: string)
    requires c != "All"
    ensures FilterProducts(products, query, f.(category := c))
         == Seqs.Filter(OfCategory(c), FilterProducts(products, query, f.(category := "All")))
  {
    var all := Passes(query, f.(category := "All"));
    var only := OfCategory(c);
    forall i | 0 <= i < |products|
      ensures (all(products[i]) && only(products[i])) == Matches(products[i], query, f.(category := c))
    {
      CategoryPasses(products[i], query, f, c);
    }
    Seqs.FilterFilter(only, all, Passes(query, f.(category := c)), products);
  }


  /** The same for the brand sentinel. */
  lemma {:induction false} BrandSentinel(products: seq<Product>, query: string, f: FilterState, b: string)
    requires b != "All"
    ensures FilterProducts(products, query, f.(brand := b))
         == Seqs.Filter(OfBrand(b), FilterProducts(products, query, f.(brand := "All")))
  {
    var all := Passes(query, f.(brand := "All"));
    var only := OfBrand(b);
    forall i | 0 <= i < |products|
      ensures (all(products[i]) && only(products[i])) == Matches(products[i], query, f.(brand := b))
    {
      BrandPasses(products[i], query, f, b);
    }
    Seqs.FilterFilter(only, all, Passes(query, f.(brand := b)), products);
  }


  /** With the in-stock flag off the stock test passes everything; with it on the result is
      exactly the in-stock products of the flag-off result. */
  lemma {:induction false} StockFlag(products: seq<Product>, query: string, f: FilterState)
    ensures FilterProducts(products, query, f.(inStock := true))
         == Seqs.Filter(Stocked(), FilterProducts(products, query, f.(inStock := false)))
  {
    var off := Passes(query, f.(inStock := false));
    var stocked := Stocked();
    forall i | 0 <= i < |products|
      ensures (off(products[i]) && stocked(products[i])) == Matches(products[i], query, f.(inStock := true))
    {
      StockPasses(products[i], query, f);
    }
    Seqs.FilterFilter(stocked, off, Passes(query, f.(inStock := true)), products);
  }


  /** With the initial criteria and an empty query, every product priced 0..1000 with a
      non-negative rating is kept, in order. */
  lemma {:induction false} InitialFiltersKeepAll(products: seq<Product>)
    requires forall i :: 0 <= i < |products| ==>
      0.0 <= products[i].price <= 1000.0 && products[i].rating >= 0.0
    ensures FilterProducts(products, "", InitialFilters()) == products
  {
    var keep := Passes("", InitialFilters());
    forall p | p in products
      ensures keep(p)
    {
      EmptySearchMatchesEverything(p);
    }
    Seqs.FilterAll(keep, products);
  }

  /** With an empty query only the five criteria decide. */
  lemma EmptyQueryMatches(p: Product, f: FilterState)
    ensures Matches(p, "", f) == (MatchesCategory(p, f) && MatchesBrand(p, f) && MatchesPrice(p, f)
                                  && MatchesRating(p, f) && MatchesStock(p, f))
  {
    EmptySearchMatchesEverything(p);
  }

  /** The page opens showing the whole seed catalog. */
  lemma OpeningPageShowsCatalog()
    ensures FilterProducts(Seed.Products, "", InitialFilters()) == Seed.Products
  {
    InitialFiltersKeepAll(Seed.Products);
  }

  /** With an empty query and otherwise initial criteria, a price window `[lo, hi]` keeps
      exactly the products priced inside it with a non-negative rating. */
  lemma PriceWindowPasses(p: Product, lo: real, hi: real)
    ensures Passes("", InitialFilters().(priceRange := (lo, hi)))(p)
        <==> lo <= p.price <= hi && p.rating >= 0.0
  {
    EmptySearchMatchesEverything(p);
  }

  /** A price window keeps a run of products priced inside it and drops a run priced outside. */
  lemma PriceWindowKeeps(kept: seq<Product>, dropped: seq<Product>, lo: real, hi: real)
    requires forall i :: 0 <= i < |kept| ==> lo <= kept[i].price <= hi && kept[i].rating >= 0.0
    requires forall i :: 0 <= i < |dropped| ==> !(lo <= dropped[i].price <= hi)
    ensures FilterProducts(kept + dropped, "", InitialFilters().(priceRange := (lo, hi))) == kept
  {
    var keep := Passes("", InitialFilters().(priceRange := (lo, hi)));
    forall p | p in kept + dropped
      ensures keep(p) <==> lo <= p.price <= hi && p.rating >= 0.0
    {
      PriceWindowPasses(p, lo, hi);
    }
    Seqs.FilterAppend(keep, kept, dropped);
    Seqs.FilterAll(keep, kept);
    Seqs.FilterNone(keep, dropped);
  }

  /** A price window of 100..300 over the seed catalog keeps the 249 watch and the 299
      headphones and drops the 899 lens, the 45 tea set and the rest, in catalog order. */
  lemma SeedPriceWindow()
    ensures FilterProducts(Seed.Products, "", InitialFilters().(priceRange := (100.0, 300.0)))
         == [Seed.Headphones, Seed.FitnessWatch]
  {
    var kept := [Seed.Headphones, Seed.FitnessWatch];
    var dropped := [Seed.Backpack, Seed.TeaSet, Seed.CameraLens, Seed.CoffeeBeans];
    assert Seed.Products == kept + dropped;
    PriceWindowKeeps(kept, dropped, 100.0, 300.0);
  }

  /** The page's initial criteria and the sidebar's reset record are the same record. */
  lemma ResetRestoresInitialFilters()
    ensures Filters.ResetFilters() == InitialFilters()
  {
  }

  /** The product `handleAddProduct` builds: the submitted data with the fresh id, rating 4.5 and no reviews. */
  function NewProduct(data: ProductData, id: string): (r: Product)
    ensures r.id == id && r.rating == 4.5 && r.reviews == 0
    ensures DataOf(r) == data.(rating := 4.5, reviews := 0)
  {
    Product(id, data.name, data.price, data.originalPrice, data.image, data.images,
      data.category, data.description, 4.5, 0, data.inStock, data.tags, data.brand,
      data.createdAt, data.updatedAt)
  }

  /** `{ ...p, ...updates }`: every key present in the patch overwrites, every other key is kept. */
  function MergeProduct(p: Product, u: ProductPatch): Product
  {
    Product(Pick(u.id, p.id), Pick(u.name, p.name), Pick(u.price, p.price),
      Pick(u.originalPrice, p.originalPrice), Pick(u.image, p.image), Pick(u.images, p.images),
      Pick(u.category, p.category), Pick(u.description, p.description), Pick(u.rating, p.rating),
      Pick(u.reviews, p.reviews), Pick(u.inStock, p.inStock), Pick(u.tags, p.tags),
      Pick(u.brand, p.brand), Pick(u.createdAt, p.createdAt), Pick(u.updatedAt, p.updatedAt))
  }

  const EmptyPatch: ProductPatch := ProductPatch(None, None, None, None, None, None, None, None,
    None, None, None, None, None, None, None)

  /** Merging is idempotent, and the empty patch changes nothing. */
  lemma MergeLaws(p: Product, u: ProductPatch)
    ensures MergeProduct(MergeProduct(p, u), u) == MergeProduct(p, u)
    ensures MergeProduct(p, EmptyPatch) == p
  {
  }

  /** `handleUpdateProduct`: same length and order; exactly the entries with the id are merged. */
  function UpdateProducts(products: seq<Product>, id: string, u: ProductPatch): (r: seq<Product>)
    ensures |r| == |products|
    ensures forall i :: 0 <= i < |products| ==>
      r[i] == if products[i].id == id then MergeProduct(products[i], u) else products[i]
  {
    Seqs.Map((p: Product) => if p.id == id then MergeProduct(p, u) else p, products)
  }

  /** `handleDeleteProduct`: the entries with a different id, in order. */
  function DeleteProducts(products: seq<Product>, id: string): seq<Product>
  {
    Seqs.Filter((p: Product) => p.id != id, products)
  }

  /** Delete removes every entry with the id and keeps every other entry, each as often as before, in order. */
  lemma DeleteSpec(products: seq<Product>, id: string)
    ensures Seqs.IsSubseq(DeleteProducts(products, id), products)
    ensures forall i :: 0 <= i < |DeleteProducts(products, id)| ==> DeleteProducts(products, id)[i].id != id
    ensures forall p: Product :: p.id != id ==> multiset(DeleteProducts(products, id))[p] == multiset(products)[p]
  {
    var keep := (p: Product) => p.id != id;
    Seqs.FilterIsSubseq(keep, products);
    forall p: Product | p.id != id
      ensures multiset(DeleteProducts(products, id))[p] == multiset(products)[p]
    {
      Seqs.FilterCount(keep, products, p);
    }
  }

  /** Deleting a freshly added product gives back the catalog it was added to. */
  lemma {:induction false} DeleteUndoesAdd(products: seq<Product>, data: ProductData, id: string)
    requires forall i :: 0 <= i < |products| ==> products[i].id != id
    ensures DeleteProducts(products + [NewProduct(data, id)], id) == products
  {
    var keep := (p: Product) => p.id != id;
    Seqs.FilterAppend(keep, products, [NewProduct(data, id)]);
    Seqs.FilterAll(keep, products);
  }

  /** A patch that leaves the id alone keeps the catalog's ids in place. */
  lemma UpdateKeepsIds(products: seq<Product>, id: string, u: ProductPatch)
    requires u.id.None?
    ensures Seqs.Map((p: Product) => p.id, UpdateProducts(products, id, u)) == Seqs.Map((p: Product) => p.id, products)
  {
  }

  datatype View = Shop | ProfileView | AdminView

  /** The page's state. */
  class AppState {
    var products: seq<Product>
    var orders: seq<Order>
    var filters: FilterState
    var searchQuery: string
    var currentView: View

    constructor ()
      ensures products == Seed.Products && orders == []
      ensures filters == InitialFilters() && searchQuery == "" && currentView == Shop
    {
      products := Seed.Products;
      orders := [];
      filters := InitialFilters();
      searchQuery := "";
      currentView := Shop;
    }

    /** What the product grid shows: the catalog's products that pass the page's query and
        criteria, in catalog order. */
    function FilteredProducts(): (r: seq<Product>)
      reads this
      ensures Seqs.IsSubseq(r, products)
      ensures forall p :: p in r <==> p in products && Matches(p, searchQuery, filters)
    {
      var r := FilterProducts(products, searchQuery, filters);
      assert forall p :: p in r <==> p in products && Matches(p, searchQuery, filters) by {
        forall p ensures p in r <==> p in products && Matches(p, searchQuery, filters) {
          FilterMembership(products, searchQuery, filters, p);
        }
      }
      r
    }

    /** The header's search box. */
    method SetSearchQuery(q: string)
      modifies this`searchQuery
      ensures searchQuery == q
    {
      searchQuery := q;
    }

    /** The sidebar's `onFilterChange`. */
    method SetFilters(f: FilterState)
      modifies this`filters
      ensures filters == f
    {
      filters := f;
    }

    /** The category banner: the same one-key update the sidebar makes. */
    method CategoryChange(category: string)
      modifies this`filters
      ensures filters == Filters.UpdateFilter(old(filters), Filters.SetCategory(category))
    {
      filters := filters.(category := category);
    }

    /** `handleAddProduct`; `id` stands for `Date.now().toString()`. */
    method AddProduct(data: ProductData, id: string)
      modifies this`products
      ensures products == old(products) + [NewProduct(data, id)]
    {
      products := products + [NewProduct(data, id)];
    }

    method UpdateProduct(id: string, u: ProductPatch)
      modifies this`products
      ensures products == UpdateProducts(old(products), id, u)
    {
      products := UpdateProducts(products, id, u);
    }

    method DeleteProduct(id: string)
      modifies this`products
      ensures products == DeleteProducts(old(products), id)
    {
      products := DeleteProducts(products, id);
    }

    /** `handleOrderComplete`: append the order and switch to the profile view
        (the cart is cleared by a hook that is not part of this model). */
    method OrderComplete(order: Order)
      modifies this`orders, this`currentView
      ensures orders == old(orders) + [order] && currentView == ProfileView
    {
      orders := orders + [order];
      currentView := ProfileView;
    }
  }
}
