/** The product list: the category bar, the search box and the filtered grid.
    The catalog is a fixed sequence of products and the case mapping of the
    search (`toLowerCase`) is a parameter `lower`. */
module Catalog {
  import opened Types
  import opened Text
  import opened CartEngine
  import opened Storefront

  /** The filter bar's category ids, in display order. */
  const CategoryIds: seq<string> := ["all", "doors", "windows", "wedding", "home", "tools"]

  /** The bar offers "all" and then each of the five product categories once. */
  lemma CategoryIdsCoverCategories()
    ensures |CategoryIds| == 6 && CategoryIds[0] == "all" && ParseCategory("all") == None
    ensures forall i | 1 <= i < |CategoryIds| :: ParseCategory(CategoryIds[i]).Some?
    ensures forall c: Category :: CategoryId(c) in CategoryIds[1..]
  {
    forall c: Category ensures CategoryId(c) in CategoryIds[1..] {
      match c
      case Doors => assert CategoryIds[1..][0] == CategoryId(c);
      case Windows => assert CategoryIds[1..][1] == CategoryId(c);
      case Wedding => assert CategoryIds[1..][2] == CategoryId(c);
      case Home => assert CategoryIds[1..][3] == CategoryId(c);
      case Tools => assert CategoryIds[1..][4] == CategoryId(c);
    }
  }

  predicate InCategory(p: Product, active: string)
  {
    active == "all" || CategoryId(p.category) == active
  }

  /** The name or the description contains the query, both lower-cased. */
  predicate MatchesSearch(p: Product, query: string, lower: string -> string)
  {
    Contains(lower(p.name), lower(query)) || Contains(lower(p.description), lower(query))
  }

  predicate Listed(p: Product, active: string, query: string, lower: string -> string)
  {
    InCategory(p, active) && MatchesSearch(p, query, lower)
  }

  /** `products.filter(...)`. */
  function Filter(catalog: seq<Product>, active: string, query: string, lower: string -> string)
    : (r: seq<Product>)
    ensures |r| <= |catalog|
    ensures forall p :: p in r <==> p in catalog && Listed(p, active, query, lower)
  {
    if catalog == [] then []
    else
      var rest := Filter(catalog[1..], active, query, lower);
      assert forall p :: p in catalog <==> p == catalog[0] || p in catalog[1..];
      if Listed(catalog[0], active, query, lower) then [catalog[0]] + rest else rest
  }

  /** a is b with some elements left out, the rest in their order. */
  predicate Subsequence(a: seq<Product>, b: seq<Product>)
    decreases |b|
  {
    if b == [] then a == []
    else (a != [] && a[0] == b[0] && Subsequence(a[1..], b[1..])) || Subsequence(a, b[1..])
  }

  /** The grid keeps the catalog's order: it is the catalog with the
      unlisted products left out. */
  lemma {:induction false} FilterKeepsOrder(catalog: seq<Product>, active: string, query: string,
                                            lower: string -> string)
    ensures Subsequence(Filter(catalog, active, query, lower), catalog)
  {
    if catalog != [] {
      var rest := Filter(catalog[1..], active, query, lower);
      FilterKeepsOrder(catalog[1..], active, query, lower);
      if Listed(catalog[0], active, query, lower) {
        assert ([catalog[0]] + rest)[1..] == rest;
      }
    }
  }

  /** With "all" and an empty query every product is listed: the opening
      state shows the whole catalog. */
  lemma {:induction false} OpeningShowsAll(catalog: seq<Product>, lower: string -> string)
    requires lower("") == ""
    ensures Filter(catalog, "all", "", lower) == catalog
  {
    if catalog != [] {
      OpeningShowsAll(catalog[1..], lower);
      ContainsEmpty(lower(catalog[0].name));
      assert Listed(catalog[0], "all", "", lower);
      assert [catalog[0]] + catalog[1..] == catalog;
    }
  }

  /** The grid area: the cards of the listed products, or the no-results
      notice quoting the query. */
  datatype Grid = Cards(products: seq<Product>) | NoResults(query: string)

  function GridFor(catalog: seq<Product>, active: string, query: string, lower: string -> string)
    : (g: Grid)
    ensures g.NoResults? <==> (forall p | p in catalog :: !Listed(p, active, query, lower))
    ensures g.Cards? ==> g.products == Filter(catalog, active, query, lower) && g.products != []
    ensures g.NoResults? ==> g.query == query
  {
    var shown := Filter(catalog, active, query, lower);
    if |shown| > 0 then
      assert shown[0] in shown;
      Cards(shown)
    else
      assert forall p | p in catalog :: !Listed(p, active, query, lower) by {
        assert forall p :: p !in shown;
      }
      NoResults(query)
  }

  /** What a `product.oldPrice && ...` slot renders: nothing without an old
      price, the bare number 0 for an old price of zero (a falsy number that
      the page renders as text), and otherwise the struck-out old price (on a
      card, with the discount badge). */
  datatype OldPriceSlot = NoOldPrice | ZeroOldPrice | StruckPrice(amount: nat)

  function OldPriceSlotFor(p: Product): (s: OldPriceSlot)
    ensures s.StruckPrice? <==> p.oldPrice.Some? && p.oldPrice.value != 0
    ensures s.StruckPrice? ==> p.oldPrice == Some(s.amount)
    ensures s == ZeroOldPrice <==> p.oldPrice == Some(0)
  {
    match p.oldPrice
    case None => NoOldPrice
    case Some(v) => if v == 0 then ZeroOldPrice else StruckPrice(v)
  }

  /** The product list's own state: the chosen category and the query. */
  class ProductBrowser {
    const catalog: seq<Product>
    const lower: string -> string
    var activeCategory: string
    var searchQuery: string

    function Shown(): seq<Product>
      reads this
    {
      Filter(catalog, activeCategory, searchQuery, lower)
    }

    /** The list opens on "all" with an empty query. */
    constructor (catalog: seq<Product>, lower: string -> string)
      ensures this.catalog == catalog && this.lower == lower
      ensures activeCategory == "all" && searchQuery == ""
      ensures lower("") == "" ==> Shown() == catalog
    {
      this.catalog := catalog;
      this.lower := lower;
      activeCategory := "all";
      searchQuery := "";
      new;
      if lower("") == "" {
        OpeningShowsAll(catalog, lower);
      }
    }

    /** Typing in the search box. */
    method Search(query: string)
      modifies this
      ensures searchQuery == query && activeCategory == old(activeCategory)
    {
      searchQuery := query;
    }

    /** A category button. */
    method PickCategory(i: nat)
      requires i < |CategoryIds|
      modifies this
      ensures activeCategory == CategoryIds[i] && searchQuery == old(searchQuery)
      ensures forall p | p in Shown() :: i == 0 || CategoryIds[i] == CategoryId(p.category)
    {
      activeCategory := CategoryIds[i];
    }

    /** The no-results notice's reset button: back to the opening state. */
    method Reset()
      requires GridFor(catalog, activeCategory, searchQuery, lower).NoResults?
      modifies this
      ensures activeCategory == "all" && searchQuery == ""
      ensures lower("") == "" ==> Shown() == catalog
    {
      searchQuery := "";
      activeCategory := "all";
      if lower("") == "" {
        OpeningShowsAll(catalog, lower);
      }
    }

    /** A card's details button opens that very product. */
    method ViewDetails(app: App, p: Product)
      requires p in Shown()
      modifies app
      ensures app.State() == old(app.State()).(selectedProduct := Some(p), view := ProductDetail)
    {
      app.OpenProduct(p);
    }

    /** A card's cart button adds that very product. */
    method AddFromCard(app: App, p: Product)
      requires p in Shown() && app.Valid()
      modifies app
      ensures app.State() == old(app.State()).(cart := AddToCart(old(app.cart), p))
      ensures app.Valid()
    {
      app.HandleAddToCart(p);
    }
  }
}
