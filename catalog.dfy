/** The static catalog: the category and product tables and the four
    queries the screens run over them. */
module Catalog {
  import opened Lists

  datatype Category = Category(id: string, name: string, slug: string,
                               description: Option<string>, image: Option<string>)

  /** A product; the optional fields of the table are Options. */
  datatype Product = Product(id: string, name: string, price: real, category: string, image: string,
                             description: Option<string>, sku: Option<string>, isNew: Option<bool>)

  const CATEGORIES: seq<Category> := [
    Category("1", "Metal Filaments", "metal-filaments",
             Some("Filled with real metal - magnetic steel & iron - polish or patina"),
             Some("https://images.unsplash.com/photo-1558618666-fcd25c85cd64?w=400&h=300&fit=crop")),
    Category("2", "HTPLA", "htpla",
             Some("High temperature PLA for functional prints"),
             Some("https://images.unsplash.com/photo-1581091226825-a6a2a5aee158?w=400&h=300&fit=crop")),
    Category("3", "PLA", "pla",
             Some("Premium PLA filaments in various colors"),
             Some("https://images.unsplash.com/photo-1581092921461-eab62e97a780?w=400&h=300&fit=crop")),
    Category("4", "Subscriptions", "subscriptions",
             Some("Monthly filament subscription boxes"),
             Some("https://images.unsplash.com/photo-1558618666-fcd25c85cd64?w=400&h=300&fit=crop"))
  ]

  const PRODUCTS: seq<Product> := [
    Product("1", "Endless PLA Filament Color Subscription", 14.99, "subscriptions",
            "https://images.unsplash.com/photo-1609921212029-bb5a28e60960?w=400&h=400&fit=crop",
            Some("Monthly color subscription for endless creativity"), Some("ENDLESS-50G"), Some(true)),
    Product("2", "Endless PLA Filament Color Subscription", 14.99, "subscriptions",
            "https://images.unsplash.com/photo-1617791160505-6f00504e3519?w=400&h=400&fit=crop",
            Some("Monthly color subscription for endless creativity"), Some("ENDLESS-MULTI"), Some(true)),
    Product("3", "Gradient Gray Multicolor HTPLA", 14.99, "htpla",
            "https://images.unsplash.com/photo-1558618666-fcd25c85cd64?w=400&h=400&fit=crop",
            Some("Beautiful gradient from light to dark gray"), Some("HTPLA-GRAY-GRAD"), Some(true)),
    Product("4", "Gradient Gray Multicolor HTPLA", 14.99, "htpla",
            "https://images.unsplash.com/photo-1581091226825-a6a2a5aee158?w=400&h=400&fit=crop",
            Some("Beautiful gradient from light to dark gray"), Some("HTPLA-GRAY-GRAD-2"), Some(true)),
    Product("5", "Magnetic Iron PLA Composite", 29.99, "metal-filaments",
            "https://images.unsplash.com/photo-1558618666-fcd25c85cd64?w=400&h=400&fit=crop",
            Some("Real iron-filled filament that can be magnetized and rusted"), Some("METAL-IRON"), None),
    Product("6", "Stainless Steel PLA Composite", 34.99, "metal-filaments",
            "https://images.unsplash.com/photo-1581092921461-eab62e97a780?w=400&h=400&fit=crop",
            Some("Polishable stainless steel composite filament"), Some("METAL-STEEL"), None),
    Product("7", "Copper Metal Composite PLA", 39.99, "metal-filaments",
            "https://images.unsplash.com/photo-1617791160505-6f00504e3519?w=400&h=400&fit=crop",
            Some("Real copper-filled filament with patina potential"), Some("METAL-COPPER"), None),
    Product("8", "Bronze Metal Composite PLA", 39.99, "metal-filaments",
            "https://images.unsplash.com/photo-1609921212029-bb5a28e60960?w=400&h=400&fit=crop",
            Some("Classic bronze appearance with real metal particles"), Some("METAL-BRONZE"), None),
    Product("9", "Midnight Black HTPLA", 19.99, "htpla",
            "https://images.unsplash.com/photo-1558618666-fcd25c85cd64?w=400&h=400&fit=crop",
            Some("Deep black heat-treatable PLA"), Some("HTPLA-BLACK"), None),
    Product("10", "Pearl White HTPLA", 19.99, "htpla",
            "https://images.unsplash.com/photo-1581091226825-a6a2a5aee158?w=400&h=400&fit=crop",
            Some("Lustrous pearl white finish"), Some("HTPLA-WHITE"), None),
    Product("11", "Forest Green HTPLA", 19.99, "htpla",
            "https://images.unsplash.com/photo-1581092921461-eab62e97a780?w=400&h=400&fit=crop",
            Some("Rich forest green high-temp PLA"), Some("HTPLA-GREEN"), None),
    Product("12", "Standard PLA - Red", 14.99, "pla",
            "https://images.unsplash.com/photo-1617791160505-6f00504e3519?w=400&h=400&fit=crop",
            Some("Vibrant red standard PLA filament"), Some("PLA-RED"), None),
    Product("13", "Standard PLA - Blue", 14.99, "pla",
            "https://images.unsplash.com/photo-1609921212029-bb5a28e60960?w=400&h=400&fit=crop",
            Some("Ocean blue standard PLA filament"), Some("PLA-BLUE"), None),
    Product("14", "Standard PLA - Yellow", 14.99, "pla",
            "https://images.unsplash.com/photo-1558618666-fcd25c85cd64?w=400&h=400&fit=crop",
            Some("Bright yellow standard PLA filament"), Some("PLA-YELLOW"), None)
  ]

  // ---------------------------------------------------------------------
  // Queries

  /** `p.isNew` is truthy: present and true. */
  predicate IsNewProduct(p: Product) {
    p.isNew == Some(true)
  }

  function InCategory(slug: string): Product -> bool {
    (p: Product) => p.category == slug
  }

  function ProductHasId(id: string): Product -> bool {
    (p: Product) => p.id == id
  }

  function CategoryHasSlug(slug: string): Category -> bool {
    (c: Category) => c.slug == slug
  }

  // Each query is stated over any table and applied to the constant one.

  /** `products.filter(p => p.isNew)` */
  function NewestIn(products: seq<Product>): (r: seq<Product>)
    ensures forall k :: 0 <= k < |r| ==> IsNewProduct(r[k])
  {
    Filter(products, IsNewProduct)
  }

  /** `products.filter(p => p.category === slug)` */
  function InCategoryIn(products: seq<Product>, slug: string): (r: seq<Product>)
    ensures forall k :: 0 <= k < |r| ==> r[k].category == slug
  {
    Filter(products, InCategory(slug))
  }

  /** `products.find(p => p.id === id)`: None is `undefined`. */
  function ProductByIdIn(products: seq<Product>, id: string): (r: Option<Product>)
    ensures r.None? <==> forall k :: 0 <= k < |products| ==> products[k].id != id
    ensures r.Some? ==> r.value.id == id && r.value in products
  {
    Find(products, ProductHasId(id))
  }

  /** `categories.find(c => c.slug === slug)` */
  function CategoryBySlugIn(categories: seq<Category>, slug: string): (r: Option<Category>)
    ensures r.None? <==> forall k :: 0 <= k < |categories| ==> categories[k].slug != slug
    ensures r.Some? ==> r.value.slug == slug && r.value in categories
  {
    Find(categories, CategoryHasSlug(slug))
  }

  function GetNewestProducts(): seq<Product> {
    NewestIn(PRODUCTS)
  }

  function GetProductsByCategory(slug: string): seq<Product> {
    InCategoryIn(PRODUCTS, slug)
  }

  function GetProductById(id: string): Option<Product> {
    ProductByIdIn(PRODUCTS, id)
  }

  function GetCategoryBySlug(slug: string): Option<Category> {
    CategoryBySlugIn(CATEGORIES, slug)
  }

  // ---------------------------------------------------------------------
  // Facts about the tables

  /** The newest products are exactly the products flagged new, each as
      often as in the table, in table order. */
  lemma NewestInTableOrder(products: seq<Product>)
    ensures IsSubsequence(NewestIn(products), products)
    ensures forall p :: multiset(NewestIn(products))[p] == if IsNewProduct(p) then multiset(products)[p] else 0
  {
    FilterIsSubsequence(products, IsNewProduct);
    FilterCounts(products, IsNewProduct);
  }

  /** A category's products are exactly the products with that slug, in table order. */
  lemma InCategoryInTableOrder(products: seq<Product>, slug: string)
    ensures IsSubsequence(InCategoryIn(products, slug), products)
    ensures forall p :: multiset(InCategoryIn(products, slug))[p] == if p.category == slug then multiset(products)[p] else 0
  {
    FilterIsSubsequence(products, InCategory(slug));
    FilterCounts(products, InCategory(slug));
  }

  /** The lookup returns the first product with the id. */
  lemma ProductByIdIsFirst(products: seq<Product>, id: string, k: nat)
    requires k < |products| && products[k].id == id
    requires forall j :: 0 <= j < k ==> products[j].id != id
    ensures ProductByIdIn(products, id) == Some(products[k])
  {
    var r := ProductByIdIn(products, id);
    var i :| 0 <= i < |products| && products[i] == r.value && ProductHasId(id)(products[i])
             && forall j :: 0 <= j < i ==> !ProductHasId(id)(products[j]);
  }

  /** The lookup returns the first category with the slug. */
  lemma CategoryBySlugIsFirst(categories: seq<Category>, slug: string, k: nat)
    requires k < |categories| && categories[k].slug == slug
    requires forall j :: 0 <= j < k ==> categories[j].slug != slug
    ensures CategoryBySlugIn(categories, slug) == Some(categories[k])
  {
    var r := CategoryBySlugIn(categories, slug);
    var i :| 0 <= i < |categories| && categories[i] == r.value && CategoryHasSlug(slug)(categories[i])
             && forall j :: 0 <= j < i ==> !CategoryHasSlug(slug)(categories[j]);
  }

  lemma ProductIdsDistinct()
    ensures forall i, j :: 0 <= i < j < |PRODUCTS| ==> PRODUCTS[i].id != PRODUCTS[j].id
  {
  }

  /** Ids being distinct, looking a product up by its id finds that product. */
  lemma ProductFoundById(k: nat)
    requires k < |PRODUCTS|
    ensures GetProductById(PRODUCTS[k].id) == Some(PRODUCTS[k])
  {
    ProductIdsDistinct();
    ProductByIdIsFirst(PRODUCTS, PRODUCTS[k].id, k);
  }

  /** Every product's category is the slug of a listed category. */
  lemma ProductCategoriesKnown()
    ensures forall k :: 0 <= k < |PRODUCTS| ==> GetCategoryBySlug(PRODUCTS[k].category).Some?
  {
  }
}
