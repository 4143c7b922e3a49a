/**
 * The product catalog (products/views1.py): product and category rows, lookups
 * by id and by slug, and the filters behind the product list and detail pages.
 * The product table is a sequence of rows, in the order the query returns them.
 */
module Catalog {
  import opened Common

  datatype Category = Category(id: CategoryId, name: string, slug: string)

  /** A product row. `price` is in paise (hundredths of a rupee). */
  datatype Product = Product(
    id: ProductId,
    category: CategoryId,
    name: string,
    slug: string,
    price: int,
    stock: int,
    available: bool)

  /** Primary keys are unique. */
  predicate DistinctIds(products: seq<Product>) {
    forall i, j :: 0 <= i < j < |products| ==> products[i].id != products[j].id
  }

  /** Position of the row with primary key `id`, or |products| when there is none. */
  function ProductIndex(products: seq<Product>, id: ProductId): (r: nat)
    ensures r <= |products|
    ensures r < |products| ==> products[r].id == id
    ensures forall k :: 0 <= k < r ==> products[k].id != id
  {
    if products == [] then 0
    else if products[0].id == id then 0
    else 1 + ProductIndex(products[1..], id)
  }

  /** `get_object_or_404(Product, id=id)` finds a row. */
  predicate InCatalog(products: seq<Product>, id: ProductId) {
    ProductIndex(products, id) < |products|
  }

  function PriceOf(products: seq<Product>, id: ProductId): int
    requires InCatalog(products, id)
  {
    products[ProductIndex(products, id)].price
  }

  /** The lookup depends on the keys only: rewriting other columns does not move it. */
  lemma {:induction false} SameKeysSameIndex(a: seq<Product>, b: seq<Product>, id: ProductId)
    requires |a| == |b|
    requires forall k :: 0 <= k < |a| ==> a[k].id == b[k].id
    ensures ProductIndex(a, id) == ProductIndex(b, id)
  {
    if a != [] && a[0].id != id {
      SameKeysSameIndex(a[1..], b[1..], id);
    }
  }

  /** Position of the first category with `slug`, or |categories|. */
  function CategoryIndex(categories: seq<Category>, slug: string): (r: nat)
    ensures r <= |categories|
    ensures r < |categories| ==> categories[r].slug == slug
    ensures forall k :: 0 <= k < r ==> categories[k].slug != slug
  {
    if categories == [] then 0
    else if categories[0].slug == slug then 0
    else 1 + CategoryIndex(categories[1..], slug)
  }

  /** A row the list page shows: available, and in `category` when one is chosen. */
  predicate Listed(p: Product, category: Option<CategoryId>) {
    p.available && (category.None? || p.category == category.value)
  }

  /** `Product.objects.filter(available=True)`, then `.filter(category=...)`. */
  function FilterListed(products: seq<Product>, category: Option<CategoryId>): (r: seq<Product>)
    ensures |r| <= |products|
    ensures forall x :: x in r <==> x in products && Listed(x, category)
    ensures forall x :: multiset(r)[x] == if Listed(x, category) then multiset(products)[x] else 0
  {
    if products == [] then []
    else
      assert products == [products[0]] + products[1..];
      var rest := FilterListed(products[1..], category);
      if Listed(products[0], category) then [products[0]] + rest else rest
  }

  /** What the list page renders. */
  datatype ListPage = ListPage(category: Option<Category>, categories: seq<Category>, products: seq<Product>)

  /** A slug counts only when it is non-empty, as `if category_slug:` tests. */
  predicate SlugGiven(slug: Option<string>) {
    slug.Some? && slug.value != ""
  }

  /**
   * `product_list`: the available products, restricted to the category named by
   * `slug` when one is given; None stands for the 404 of an unknown slug.
   */
  function ProductList(products: seq<Product>, categories: seq<Category>, slug: Option<string>): (r: Option<ListPage>)
    ensures r.None? <==> SlugGiven(slug) && CategoryIndex(categories, slug.value) == |categories|
    ensures r.Some? ==> r.value.categories == categories
    ensures r.Some? ==> forall x :: x in r.value.products ==> x in products && x.available
    ensures r.Some? && !SlugGiven(slug) ==>
      r.value.category.None? && forall x :: x in r.value.products <==> x in products && x.available
    ensures r.Some? && SlugGiven(slug) ==>
      r.value.category.Some? && r.value.category.value in categories && r.value.category.value.slug == slug.value &&
      forall x :: x in r.value.products <==>
        x in products && x.available && x.category == r.value.category.value.id
    ensures r.Some? ==>
      forall x :: multiset(r.value.products)[x] ==
        if x.available && (r.value.category.None? || x.category == r.value.category.value.id)
        then multiset(products)[x] else 0
  {
    if SlugGiven(slug) then
      var c := CategoryIndex(categories, slug.value);
      if c == |categories| then None
      else Some(ListPage(Some(categories[c]), categories, FilterListed(products, Some(categories[c].id))))
    else
      Some(ListPage(None, categories, FilterListed(products, None)))
  }

  /** The row `product_detail` looks up: this id, this slug, and available. */
  predicate Shown(p: Product, id: ProductId, slug: string) {
    p.id == id && p.slug == slug && p.available
  }

  /** `get_object_or_404(Product, id=id, slug=slug, available=True)`; None is the 404. */
  function ProductDetail(products: seq<Product>, id: ProductId, slug: string): (r: Option<Product>)
    ensures r.Some? <==> exists k :: 0 <= k < |products| && Shown(products[k], id, slug)
    ensures r.Some? ==> r.value in products && Shown(r.value, id, slug)
  {
    if products == [] then None
    else if Shown(products[0], id, slug) then Some(products[0])
    else ProductDetail(products[1..], id, slug)
  }

  /** The detail page of an unavailable product is a 404, whatever slug is asked for. */
  lemma UnavailableIsNotFound(products: seq<Product>, k: nat, slug: string)
    requires DistinctIds(products) && k < |products| && !products[k].available
    ensures ProductDetail(products, products[k].id, slug).None?
  {
  }

  /** Asking for a known id with a slug other than its own is a 404. */
  lemma WrongSlugIsNotFound(products: seq<Product>, k: nat, slug: string)
    requires DistinctIds(products) && k < |products| && slug != products[k].slug
    ensures ProductDetail(products, products[k].id, slug).None?
  {
  }
}
