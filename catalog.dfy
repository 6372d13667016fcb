/** The product catalogue: the listing query with its filters, sort orders
    and pagination, and the store of products with lookup, creation, update
    and deletion. The products are kept in a sequence in the order the
    store holds them. */
module Catalog {
  import opened Common
  import opened ProductSchema
  import Sorting

  const ProductNotFoundMessage := "Không tìm thấy sản phẩm"
  const ProductDeletedMessage := "Xóa sản phẩm thành công"
  /** The store's validation error, whose text is not modelled. */
  const StoreRejectedMessage := "Product validation failed"
  /** The store's error for a negative offset, whose text is not modelled. */
  const NegativeSkipMessage := "skip must be non-negative"

  // ------------------------------------------------------------- the query

  /** The query string of a listing request. The two price bounds are
      `None` when absent or empty, otherwise the number they spell; `page`
      and `limit` are `None` when absent. */
  datatype ProductQuery = ProductQuery(category: Option<string>, badge: Option<string>,
                                       search: Option<string>,
                                       priceMin: Option<int>, priceMax: Option<int>,
                                       sort: Option<string>,
                                       page: Option<int>, limit: Option<int>)

  const DefaultPage := 1
  const DefaultLimit := 12

  function Page(q: ProductQuery): int {
    if q.page.Some? then q.page.value else DefaultPage
  }

  function Limit(q: ProductQuery): int {
    if q.limit.Some? then q.limit.value else DefaultLimit
  }

  /** The offset of the requested page. */
  function Skip(q: ProductQuery): int {
    (Page(q) - 1) * Limit(q)
  }

  predicate CategoryFiltered(q: ProductQuery) {
    TruthyParam(q.category) && q.category.value != "all"
  }

  /** The condition the query puts on one product: active, and every filter
      the request supplies. */
  predicate Matches(q: ProductQuery, p: Product) {
    && p.isActive == Some(true)
    && (CategoryFiltered(q) ==> CategoryName(p.category) == q.category.value)
    && (TruthyParam(q.badge) ==> p.badge.Some? && BadgeName(p.badge.value) == q.badge.value)
    && (TruthyParam(q.search) ==>
          ContainsIgnoreCase(p.name, q.search.value) || ContainsIgnoreCase(p.description, q.search.value))
    && (q.priceMin.Some? ==> p.price >= q.priceMin.value)
    && (q.priceMax.Some? ==> p.price <= q.priceMax.value)
  }

  /** The products the query selects, in store order. */
  function Filter(products: seq<Product>, q: ProductQuery): (r: seq<Product>)
    ensures |r| <= |products|
    ensures forall p :: p in r <==> p in products && Matches(q, p)
  {
    if |products| == 0 then []
    else
      var rest := Filter(products[1..], q);
      assert forall p :: p in products <==> p == products[0] || p in products[1..];
      if Matches(q, products[0]) then [products[0]] + rest else rest
  }

  /** Filtering distributes over concatenation: the selected products keep
      their store order and their multiplicity. */
  lemma {:induction false} FilterSplit(a: seq<Product>, b: seq<Product>, q: ProductQuery)
    ensures Filter(a + b, q) == Filter(a, q) + Filter(b, q)
  {
    if |a| == 0 {
      assert a + b == b;
    } else {
      var ab := a + b;
      assert ab[0] == a[0];
      assert ab[1..] == a[1..] + b;
      FilterSplit(a[1..], b, q);
      if Matches(q, a[0]) {
        calc {
          Filter(ab, q);
          [a[0]] + Filter(a[1..] + b, q);
          [a[0]] + (Filter(a[1..], q) + Filter(b, q));
          ([a[0]] + Filter(a[1..], q)) + Filter(b, q);
          Filter(a, q) + Filter(b, q);
        }
      } else {
        calc {
          Filter(ab, q);
          Filter(a[1..] + b, q);
          Filter(a[1..], q) + Filter(b, q);
          Filter(a, q) + Filter(b, q);
        }
      }
    }
  }

  // ----------------------------------------------------------- sort orders

  datatype SortKey = PriceAscending | PriceDescending | NameAscending | NewestFirst

  /** The `sort` parameter; anything unrecognised, and its absence, means
      newest first. */
  function SortKeyOf(sort: Option<string>): (k: SortKey)
    ensures sort == Some("price-asc") <==> k == PriceAscending
    ensures sort == Some("price-desc") <==> k == PriceDescending
    ensures sort == Some("name") <==> k == NameAscending
  {
    if sort == Some("price-asc") then PriceAscending
    else if sort == Some("price-desc") then PriceDescending
    else if sort == Some("name") then NameAscending
    else NewestFirst
  }

  /** "may come before" for a sort key. */
  function Before(k: SortKey): (Product, Product) -> bool {
    match k
    case PriceAscending => (a: Product, b: Product) => a.price <= b.price
    case PriceDescending => (a: Product, b: Product) => a.price >= b.price
    case NameAscending => (a: Product, b: Product) => Sorting.LexLeq(a.name, b.name)
    case NewestFirst => (a: Product, b: Product) => a.createdAt >= b.createdAt
  }

  lemma BeforeIsPreorder(k: SortKey)
    ensures Sorting.TotalPreorder(Before(k))
  {
    if k == NameAscending {
      var le := Before(k);
      forall a: Product, b: Product ensures le(a, b) || le(b, a) {
        Sorting.LexLeqTotal(a.name, b.name);
      }
      forall a: Product, b: Product, c: Product | le(a, b) && le(b, c) ensures le(a, c) {
        Sorting.LexLeqTransitive(a.name, b.name, c.name);
      }
    }
  }

  /** The selected products in the order the query asks for. */
  function Ranked(products: seq<Product>, q: ProductQuery): seq<Product> {
    Sorting.InsertionSort(Filter(products, q), Before(SortKeyOf(q.sort)))
  }

  lemma RankedCorrect(products: seq<Product>, q: ProductQuery)
    ensures Sorting.SortedBy(Ranked(products, q), Before(SortKeyOf(q.sort)))
    ensures multiset(Ranked(products, q)) == multiset(Filter(products, q))
    ensures forall p :: p in Ranked(products, q) <==> p in products && Matches(q, p)
  {
    BeforeIsPreorder(SortKeyOf(q.sort));
    Sorting.InsertionSortCorrect(Filter(products, q), Before(SortKeyOf(q.sort)));
    forall p ensures p in Ranked(products, q) <==> p in Filter(products, q) {
      assert p in Ranked(products, q) <==> p in multiset(Ranked(products, q));
      assert p in Filter(products, q) <==> p in multiset(Filter(products, q));
    }
  }

  // ------------------------------------------------------------ pagination

  function Abs(x: int): nat {
    if x < 0 then -x else x
  }

  /** The document store's `skip` then `limit`: a limit of zero means no
      limit, and a negative limit is taken by its absolute value. */
  function Window(s: seq<Product>, skip: nat, limit: int): (r: seq<Product>)
    ensures limit != 0 ==> |r| <= Abs(limit)
    ensures skip >= |s| ==> r == []
    ensures skip < |s| ==> |r| == if limit == 0 || |s| - skip <= Abs(limit) then |s| - skip else Abs(limit)
    ensures forall i :: 0 <= i < |r| ==> skip + i < |s| && r[i] == s[skip + i]
  {
    var rest := if skip <= |s| then s[skip..] else [];
    if limit == 0 || |rest| <= Abs(limit) then rest else rest[..Abs(limit)]
  }

  /** `Math.ceil(total / limit)`; division by zero gives a non-finite number,
      which the JSON response carries as null. */
  function PageCount(total: nat, limit: int): (r: Option<int>)
    ensures limit == 0 <==> r.None?
    ensures limit > 0 ==> (r.value - 1) * limit < total <= r.value * limit
    ensures limit < 0 ==> r.value * limit <= total < (r.value - 1) * limit
  {
    if limit > 0 then
      var q := (total + limit - 1) / limit;
      var m := (total + limit - 1) % limit;
      assert q * limit + m == total + limit - 1;
      assert q * limit - limit == (q - 1) * limit;
      Some(q)
    else if limit == 0 then None
    else
      var n := -limit;
      var q := total / n;
      var m := total % n;
      assert q * n + m == total;
      assert -q * limit == q * n;
      assert (-q - 1) * limit == q * n + n;
      Some(-q)
  }

  /** The body of a successful listing response. */
  datatype ProductPage = ProductPage(count: int, total: int, page: int, pages: Option<int>,
                                     data: seq<Product>)

  /** GET /products. A negative offset makes the store fail. */
  function ListProducts(products: seq<Product>, q: ProductQuery): (r: Outcome<ProductPage>)
    ensures r.Ok? <==> Skip(q) >= 0
    ensures !r.Ok? ==> r.ServerError?
    ensures r.Ok? ==> r.value.count == |r.value.data| && r.value.page == Page(q)
                      && r.value.total == |Filter(products, q)|
                      && r.value.pages == PageCount(r.value.total, Limit(q))
  {
    if Skip(q) < 0 then ServerError(NegativeSkipMessage)
    else
      var matches := Ranked(products, q);
      var data := Window(matches, Skip(q), Limit(q));
      Ok(ProductPage(|data|, |Filter(products, q)|, Page(q), PageCount(|Filter(products, q)|, Limit(q)), data))
  }

  /** Every listed product is in the store, active and selected by the query,
      and the page is ordered by the requested key. */
  lemma ListedProductsMatch(products: seq<Product>, q: ProductQuery)
    requires ListProducts(products, q).Ok?
    ensures forall p :: p in ListProducts(products, q).value.data ==>
              p in products && p.isActive == Some(true) && Matches(q, p)
    ensures Sorting.SortedBy(ListProducts(products, q).value.data, Before(SortKeyOf(q.sort)))
  {
    RankedCorrect(products, q);
    var s := Ranked(products, q);
    var data := ListProducts(products, q).value.data;
    forall p | p in data ensures p in s {
      var i :| 0 <= i < |data| && data[i] == p;
      assert s[Skip(q) + i] == p;
    }
    forall i, j | 0 <= i < j < |data| ensures Before(SortKeyOf(q.sort))(data[i], data[j]) {
      assert data[i] == s[Skip(q) + i] && data[j] == s[Skip(q) + j];
    }
  }

  /** Ranking reorders the matches and neither adds nor drops one. */
  lemma RankedLength(products: seq<Product>, q: ProductQuery)
    ensures |Ranked(products, q)| == |Filter(products, q)|
  {
    var s := Ranked(products, q);
    var f := Filter(products, q);
    RankedCorrect(products, q);
    assert |s| == |multiset(s)| == |multiset(f)| == |f|;
  }

  /** The page is the run of the ranked matches that starts at offset
      (page - 1) * limit, at most |limit| long (all of them for a zero
      limit), and `pages` pages of `limit` cover the `total` matches. */
  lemma PageIsWindow(products: seq<Product>, q: ProductQuery)
    requires ListProducts(products, q).Ok?
    ensures var r := ListProducts(products, q).value;
            var s := Ranked(products, q);
            && |s| == r.total
            && (forall i :: 0 <= i < |r.data| ==> r.data[i] == s[Skip(q) + i])
            && (Skip(q) >= r.total ==> r.data == [])
            && (Skip(q) < r.total && Limit(q) == 0 ==> |r.data| == r.total - Skip(q))
            && (Skip(q) < r.total && Limit(q) != 0 ==>
                  |r.data| == if r.total - Skip(q) < Abs(Limit(q)) then r.total - Skip(q) else Abs(Limit(q)))
            && (Limit(q) > 0 ==> (r.pages.value - 1) * Limit(q) < r.total <= r.pages.value * Limit(q))
  {
    var s := Ranked(products, q);
    var f := Filter(products, q);
    RankedLength(products, q);
    var r := ListProducts(products, q).value;
    assert r.data == Window(s, Skip(q), Limit(q));
    assert r.total == |f|;
    assert r.pages == PageCount(|f|, Limit(q));
  }

  /** The category value `all` and an absent category both leave the category
      unconstrained. */
  lemma AllCategoriesIsNoFilter(q: ProductQuery, p: Product)
    ensures Matches(q.(category := Some("all")), p) <==> Matches(q.(category := None), p)
    ensures q.category.Some? && q.category.value != "all" && q.category.value != "" ==>
              (Matches(q, p) ==> CategoryName(p.category) == q.category.value)
  {
  }

  /** The price bounds are inclusive, and only a supplied bound applies. */
  lemma PriceBoundsInclusive(q: ProductQuery, p: Product)
    requires Matches(q.(priceMin := None, priceMax := None), p)
    ensures q.priceMin == Some(p.price) && q.priceMax == Some(p.price) ==> Matches(q, p)
    ensures Matches(q, p) <==> ((q.priceMin.None? || q.priceMin.value <= p.price)
                               && (q.priceMax.None? || p.price <= q.priceMax.value))
  {
  }

  /** A product whose name holds the search term, in any letter case, is
      selected by a search for it, other filters permitting. */
  lemma SearchIgnoresCase(q: ProductQuery, p: Product, i: nat)
    requires TruthyParam(q.search) && Matches(q.(search := None), p)
    requires i + |q.search.value| <= |p.name|
    requires Lower(p.name[i..i + |q.search.value|]) == Lower(q.search.value)
    ensures Matches(q, p)
  {
    var s := q.search.value;
    assert Lower(p.name)[i..i + |s|] == Lower(p.name[i..i + |s|]);
    assert MatchesAt(p.name, s, i);
  }

  // ------------------------------------------------------------- the store

  /** The products of `s` other than the one with identifier `id`, in order. */
  function Without(s: seq<Product>, id: Id): (r: seq<Product>)
    ensures |r| <= |s|
    ensures forall p :: p in r <==> p in s && p.id != id
    ensures (forall k :: 0 <= k < |s| ==> s[k].id != id) ==> r == s
  {
    if |s| == 0 then []
    else
      var rest := Without(s[1..], id);
      assert forall p :: p in s <==> p == s[0] || p in s[1..];
      if s[0].id == id then rest else [s[0]] + rest
  }

  /** Removing an identifier that occurs once shortens the sequence by one. */
  lemma {:induction false} WithoutOne(s: seq<Product>, id: Id, k: nat)
    requires k < |s| && s[k].id == id
    requires forall i, j :: 0 <= i < j < |s| ==> s[i].id != s[j].id
    ensures Without(s, id) == s[..k] + s[k + 1..]
  {
    var tail := s[1..];
    if k > 0 {
      assert s[0].id != id;
      forall i, j | 0 <= i < j < |tail| ensures tail[i].id != tail[j].id {
        assert tail[i] == s[i + 1] && tail[j] == s[j + 1];
      }
      WithoutOne(tail, id, k - 1);
      assert tail[..k - 1] == s[1..k];
      assert tail[k..] == s[k + 1..];
      calc {
        Without(s, id);
        [s[0]] + Without(tail, id);
        [s[0]] + (s[1..k] + s[k + 1..]);
        ([s[0]] + s[1..k]) + s[k + 1..];
        { assert s[..k] == [s[0]] + s[1..k]; }
        s[..k] + s[k + 1..];
      }
    } else {
      forall j | 0 <= j < |tail| ensures tail[j].id != id {
        assert tail[j] == s[j + 1];
      }
      calc {
        Without(s, id);
        Without(tail, id);
        tail;
        { assert s[..0] == []; }
        s[..0] + s[1..];
      }
    }
  }

  /** Dropping one product keeps every other product valid, below the
      identifier bound and with a distinct identifier. */
  lemma DropKeepsStore(s: seq<Product>, k: nat, bound: Id)
    requires k < |s|
    requires forall i :: 0 <= i < |s| ==> s[i].id < bound && ProductSatisfiesSchema(s[i])
    requires forall i, j :: 0 <= i < j < |s| ==> s[i].id != s[j].id
    ensures var t := s[..k] + s[k + 1..];
            && (forall i :: 0 <= i < |t| ==> t[i].id < bound && ProductSatisfiesSchema(t[i]))
            && (forall i, j :: 0 <= i < j < |t| ==> t[i].id != t[j].id)
  {
    var t := s[..k] + s[k + 1..];
    assert forall i :: 0 <= i < |t| ==> t[i] == s[if i < k then i else i + 1];
  }

  /** The position of the product with identifier `id`, if any. */
  function IndexOf(s: seq<Product>, id: Id): (r: Option<nat>)
    ensures r.Some? ==> r.value < |s| && s[r.value].id == id
    ensures r.None? <==> forall k :: 0 <= k < |s| ==> s[k].id != id
  {
    if |s| == 0 then None
    else if s[0].id == id then Some(0)
    else match IndexOf(s[1..], id)
      case None => None
      case Some(k) => Some(k + 1)
  }

  class ProductStore {
    var products: seq<Product>
    var nextId: nat

    /** Identifiers are distinct and below `nextId`, and every product
        satisfies the schema. */
    ghost predicate Valid()
      reads this
    {
      && (forall i :: 0 <= i < |products| ==> products[i].id < nextId && ProductSatisfiesSchema(products[i]))
      && (forall i, j :: 0 <= i < j < |products| ==> products[i].id != products[j].id)
    }

    constructor ()
      ensures Valid() && products == [] && nextId == 0
    {
      products := [];
      nextId := 0;
    }

    /** GET /products/:id. */
    method GetProduct(id: Id) returns (r: Outcome<Product>)
      ensures r.Ok? || r == NotFound(ProductNotFoundMessage)
      ensures r.Ok? <==> exists k :: 0 <= k < |products| && products[k].id == id
      ensures r.Ok? ==> r.value in products && r.value.id == id
    {
      var k := IndexOf(products, id);
      if k.None? {
        r := NotFound(ProductNotFoundMessage);
      } else {
        r := Ok(products[k.value]);
      }
    }

    /** POST /products (administrators only). A body the schema refuses makes
        the store fail and stores nothing. */
    method CreateProduct(body: ProductDoc, now: int) returns (r: Outcome<Product>)
      requires Valid()
      modifies this
      ensures Valid()
      ensures r.Ok? <==> ProductDocValid(body)
      ensures !r.Ok? ==> r == ServerError(StoreRejectedMessage) && products == old(products)
                         && nextId == old(nextId)
      ensures r.Ok? ==> Some(r.value) == ValidateProduct(body, old(nextId), now)
                        && products == old(products) + [r.value] && nextId == old(nextId) + 1
    {
      var p := ValidateProduct(body, nextId, now);
      if p.None? {
        r := ServerError(StoreRejectedMessage);
      } else {
        products := products + [p.value];
        nextId := nextId + 1;
        r := Ok(p.value);
      }
    }

    /** PUT /products/:id (administrators only): unknown identifiers give
        404; a body whose supplied fields break the schema makes the store
        fail and changes nothing; otherwise exactly that product is rewritten
        and the response carries its new state. */
    method UpdateProduct(id: Id, body: ProductDoc) returns (r: Outcome<Product>)
      requires Valid()
      modifies this
      ensures Valid() && nextId == old(nextId) && |products| == |old(products)|
      ensures (forall k :: 0 <= k < |old(products)| ==> old(products)[k].id != id) ==>
                r == NotFound(ProductNotFoundMessage) && products == old(products)
      ensures (exists k :: 0 <= k < |old(products)| && old(products)[k].id == id) && !FieldsAccepted(body) ==>
                r == ServerError(StoreRejectedMessage) && products == old(products)
      ensures forall k :: 0 <= k < |old(products)| && old(products)[k].id == id && FieldsAccepted(body) ==>
                r == Ok(ApplyFields(old(products)[k], body))
      ensures r.Ok? ==> FieldsAccepted(body) && r.value.id == id
      ensures r.Ok? ==> forall k :: 0 <= k < |products| ==>
                products[k] == if old(products)[k].id == id then ApplyFields(old(products)[k], body)
                               else old(products)[k]
      ensures r.Ok? || products == old(products)
      ensures r.Ok? ==> r.value in products
    {
      var k := IndexOf(products, id);
      if k.None? {
        r := NotFound(ProductNotFoundMessage);
      } else if !FieldsAccepted(body) {
        r := ServerError(StoreRejectedMessage);
      } else {
        var p := ApplyFields(products[k.value], body);
        assert forall j :: 0 <= j < |products| && j != k.value ==> products[j].id != id;
        products := products[k.value := p];
        r := Ok(p);
      }
    }

    /** DELETE /products/:id (administrators only): unknown identifiers give
        404; otherwise that product, and only it, leaves the store, and the
        others keep their order. */
    method DeleteProduct(id: Id) returns (r: Outcome<string>)
      requires Valid()
      modifies this
      ensures Valid() && nextId == old(nextId)
      ensures r.Ok? || r == NotFound(ProductNotFoundMessage)
      ensures r.Ok? <==> exists k :: 0 <= k < |old(products)| && old(products)[k].id == id
      ensures r.Ok? ==> r.value == ProductDeletedMessage && |products| == |old(products)| - 1
      ensures products == Without(old(products), id)
      ensures forall p :: p in products <==> p in old(products) && p.id != id
    {
      var k := IndexOf(products, id);
      if k.None? {
        r := NotFound(ProductNotFoundMessage);
      } else {
        WithoutOne(products, id, k.value);
        DropKeepsStore(products, k.value, nextId);
        products := Without(products, id);
        r := Ok(ProductDeletedMessage);
      }
    }
  }
}
