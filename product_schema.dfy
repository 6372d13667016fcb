/** The product document schema: required fields, the trimmed and bounded
    name, the non-negative price and stock, the category and badge
    enumerations, the rating range and the defaults the document store fills
    in. The same field rules are applied to a whole new document and to the
    fields of an update. */
module ProductSchema {
  import opened Common

  datatype Category = Men | Women | Accessories
  datatype Badge = New | Sale

  const CategoryNames: seq<string> := ["men", "women", "accessories"]
  const BadgeNames: seq<string> := ["new", "sale"]
  const NameMaxLength := 100
  const MaxRating: real := 5.0

  function CategoryName(c: Category): string {
    match c
    case Men => "men"
    case Women => "women"
    case Accessories => "accessories"
  }

  function BadgeName(b: Badge): string {
    match b
    case New => "new"
    case Sale => "sale"
  }

  function ParseCategory(s: string): (r: Option<Category>)
    ensures r.Some? <==> s in CategoryNames
    ensures r.Some? ==> CategoryName(r.value) == s
  {
    if s == "men" then Some(Men)
    else if s == "women" then Some(Women)
    else if s == "accessories" then Some(Accessories)
    else None
  }

  function ParseBadge(s: string): (r: Option<Badge>)
    ensures r.Some? <==> s in BadgeNames
    ensures r.Some? ==> BadgeName(r.value) == s
  {
    if s == "new" then Some(New)
    else if s == "sale" then Some(Sale)
    else None
  }

  /** A product as stored. Fields the schema does not require may hold null
      (`None`) when a client sent null for them. */
  datatype Product = Product(id: Id, name: string, description: string, price: int,
                             originalPrice: Option<int>, category: Category,
                             badge: Option<Badge>, image: Option<string>, stock: int,
                             sold: Option<int>, rating: Option<real>,
                             numReviews: Option<int>, isActive: Option<bool>,
                             createdAt: int)

  /** The fields of a request body that creates or updates a product. */
  datatype ProductDoc = ProductDoc(name: Field<string>, description: Field<string>,
                                   price: Field<int>, originalPrice: Field<int>,
                                   category: Field<string>, badge: Field<string>,
                                   image: Field<string>, stock: Field<int>,
                                   sold: Field<int>, rating: Field<real>,
                                   numReviews: Field<int>, isActive: Field<bool>)

  // -------------------------------------------------------- the field rules

  /** A name value is accepted when, after the trim setter, it is non-empty
      and at most 100 characters long. */
  predicate NameAccepted(s: string) {
    Trim(s) != "" && |Trim(s)| <= NameMaxLength
  }

  predicate RatingInRange(x: real) {
    0.0 <= x <= MaxRating
  }

  /** The rules of every field that a body supplies. A missing field is not
      checked; null fails on the required fields (name, description, price,
      category, stock) and is stored as null elsewhere; the badge enumeration
      admits null. */
  predicate FieldsAccepted(d: ProductDoc) {
    && !d.name.Null? && (d.name.Value? ==> NameAccepted(d.name.v))
    && !d.description.Null? && (d.description.Value? ==> d.description.v != "")
    && !d.price.Null? && (d.price.Value? ==> d.price.v >= 0)
    && !d.category.Null? && (d.category.Value? ==> ParseCategory(d.category.v).Some?)
    && (d.badge.Value? ==> ParseBadge(d.badge.v).Some?)
    && !d.stock.Null? && (d.stock.Value? ==> d.stock.v >= 0)
    && (d.rating.Value? ==> RatingInRange(d.rating.v))
  }

  /** A new document must also supply the four required fields that have no
      default. */
  predicate ProductDocValid(d: ProductDoc) {
    && FieldsAccepted(d)
    && d.name.Value? && d.description.Value? && d.price.Value? && d.category.Value?
  }

  /** The constraints of the schema, stated on a stored product. */
  predicate ProductSatisfiesSchema(p: Product) {
    && p.name != "" && IsTrimmed(p.name) && |p.name| <= NameMaxLength
    && p.description != ""
    && p.price >= 0
    && p.stock >= 0
    && (p.rating.Some? ==> RatingInRange(p.rating.value))
  }

  /** How a field that the schema requires ends up stored: a supplied value
      is written, anything else leaves the value it had. */
  predicate RequiredWritten<T(==)>(f: Field<T>, before: T, after: T) {
    && (f.Value? ==> after == f.v)
    && (!f.Value? ==> after == before)
  }

  /** How an optional field ends up stored: a supplied value is written, an
      explicit null is stored as null, and a missing one leaves the value it
      had. */
  predicate OptionalWritten<T(==)>(f: Field<T>, before: Option<T>, after: Option<T>) {
    && (f.Value? ==> after == Some(f.v))
    && (f.Null? ==> after == None)
    && (f.Undefined? ==> after == before)
  }

  /** The badge follows the same rule, with its name parsed. */
  predicate BadgeWritten(f: Field<string>, before: Option<Badge>, after: Option<Badge>) {
    && (f.Value? ==> after.Some? && BadgeName(after.value) == f.v)
    && (f.Null? ==> after == None)
    && (f.Undefined? ==> after == before)
  }

  function Nullable<T(==)>(f: Field<T>, current: Option<T>): (r: Option<T>)
    ensures OptionalWritten(f, current, r)
  {
    match f
    case Undefined => current
    case Null => None
    case Value(v) => Some(v)
  }

  function Required<T(==)>(f: Field<T>, current: T): (r: T)
    ensures RequiredWritten(f, current, r)
  {
    if f.Value? then f.v else current
  }

  function BadgeField(f: Field<string>, current: Option<Badge>): (r: Option<Badge>)
    requires f.Value? ==> ParseBadge(f.v).Some?
    ensures BadgeWritten(f, current, r)
  {
    match f
    case Undefined => current
    case Null => None
    case Value(b) => Some(ParseBadge(b).value)
  }

  /** Writes the supplied fields of `d` over `p`: a missing field keeps its
      value, a null one becomes null, and the name goes through the trim
      setter. */
  function ApplyFields(p: Product, d: ProductDoc): (r: Product)
    requires FieldsAccepted(d)
    ensures ProductSatisfiesSchema(p) ==> ProductSatisfiesSchema(r)
    ensures r.id == p.id && r.createdAt == p.createdAt
    ensures d.name.Undefined? ==> r.name == p.name
    ensures d.name.Value? ==> r.name == Trim(d.name.v)
    ensures d.category.Undefined? ==> r.category == p.category
    ensures d.category.Value? ==> CategoryName(r.category) == d.category.v
    ensures RequiredWritten(d.description, p.description, r.description)
    ensures RequiredWritten(d.price, p.price, r.price)
    ensures RequiredWritten(d.stock, p.stock, r.stock)
    ensures OptionalWritten(d.originalPrice, p.originalPrice, r.originalPrice)
    ensures BadgeWritten(d.badge, p.badge, r.badge)
    ensures OptionalWritten(d.image, p.image, r.image)
    ensures OptionalWritten(d.sold, p.sold, r.sold)
    ensures OptionalWritten(d.rating, p.rating, r.rating)
    ensures OptionalWritten(d.numReviews, p.numReviews, r.numReviews)
    ensures OptionalWritten(d.isActive, p.isActive, r.isActive)
  {
    TrimIsSlice(if d.name.Value? then d.name.v else "");
    var name := if d.name.Value? then Trim(d.name.v) else p.name;
    var category := if d.category.Value? then ParseCategory(d.category.v).value else p.category;
    Product(p.id, name, Required(d.description, p.description), Required(d.price, p.price),
            Nullable(d.originalPrice, p.originalPrice), category, BadgeField(d.badge, p.badge),
            Nullable(d.image, p.image), Required(d.stock, p.stock), Nullable(d.sold, p.sold),
            Nullable(d.rating, p.rating), Nullable(d.numReviews, p.numReviews),
            Nullable(d.isActive, p.isActive), p.createdAt)
  }

  /** The values a new product takes for the fields the body leaves out. The
      four required fields are placeholders that a valid body overwrites. */
  function Defaults(id: Id, now: int): Product {
    Product(id, "", "", 0, None, Men, None, Some(""), 0, Some(0), Some(0.0), Some(0), Some(true), now)
  }

  /** Saving a new product document: stored exactly when it satisfies the
      schema, with the defaults for what it leaves out. */
  function ValidateProduct(d: ProductDoc, id: Id, now: int): (r: Option<Product>)
    ensures r.Some? <==> ProductDocValid(d)
    ensures r.Some? ==> ProductSatisfiesSchema(r.value)
    ensures r.Some? ==> r.value.id == id && r.value.createdAt == now
    ensures r.Some? ==> r.value.name == Trim(d.name.v) && r.value.description == d.description.v
                        && r.value.price == d.price.v && CategoryName(r.value.category) == d.category.v
    ensures r.Some? ==> RequiredWritten(d.stock, 0, r.value.stock)
    ensures r.Some? ==> OptionalWritten(d.originalPrice, None, r.value.originalPrice)
    ensures r.Some? ==> BadgeWritten(d.badge, None, r.value.badge)
    ensures r.Some? ==> OptionalWritten(d.image, Some(""), r.value.image)
    ensures r.Some? ==> OptionalWritten(d.sold, Some(0), r.value.sold)
    ensures r.Some? ==> OptionalWritten(d.rating, Some(0.0), r.value.rating)
    ensures r.Some? ==> OptionalWritten(d.numReviews, Some(0), r.value.numReviews)
    ensures r.Some? ==> OptionalWritten(d.isActive, Some(true), r.value.isActive)
  {
    if !ProductDocValid(d) then None
    else
      var p := ApplyFields(Defaults(id, now), d);
      TrimIsSlice(d.name.v);
      assert ProductSatisfiesSchema(p);
      Some(p)
  }

  /** A body that leaves every optional field out gives a product with all the
      schema defaults: no original price, no badge, an empty image, nothing in
      stock or sold, no rating or reviews, and active. */
  lemma DefaultsOfMinimalProduct(name: string, description: string, price: int, category: Category,
                                 id: Id, now: int)
    requires NameAccepted(name) && description != "" && price >= 0
    ensures var d := ProductDoc(Value(name), Value(description), Value(price), Undefined,
                                Value(CategoryName(category)), Undefined, Undefined, Undefined,
                                Undefined, Undefined, Undefined, Undefined);
            ValidateProduct(d, id, now)
            == Some(Product(id, Trim(name), description, price, None, category, None, Some(""), 0,
                            Some(0), Some(0.0), Some(0), Some(true), now))
  {
    assert ParseCategory(CategoryName(category)) == Some(category);
  }

  /** Names longer than 100 characters after trimming, empty after trimming,
      negative prices or stock, unknown categories or badges and ratings
      outside [0, 5] are each refused. */
  lemma RefusedValues(d: ProductDoc)
    ensures d.name.Value? && |Trim(d.name.v)| > NameMaxLength ==> !FieldsAccepted(d)
    ensures d.name.Value? && Trim(d.name.v) == "" ==> !FieldsAccepted(d)
    ensures d.price.Value? && d.price.v < 0 ==> !FieldsAccepted(d)
    ensures d.stock.Value? && d.stock.v < 0 ==> !FieldsAccepted(d)
    ensures d.stock.Null? ==> !FieldsAccepted(d)
    ensures d.category.Value? && d.category.v !in CategoryNames ==> !FieldsAccepted(d)
    ensures d.badge.Value? && d.badge.v !in BadgeNames ==> !FieldsAccepted(d)
    ensures d.rating.Value? && (d.rating.v < 0.0 || d.rating.v > MaxRating) ==> !FieldsAccepted(d)
  {
  }
}
