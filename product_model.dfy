/**
 * The catalog's product record (backend/models/Product.js): its fields, the
 * constraints the schema checks before a record is stored, the defaults it
 * fills in, and the derived discount percentage.
 *
 * Prices are integer cents; the rating is a real number.
 */
module ProductModel {
  import opened Results

  /** A product's database id, compared as its string form. */
  type ProductId = string

  /** The catalog as stored: product records keyed by id. */
  type Catalog = map<ProductId, Product>

  /** The category names the schema's enum admits. */
  const Categories: set<string> :=
    {"electronics", "clothing", "books", "home", "sports", "beauty", "toys", "food"}

  const MaxNameLength: nat := 100
  const MaxDescriptionLength: nat := 500
  const MaxBrandLength: nat := 50
  const MinRating: real := 0.0
  const MaxRating: real := 5.0
  const DefaultRating: real := 4.5
  const DefaultStock: int := 0

  datatype Product = Product(
    name: string,
    description: string,
    price: int,
    originalPrice: Option<int>,
    category: string,
    brand: Option<string>,
    image: string,
    images: seq<string>,
    rating: real,
    numReviews: int,
    stock: int,
    isActive: bool,
    featured: bool,
    tags: seq<string>)

  /**
   * The schema's validators: required strings are non-empty and within their
   * maximum length, money, counts and stock are non-negative, the category is
   * one of the eight names and the rating lies in [0, 5].
   */
  predicate ValidProduct(p: Product) {
    && 1 <= |p.name| <= MaxNameLength
    && 1 <= |p.description| <= MaxDescriptionLength
    && p.price >= 0
    && (p.originalPrice.Some? ==> p.originalPrice.value >= 0)
    && p.category in Categories
    && (p.brand.Some? ==> |p.brand.value| <= MaxBrandLength)
    && MinRating <= p.rating <= MaxRating
    && p.numReviews >= 0
    && p.stock >= 0
  }

  /** Every record of the catalog passed the schema's validators when it was stored. */
  predicate ValidCatalog(catalog: Catalog) {
    forall id :: id in catalog ==> ValidProduct(catalog[id])
  }

  /**
   * The fields a new record is built from: the required ones are always
   * present, every other one may be omitted.
   */
  datatype ProductInput = ProductInput(
    name: string,
    description: string,
    price: int,
    category: string,
    originalPrice: Option<int>,
    brand: Option<string>,
    image: Option<string>,
    images: seq<string>,
    rating: Option<real>,
    numReviews: Option<int>,
    stock: Option<int>,
    isActive: Option<bool>,
    featured: Option<bool>,
    tags: seq<string>)

  /** The validators applied to the fields that were actually given. */
  predicate ValidInput(input: ProductInput) {
    && 1 <= |input.name| <= MaxNameLength
    && 1 <= |input.description| <= MaxDescriptionLength
    && input.price >= 0
    && (input.originalPrice.Some? ==> input.originalPrice.value >= 0)
    && input.category in Categories
    && (input.brand.Some? ==> |input.brand.value| <= MaxBrandLength)
    && (input.rating.Some? ==> MinRating <= input.rating.value <= MaxRating)
    && (input.numReviews.Some? ==> input.numReviews.value >= 0)
    && (input.stock.Some? ==> input.stock.value >= 0)
  }

  /**
   * A new record: omitted fields take the schema's defaults (image "",
   * rating 4.5, no reviews, stock 0, active, not featured). The defaults
   * themselves satisfy the validators, so the record is valid exactly when
   * the given fields are.
   */
  function NewProduct(input: ProductInput): (p: Product)
    ensures p.name == input.name && p.description == input.description
    ensures p.price == input.price && p.category == input.category
    ensures p.originalPrice == input.originalPrice && p.brand == input.brand
    ensures p.images == input.images && p.tags == input.tags
    ensures input.image.Some? ==> p.image == input.image.value
    ensures input.image.None? ==> p.image == ""
    ensures input.rating.Some? ==> p.rating == input.rating.value
    ensures input.rating.None? ==> p.rating == DefaultRating
    ensures input.numReviews.Some? ==> p.numReviews == input.numReviews.value
    ensures input.numReviews.None? ==> p.numReviews == 0
    ensures input.stock.Some? ==> p.stock == input.stock.value
    ensures input.stock.None? ==> p.stock == DefaultStock
    ensures input.isActive.Some? ==> p.isActive == input.isActive.value
    ensures input.isActive.None? ==> p.isActive
    ensures input.featured.Some? ==> p.featured == input.featured.value
    ensures input.featured.None? ==> !p.featured
    ensures ValidProduct(p) <==> ValidInput(input)
  {
    Product(
      input.name,
      input.description,
      input.price,
      input.originalPrice,
      input.category,
      input.brand,
      input.image.GetOr(""),
      input.images,
      input.rating.GetOr(DefaultRating),
      input.numReviews.GetOr(0),
      input.stock.GetOr(DefaultStock),
      input.isActive.GetOr(true),
      input.featured.GetOr(false),
      input.tags)
  }

  /**
   * The discount, in whole percent, of the current price against the
   * original price: zero unless an original price is given (and non-zero)
   * and exceeds the current price, and otherwise the exact percentage
   * (original - price) / original * 100 rounded to the nearest integer,
   * halves rounded up, which for a valid record lies in [0, 100].
   */
  function DiscountPercentage(p: Product): (r: int)
    ensures !(p.originalPrice.Some? && p.originalPrice.value > p.price) ==> r == 0
    ensures p.originalPrice.Some? && p.originalPrice.value != 0 && p.originalPrice.value > p.price ==>
      var exact := ((p.originalPrice.value - p.price) * 100) as real / p.originalPrice.value as real;
      (r as real) - 0.5 <= exact < (r as real) + 0.5
    ensures ValidProduct(p) ==> 0 <= r <= 100
  {
    if p.originalPrice.Some? && p.originalPrice.value != 0 && p.originalPrice.value > p.price then
      var original := p.originalPrice.value;
      var exact := ((original - p.price) * 100) as real / original as real;
      ExactPercentageBounds(original - p.price, original);
      RoundHalfUp(exact)
    else
      0
  }

  /** `Math.round(x)`: the nearest integer, halves rounded up. */
  function RoundHalfUp(x: real): (n: int)
    ensures (n as real) - 0.5 <= x < (n as real) + 0.5
  {
    (x + 0.5).Floor
  }

  /** A positive saving no larger than the original is a percentage in (0, 100]. */
  lemma ExactPercentageBounds(saving: int, original: int)
    ensures 0 < saving <= original ==> 0.0 < (saving * 100) as real / original as real <= 100.0
  {
    if 0 < saving <= original {
      var x := (saving * 100) as real / original as real;
      assert x * original as real == (saving * 100) as real;
      assert (saving * 100) as real <= 100.0 * original as real;
    }
  }
}
