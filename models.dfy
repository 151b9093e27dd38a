/**
 * The store's persisted entities: Category and Product, their field
 * constraints and defaults, and the protect-on-delete rule of the
 * product-to-category reference.
 */
module Models {
  import opened Wrappers
  import opened Digits
  import QuerySets

  const CategoryNameMaxLength: nat := 50
  const ProductNameMaxLength: nat := 100
  /** Price is a decimal with at most 10 digits, 2 of them after the point. */
  const PriceMaxDigits: nat := 10
  const PriceDecimalPlaces: nat := 2
  const MinRating: real := 0.0
  const MaxRating: real := 5.0

  const DefaultAvailable: bool := true
  const DefaultAverageRating: real := 0.0
  const DefaultRatingVotes: nat := 0

  datatype Category = Category(id: int, name: string, description: string)

  /**
   * A product row. The price is held in cents (hundredths), the creation
   * time as an opaque instant, the image as the stored file name if any.
   */
  datatype Product = Product(
    id: int,
    category: int,
    name: string,
    priceCents: int,
    created: int,
    available: bool,
    description: string,
    image: Option<string>,
    averageRating: real,
    ratingVotes: nat)

  /** The rows of both tables, in storage order. */
  datatype Store = Store(categories: seq<Category>, products: seq<Product>)

  /** Deleting a category that products still reference fails with the referencing products. */
  datatype DeleteError = ProtectedError(protectedProducts: seq<Product>)

  predicate HasCategory(categories: seq<Category>, id: int)
  {
    exists c :: c in categories && c.id == id
  }

  /** The name is required and at most 50 characters; the description may be blank. */
  predicate ValidCategory(c: Category)
  {
    1 <= |c.name| <= CategoryNameMaxLength
  }

  /** A price of at most 10 digits with 2 decimal places, counted in cents. */
  predicate ValidPrice(cents: int)
  {
    Abs(cents) < Pow10(PriceMaxDigits)
  }

  /**
   * A product row satisfying its declared constraints: an existing category,
   * a required name of at most 100 characters, a representable price and an
   * average rating within [0, 5]. The vote count is a natural number by type;
   * description and image may be empty.
   */
  predicate ValidProduct(p: Product, categories: seq<Category>)
  {
    && HasCategory(categories, p.category)
    && 1 <= |p.name| <= ProductNameMaxLength
    && ValidPrice(p.priceCents)
    && MinRating <= p.averageRating <= MaxRating
  }

  /** Every category is valid and every product valid against the stored categories. */
  predicate ValidStore(db: Store)
  {
    && (forall c :: c in db.categories ==> ValidCategory(c))
    && (forall p :: p in db.products ==> ValidProduct(p, db.categories))
  }

  /** The price bound read as the decimal field declares it: at most 10 digits in cents. */
  lemma PriceBoundIsDigitCount(cents: int)
    ensures ValidPrice(cents) <==> NumDigits(Abs(cents)) <= PriceMaxDigits
  {
    NumDigitsBound(Abs(cents), PriceMaxDigits);
  }

  /** A product built with the declared defaults for available, average_rating and rating_votes. */
  function NewProduct(id: int, category: int, name: string, priceCents: int, created: int,
                      description: string, image: Option<string>): (p: Product)
  {
    Product(id, category, name, priceCents, created, DefaultAvailable, description, image,
            DefaultAverageRating, DefaultRatingVotes)
  }

  /** The defaults satisfy the declared constraints: a new product is valid once its own fields are. */
  lemma NewProductIsValid(id: int, category: int, name: string, priceCents: int, created: int,
                          description: string, image: Option<string>, categories: seq<Category>)
    requires HasCategory(categories, category)
    requires 1 <= |name| <= ProductNameMaxLength && ValidPrice(priceCents)
    ensures ValidProduct(NewProduct(id, category, name, priceCents, created, description, image), categories)
    ensures NewProduct(id, category, name, priceCents, created, description, image).available
    ensures NewProduct(id, category, name, priceCents, created, description, image).ratingVotes == 0
  {
  }

  /**
   * Delete every category with the given id. Because the product reference
   * is declared protect-on-delete, the deletion is refused while any product
   * references the category, and the error lists those products.
   */
  function DeleteCategory(db: Store, id: int): (r: Result<Store, DeleteError>)
    ensures r.Failure? <==> exists p :: p in db.products && p.category == id
    ensures r.Failure? ==> forall p :: p in r.error.protectedProducts <==> p in db.products && p.category == id
    ensures r.Success? ==> r.value.products == db.products
    ensures r.Success? ==> forall c :: c in r.value.categories <==> c in db.categories && c.id != id
  {
    var referencing := QuerySets.Filter(db.products, (p: Product) => p.category == id);
    if referencing != [] then
      Failure(ProtectedError(referencing))
    else
      assert forall p :: p in db.products ==> p.category != id;
      Success(db.(categories := QuerySets.Filter(db.categories, (c: Category) => c.id != id)))
  }

  /** Protect-on-delete keeps every product's category reference resolvable. */
  lemma DeleteCategoryKeepsStoreValid(db: Store, id: int)
    requires ValidStore(db)
    ensures DeleteCategory(db, id).Success? ==> ValidStore(DeleteCategory(db, id).value)
  {

  }
}
