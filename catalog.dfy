/**
 * The catalog listing behind `index`: the product list narrowed by up to
 * five optional query parameters, each a further filter on the previous
 * result. A parameter that is missing or empty is skipped; one whose text
 * is not of the field's type makes the lookup fail.
 */
module Catalog {
  import opened Wrappers
  import opened Models
  import Text
  import QuerySets

  /** The query parameters `category`, `max_price`, `min_price`, `name` and `rating`. */
  datatype Query = Query(
    category: Arg<int>,
    maxPrice: Arg<real>,
    minPrice: Arg<real>,
    name: Option<string>,
    rating: Arg<real>)

  datatype Param = CategoryParam | MaxPriceParam | MinPriceParam | RatingParam

  datatype FilterError = InvalidFilter(param: Param)

  function PriceOf(p: Product): real
  {
    p.priceCents as real / 100.0
  }

  function ArgOf(q: Query, param: Param): Arg<real>
  {
    match param
    case CategoryParam => if q.category.Given? then Given(q.category.value as real)
                          else if q.category.Missing? then Missing
                          else if q.category.Blank? then Blank
                          else Malformed
    case MaxPriceParam => q.maxPrice
    case MinPriceParam => q.minPrice
    case RatingParam => q.rating
  }

  /** Some parameter has text of the wrong type. */
  predicate HasMalformed(q: Query)
  {
    q.category.Malformed? || q.maxPrice.Malformed? || q.minPrice.Malformed? || q.rating.Malformed?
  }

  /** A name parameter takes effect only when it is a non-empty text. */
  predicate NameGiven(q: Query)
  {
    q.name.Some? && q.name.value != ""
  }

  /**
   * The listing's meaning in one predicate: every supplied parameter holds
   * of the product (inclusive price bounds, case-blind name prefix, minimum
   * average rating), and the others impose nothing.
   */
  predicate Matches(q: Query, p: Product)
  {
    && (q.category.Given? ==> p.category == q.category.value)
    && (q.maxPrice.Given? ==> PriceOf(p) <= q.maxPrice.value)
    && (q.minPrice.Given? ==> PriceOf(p) >= q.minPrice.value)
    && (NameGiven(q) ==> Text.IStartsWith(p.name, q.name.value))
    && (q.rating.Given? ==> p.averageRating >= q.rating.value)
  }

  /**
   * The products listed for query q, in storage order: the filters for
   * category, maximum price, minimum price, name and rating are applied one
   * after another, each only when its parameter was supplied.
   */
  function Index(q: Query, products: seq<Product>): (r: Result<seq<Product>, FilterError>)
    ensures r.Failure? <==> HasMalformed(q)
    ensures r.Failure? ==> ArgOf(q, r.error.param).Malformed?
    ensures r.Success? ==> QuerySets.IsSubsequence(r.value, products)
    ensures r.Success? ==> forall p :: p in r.value <==> p in products && Matches(q, p)
    ensures r.Success? ==> forall p :: multiset(r.value)[p] == if Matches(q, p) then multiset(products)[p] else 0
  {
    if HasMalformed(q) then
      Failure(InvalidFilter(
        if q.category.Malformed? then CategoryParam
        else if q.maxPrice.Malformed? then MaxPriceParam
        else if q.minPrice.Malformed? then MinPriceParam
        else RatingParam))
    else
      var byCategory := QuerySets.FilterIf(products, q.category.Given?,
                                           (p: Product) => q.category.Given? && p.category == q.category.value);
      var byMaxPrice := QuerySets.FilterIf(byCategory, q.maxPrice.Given?,
                                           (p: Product) => q.maxPrice.Given? && PriceOf(p) <= q.maxPrice.value);
      var byMinPrice := QuerySets.FilterIf(byMaxPrice, q.minPrice.Given?,
                                           (p: Product) => q.minPrice.Given? && PriceOf(p) >= q.minPrice.value);
      var byName := QuerySets.FilterIf(byMinPrice, NameGiven(q),
                                       (p: Product) => NameGiven(q) && Text.IStartsWith(p.name, q.name.value));
      var byRating := QuerySets.FilterIf(byName, q.rating.Given?,
                                         (p: Product) => q.rating.Given? && p.averageRating >= q.rating.value);
      QuerySets.SubsequenceTransitive(byMaxPrice, byCategory, products);
      QuerySets.SubsequenceTransitive(byMinPrice, byMaxPrice, products);
      QuerySets.SubsequenceTransitive(byName, byMinPrice, products);
      QuerySets.SubsequenceTransitive(byRating, byName, products);
      Success(byRating)
  }

  /**
   * The chain of filters is one filter by the conjunctive predicate
   * Matches: the same products, in the same order.
   */
  lemma IndexIsOneFilter(q: Query, products: seq<Product>)
    requires !HasMalformed(q)
    ensures Index(q, products) == Success(QuerySets.Filter(products, (p: Product) => Matches(q, p)))
  {
    var k1 := (p: Product) => q.category.Given? && p.category == q.category.value;
    var k2 := (p: Product) => q.maxPrice.Given? && PriceOf(p) <= q.maxPrice.value;
    var k3 := (p: Product) => q.minPrice.Given? && PriceOf(p) >= q.minPrice.value;
    var k4 := (p: Product) => NameGiven(q) && Text.IStartsWith(p.name, q.name.value);
    var k5 := (p: Product) => q.rating.Given? && p.averageRating >= q.rating.value;
    var f1 := (p: Product) => !q.category.Given? || k1(p);
    var f2 := (p: Product) => !q.maxPrice.Given? || k2(p);
    var f3 := (p: Product) => !q.minPrice.Given? || k3(p);
    var f4 := (p: Product) => !NameGiven(q) || k4(p);
    var f5 := (p: Product) => !q.rating.Given? || k5(p);
    var g2 := (p: Product) => f1(p) && f2(p);
    var g3 := (p: Product) => g2(p) && f3(p);
    var g4 := (p: Product) => g3(p) && f4(p);
    var g5 := (p: Product) => g4(p) && f5(p);

    var byCategory := QuerySets.FilterIf(products, q.category.Given?, k1);
    QuerySets.FilterIfIsFilter(products, q.category.Given?, k1, f1);
    var byMaxPrice := QuerySets.FilterIf(byCategory, q.maxPrice.Given?, k2);
    QuerySets.FilterIfIsFilter(byCategory, q.maxPrice.Given?, k2, f2);
    QuerySets.FilterThen(products, f1, f2, g2);
    var byMinPrice := QuerySets.FilterIf(byMaxPrice, q.minPrice.Given?, k3);
    QuerySets.FilterIfIsFilter(byMaxPrice, q.minPrice.Given?, k3, f3);
    QuerySets.FilterThen(products, g2, f3, g3);
    var byName := QuerySets.FilterIf(byMinPrice, NameGiven(q), k4);
    QuerySets.FilterIfIsFilter(byMinPrice, NameGiven(q), k4, f4);
    QuerySets.FilterThen(products, g3, f4, g4);
    var byRating := QuerySets.FilterIf(byName, q.rating.Given?, k5);
    QuerySets.FilterIfIsFilter(byName, q.rating.Given?, k5, f5);
    QuerySets.FilterThen(products, g4, f5, g5);
    assert byRating == QuerySets.Filter(products, g5);
    QuerySets.FilterExtensional(products, g5, (p: Product) => Matches(q, p));
    assert Index(q, products) == Success(byRating);
  }

  /** With no parameter supplied, every product is listed in storage order. */
  lemma NoParametersListsAll(products: seq<Product>)
    ensures Index(Query(Missing, Missing, Missing, None, Missing), products) == Success(products)
  {

  }

  /** Two argument texts that the filter chain cannot tell apart. */
  predicate SameEffect<T(==)>(a: Arg<T>, b: Arg<T>)
  {
    && a.Malformed? == b.Malformed?
    && a.Given? == b.Given?
    && (a.Given? ==> a.value == b.value)
  }

  /** Queries whose parameters have the same effect list the same products. */
  lemma IndexDependsOnEffectOnly(q1: Query, q2: Query, products: seq<Product>)
    requires SameEffect(q1.category, q2.category) && SameEffect(q1.maxPrice, q2.maxPrice)
    requires SameEffect(q1.minPrice, q2.minPrice) && SameEffect(q1.rating, q2.rating)
    requires NameGiven(q1) == NameGiven(q2) && (NameGiven(q1) ==> q1.name == q2.name)
    ensures Index(q1, products) == Index(q2, products)
  {

  }

  /** An empty parameter is skipped exactly as a missing one is. */
  lemma EmptyParametersAreSkipped(q: Query, products: seq<Product>)
    ensures Index(q.(category := Blank), products) == Index(q.(category := Missing), products)
    ensures Index(q.(maxPrice := Blank), products) == Index(q.(maxPrice := Missing), products)
    ensures Index(q.(minPrice := Blank), products) == Index(q.(minPrice := Missing), products)
    ensures Index(q.(name := Some("")), products) == Index(q.(name := None), products)
    ensures Index(q.(rating := Blank), products) == Index(q.(rating := Missing), products)
  {
    IndexDependsOnEffectOnly(q.(category := Blank), q.(category := Missing), products);
    IndexDependsOnEffectOnly(q.(maxPrice := Blank), q.(maxPrice := Missing), products);
    IndexDependsOnEffectOnly(q.(minPrice := Blank), q.(minPrice := Missing), products);
    IndexDependsOnEffectOnly(q.(name := Some("")), q.(name := None), products);
    IndexDependsOnEffectOnly(q.(rating := Blank), q.(rating := Missing), products);
  }

  /**
   * The price bounds are inclusive, and giving both selects exactly the
   * products that each bound alone selects.
   */
  lemma PriceRangeIsIntersection(products: seq<Product>, low: real, high: real)
    ensures var both := Index(Query(Missing, Given(high), Given(low), None, Missing), products);
            var atMost := Index(Query(Missing, Given(high), Missing, None, Missing), products);
            var atLeast := Index(Query(Missing, Missing, Given(low), None, Missing), products);
            && both.Success? && atMost.Success? && atLeast.Success?
            && (forall p :: p in both.value <==> p in atMost.value && p in atLeast.value)
            && (forall p :: p in both.value <==> p in products && low <= PriceOf(p) <= high)
  {
  }

  /** `?category=2&rating=3` lists the products of category 2 rated 3 or more on average. */
  lemma CategoryAndRatingExample(products: seq<Product>)
    ensures var r := Index(Query(Given(2), Missing, Missing, None, Given(3.0)), products);
            r.Success? && forall p :: p in r.value <==> p in products && p.category == 2 && p.averageRating >= 3.0
  {
  }
}
