/**
 * The rating aggregator behind `product_rate`: a product keeps only its
 * average rating and its vote count, and each new integer score updates
 * both by an incremental mean. Arithmetic is exact (real numbers).
 */
module Rating {
  import opened Wrappers
  import Models

  /** The (average_rating, rating_votes) pair of a product. */
  datatype Tally = Tally(average: real, votes: nat)

  /** The tally of a product that has never been rated: the declared defaults. */
  const Unrated: Tally := Tally(Models.DefaultAverageRating, Models.DefaultRatingVotes)

  function Sum(s: seq<int>): int
  {
    if s == [] then 0 else Sum(s[..|s| - 1]) + s[|s| - 1]
  }

  /** The arithmetic mean of the scores; 0 for no scores. */
  function Mean(s: seq<int>): real
  {
    if |s| == 0 then 0.0 else Sum(s) as real / |s| as real
  }

  /** One rating: the old total plus the score, over one more vote. */
  function RateStep(t: Tally, score: int): (r: Tally)
    ensures r.votes == t.votes + 1
  {
    var totalVotes := t.votes + 1;
    Tally((t.average * t.votes as real + score as real) / totalVotes as real, totalVotes)
  }

  /** No score is lost: the new average times the new vote count is the old total plus the score. */
  lemma RateStepKeepsTotal(t: Tally, score: int)
    ensures RateStep(t, score).average * RateStep(t, score).votes as real
            == t.average * t.votes as real + score as real
  {
    var total := t.average * t.votes as real + score as real;
    var d := (t.votes + 1) as real;
    assert RateStep(t, score) == Tally(total / d, t.votes + 1);
    assert (total / d) * d == total;
  }

  /** The tally after rating an unrated product with each score in turn. */
  function RateAll(scores: seq<int>): (r: Tally)
    ensures r.votes == |scores|
  {
    if scores == [] then Unrated else RateStep(RateAll(scores[..|scores| - 1]), scores[|scores| - 1])
  }

  /** Rating a tally that is the mean of s with score x gives the mean of s + [x]. */
  lemma RateStepExtendsMean(s: seq<int>, x: int)
    ensures RateStep(Tally(Mean(s), |s|), x) == Tally(Mean(s + [x]), |s| + 1)
  {

  }

  /**
   * From the defaults, rating with scores s1..sn leaves n votes and the
   * mean of s1..sn as the average.
   */
  lemma {:induction false} RateAllIsMean(scores: seq<int>)
    ensures RateAll(scores) == Tally(Mean(scores), |scores|)
  {
    if scores != [] {
      var init, last := scores[..|scores| - 1], scores[|scores| - 1];
      RateAllIsMean(init);
      RateStepExtendsMean(init, last);
      assert init + [last] == scores;
    }
  }

  /** Scaling a value within [0, hi] by a non-negative factor keeps it within [0, hi] scaled. */
  lemma ScaleWithin(a: real, hi: real, v: real)
    requires 0.0 <= a <= hi && 0.0 <= v
    ensures 0.0 <= a * v <= hi * v
  {
    assert (hi - a) * v >= 0.0;
  }

  /** A product with a positive factor has the sign of the other factor. */
  lemma SignOfProduct(a: real, d: real)
    requires d > 0.0
    ensures a * d > 0.0 <==> a > 0.0
    ensures a * d < 0.0 <==> a < 0.0
  {
    if a > 0.0 {
      assert a * d > 0.0;
    } else if a < 0.0 {
      assert (-a) * d > 0.0;
    }
  }

  /** Dividing by a positive divisor compares with c exactly as the dividend compares with c times it. */
  lemma QuotientCompare(x: real, d: real, c: real)
    requires d > 0.0
    ensures x / d > c <==> x > c * d
    ensures x / d < c <==> x < c * d
  {
    var q := x / d;
    assert q * d == x;
    assert x - c * d == (q - c) * d;
    SignOfProduct(q - c, d);
  }

  /** The incremental mean of an average and a score within [0, 5] stays within [0, 5]. */
  lemma MeanStepWithin(a: real, v: real, d: real, score: real)
    requires 0.0 <= a <= 5.0 && 0.0 <= v && d == v + 1.0 && 0.0 <= score <= 5.0
    ensures 0.0 <= (a * v + score) / d <= 5.0
  {
    ScaleWithin(a, 5.0, v);
    var total := a * v + score;
    assert a * v <= 5.0 * v;
    assert total <= 5.0 * v + 5.0;
    assert 5.0 * v + 5.0 == 5.0 * d;
    assert 0.0 <= total <= 5.0 * d;
    QuotientCompare(total, d, 0.0);
    QuotientCompare(total, d, 5.0);
  }

  /** With the old average and the score both within [0, 5], the new average is too. */
  lemma RateStepWithinScale(t: Tally, score: int)
    requires Models.MinRating <= t.average <= Models.MaxRating
    requires 0 <= score <= 5
    ensures Models.MinRating <= RateStep(t, score).average <= Models.MaxRating
  {
    var v, d := t.votes as real, (t.votes + 1) as real;
    assert RateStep(t, score) == Tally((t.average * v + score as real) / d, t.votes + 1);
    MeanStepWithin(t.average, v, d, score as real);
  }

  /**
   * The score is not range-checked: the new average leaves [0, 5] exactly
   * when the new total does not fit 0 or 5 times the new vote count.
   */
  lemma RateStepLeavesScale(t: Tally, score: int)
    ensures RateStep(t, score).average > Models.MaxRating
        <==> t.average * t.votes as real + score as real > Models.MaxRating * (t.votes + 1) as real
    ensures RateStep(t, score).average < Models.MinRating
        <==> t.average * t.votes as real + score as real < 0.0
  {
    var total := t.average * t.votes as real + score as real;
    var d := (t.votes + 1) as real;
    assert RateStep(t, score) == Tally(total / d, t.votes + 1);
    QuotientCompare(total, d, Models.MaxRating);
    QuotientCompare(total, d, Models.MinRating);
  }

  /** A first score of 6 gives an average of 6, outside the declared bound. */
  lemma UnratedProductRatedSix()
    ensures RateStep(Unrated, 6) == Tally(6.0, 1)
    ensures RateStep(Unrated, 6).average > Models.MaxRating
  {
  }

  /** Average 4.0 over 3 votes, then a score of 5: average 4.25 over 4 votes. */
  lemma FourOverThreeThenFive()
    ensures RateStep(Tally(4.0, 3), 5) == Tally(4.25, 4)
  {
  }

  /** The mean of scores that are each in [0, 5] is in [0, 5]. */
  lemma {:induction false} MeanWithinScale(scores: seq<int>)
    requires forall i :: 0 <= i < |scores| ==> 0 <= scores[i] <= 5
    ensures Models.MinRating <= Mean(scores) <= Models.MaxRating
  {
    if scores != [] {
      var init := scores[..|scores| - 1];
      MeanWithinScale(init);
      RateAllIsMean(init);
      RateAllIsMean(scores);
      RateStepWithinScale(RateAll(init), scores[|scores| - 1]);
    }
  }

  /**
   * A product row as `product_rate` loads, updates and saves it. The ghost
   * field `scores` is the history of scores folded in, which the row itself
   * does not store.
   */
  class ProductRow {
    const id: int
    var category: int
    var name: string
    var priceCents: int
    var created: int
    var available: bool
    var description: string
    var image: Option<string>
    var averageRating: real
    var ratingVotes: nat
    ghost var scores: seq<int>

    function Record(): Models.Product
      reads this
    {
      Models.Product(id, category, name, priceCents, created, available, description, image,
                     averageRating, ratingVotes)
    }

    /** The stored pair is the mean and the count of the score history. */
    ghost predicate Consistent()
      reads this
    {
      ratingVotes == |scores| && averageRating == Mean(scores)
    }

    constructor (p: Models.Product, ghost history: seq<int>)
      ensures Record() == p && scores == history
    {
      id := p.id;
      category := p.category;
      name := p.name;
      priceCents := p.priceCents;
      created := p.created;
      available := p.available;
      description := p.description;
      image := p.image;
      averageRating := p.averageRating;
      ratingVotes := p.ratingVotes;
      scores := history;
    }

    /** Fold one score into the average and count one more vote; nothing else changes. */
    method Rate(score: int)
      modifies this`averageRating, this`ratingVotes, this`scores
      ensures Tally(averageRating, ratingVotes) == RateStep(Tally(old(averageRating), old(ratingVotes)), score)
      ensures ratingVotes == old(ratingVotes) + 1
      ensures scores == old(scores) + [score]
      ensures old(Consistent()) ==> Consistent()
      ensures Record() == old(Record()).(averageRating := averageRating, ratingVotes := ratingVotes)
    {
      var totalVotes := ratingVotes;
      var currentAvg := averageRating * totalVotes as real;
      totalVotes := totalVotes + 1;
      var newAvg := (currentAvg + score as real) / totalVotes as real;
      ghost var before := Tally(averageRating, ratingVotes);
      assert Tally(newAvg, totalVotes) == RateStep(before, score);
      ghost var consistent := Consistent();
      if consistent {
        RateStepExtendsMean(scores, score);
      }
      averageRating := newAvg;
      ratingVotes := totalVotes;
      scores := scores + [score];
    }
  }

  /** A consistent row whose scores all lie in [0, 5] holds an average within the declared bound. */
  lemma ConsistentRowWithinScale(row: ProductRow)
    requires row.Consistent()
    requires forall i :: 0 <= i < |row.scores| ==> 0 <= row.scores[i] <= 5
    ensures Models.MinRating <= row.averageRating <= Models.MaxRating
  {
    MeanWithinScale(row.scores);
  }

  datatype RateResponse = RedirectToDetail(productId: int) | NotFound | InvalidScore

  /**
   * The rating request: look the product up by id (404 when absent), read
   * the score (None when the submitted text is missing or not an integer),
   * then rate and redirect to the product page.
   */
  method ProductRate(rows: map<int, ProductRow>, productId: int, score: Option<int>) returns (r: RateResponse)
    requires forall k :: k in rows ==> rows[k].id == k
    modifies if productId in rows then {rows[productId]} else {}
    ensures productId !in rows ==> r == NotFound
    ensures productId in rows && score.None? ==> r == InvalidScore && unchanged(rows[productId])
    ensures productId in rows && score.Some? ==>
      var row := rows[productId];
      && r == RedirectToDetail(productId)
      && Tally(row.averageRating, row.ratingVotes)
         == RateStep(Tally(old(row.averageRating), old(row.ratingVotes)), score.value)
      && row.scores == old(row.scores) + [score.value]
      && (old(row.Consistent()) ==> row.Consistent())
      && row.Record() == old(row.Record()).(averageRating := row.averageRating, ratingVotes := row.ratingVotes)
  {
    if productId !in rows {
      return NotFound;
    }
    var row := rows[productId];
    if score.None? {
      return InvalidScore;
    }
    row.Rate(score.value);
    r := RedirectToDetail(row.id);
  }
}
