/**
 * The recommendations of components/dynamic/SimilarCars.tsx: every other car of
 * the catalog is scored against the current one, the scored list is sorted by
 * falling score and cut to `maxRecommendations`, and a two-car window slides
 * over the result.
 *
 * Scores are kept ten times larger than the component's so that they stay
 * integers: the 30% price test `|Δ| <= 0.3·price` becomes `10·|Δ| <= 3·price` and
 * the popularity boost `0.1·popularity` becomes `popularity`. Scaling by ten
 * keeps the order of scores, which is all the sort uses.
 */
module SimilarCars {
  import opened Js
  import opened Sequences
  import opened Catalog

  /** `car.features.filter(f => currentCar.features.includes(f)).length`. */
  function CommonFeatures(car: EnhancedCar, current: EnhancedCar): (n: nat)
    ensures n <= |car.features|
  {
    |Filter(car.features, (f: string) => f in current.features)|
  }

  /** The similarity score, times ten. */
  function Score(car: EnhancedCar, current: EnhancedCar): int
  {
    (if car.category == current.category then 400 else 0) +
    (if 10 * Abs(car.dailyPrice - current.dailyPrice) <= 3 * current.dailyPrice then 250 else 0) +
    (if car.seats == current.seats then 150 else 0) +
    (if car.fuelType == current.fuelType then 100 else 0) +
    (if car.transmission == current.transmission then 50 else 0) +
    20 * CommonFeatures(car, current) +
    car.popularity
  }

  /** The scoring callback: a local score grown by one `+=` per criterion. */
  method ScoreCar(car: EnhancedCar, current: EnhancedCar) returns (score: int)
    ensures score == Score(car, current)
  {
    score := 0;
    if car.category == current.category {
      score := score + 400;
    }
    var priceDiff := Abs(car.dailyPrice - current.dailyPrice);
    if 10 * priceDiff <= 3 * current.dailyPrice {
      score := score + 250;
    }
    if car.seats == current.seats {
      score := score + 150;
    }
    if car.fuelType == current.fuelType {
      score := score + 100;
    }
    if car.transmission == current.transmission {
      score := score + 50;
    }
    var common := |Filter(car.features, (f: string) => f in current.features)|;
    score := score + common * 2 * 10;
    score := score + car.popularity;
  }

  /** The score lies between the popularity alone and every criterion met with all features shared. */
  lemma ScoreBounds(car: EnhancedCar, current: EnhancedCar)
    ensures car.popularity <= Score(car, current) <= 950 + 20 * |car.features| + car.popularity
  {
  }

  /** A car that agrees with the current one on category, price, seats, fuel, gearbox and features meets every criterion. */
  lemma {:induction false} TwinScoresHighest(car: EnhancedCar, current: EnhancedCar)
    requires car.category == current.category && car.dailyPrice == current.dailyPrice >= 0
    requires car.seats == current.seats && car.fuelType == current.fuelType
    requires car.transmission == current.transmission && car.features == current.features
    ensures Score(car, current) == 950 + 20 * |car.features| + car.popularity
  {
    FilterKeepsAll(car.features, (f: string) => f in current.features);
  }

  datatype Scored = Scored(car: EnhancedCar, score: int)

  /** `b.score - a.score <= 0`: a higher score comes first. */
  function ByScore(): (Scored, Scored) -> bool
  {
    (a: Scored, b: Scored) => b.score - a.score <= 0
  }

  /** The other cars of the catalog with their scores, in catalog order. */
  function ScoredCandidates(cars: seq<EnhancedCar>, current: EnhancedCar): (r: seq<Scored>)
    ensures forall x :: x in r ==> x.car in cars && x.car.id != current.id && x.score == Score(x.car, current)
    ensures forall i :: 0 <= i < |cars| && cars[i].id != current.id ==> Scored(cars[i], Score(cars[i], current)) in r
  {
    var candidates := Filter(cars, (c: EnhancedCar) => c.id != current.id);
    var r := seq(|candidates|, i requires 0 <= i < |candidates| => Scored(candidates[i], Score(candidates[i], current)));
    assert forall i :: 0 <= i < |cars| && cars[i].id != current.id ==> Scored(cars[i], Score(cars[i], current)) in r by {
      forall i | 0 <= i < |cars| && cars[i].id != current.id
        ensures Scored(cars[i], Score(cars[i], current)) in r
      {
        assert cars[i] in candidates;
        var j :| 0 <= j < |candidates| && candidates[j] == cars[i];
        assert r[j] == Scored(cars[i], Score(cars[i], current));
      }
    }
    r
  }

  /** Each recommended car paired with its score. */
  function WithScores(r: seq<EnhancedCar>, current: EnhancedCar): (w: seq<Scored>)
    ensures |w| == |r| && forall i :: 0 <= i < |r| ==> w[i] == Scored(r[i], Score(r[i], current))
  {
    seq(|r|, i requires 0 <= i < |r| => Scored(r[i], Score(r[i], current)))
  }

  /** `.map(item => item.car)`. */
  function CarsOf(xs: seq<Scored>): (r: seq<EnhancedCar>)
    ensures |r| == |xs| && forall i :: 0 <= i < |xs| ==> r[i] == xs[i].car
  {
    seq(|xs|, i requires 0 <= i < |xs| => xs[i].car)
  }

  /** `similarCars`. */
  function Recommend(cars: seq<EnhancedCar>, current: EnhancedCar, maxRecommendations: int): seq<EnhancedCar>
  {
    var sorted := SortBy(ScoredCandidates(cars, current), ByScore());
    CarsOf(Slice(sorted, 0, maxRecommendations))
  }

  /**
   * The current car is never recommended, every recommendation comes from the
   * catalog, there are `min(maxRecommendations, candidates)` of them (when that
   * is not negative), the list is ordered by falling score, and it is the best
   * of the candidates: together with some remainder it makes up the candidates
   * exactly, and no car of the remainder outscores a recommended one.
   */
  lemma RecommendSpec(cars: seq<EnhancedCar>, current: EnhancedCar, maxRecommendations: int)
    ensures var r := Recommend(cars, current, maxRecommendations);
      forall i :: 0 <= i < |r| ==> r[i].id != current.id && r[i] in cars
    ensures var r := Recommend(cars, current, maxRecommendations);
      var n := |ScoredCandidates(cars, current)|;
      maxRecommendations >= 0 ==> |r| == (if maxRecommendations < n then maxRecommendations else n)
    ensures var r := Recommend(cars, current, maxRecommendations);
      forall i, j :: 0 <= i < j < |r| ==> Score(r[i], current) >= Score(r[j], current)
    ensures var r := Recommend(cars, current, maxRecommendations);
      exists rest: seq<Scored> ::
        multiset(WithScores(r, current)) + multiset(rest) == multiset(ScoredCandidates(cars, current)) &&
        forall x, i :: x in rest && 0 <= i < |r| ==> x.score <= WithScores(r, current)[i].score
  {
    RecommendFromCatalog(cars, current, maxRecommendations);
    RecommendIsBest(cars, current, maxRecommendations);
    RecommendOrdered(cars, current, maxRecommendations);
  }

  /** Every recommendation is another car of the catalog. */
  lemma RecommendFromCatalog(cars: seq<EnhancedCar>, current: EnhancedCar, maxRecommendations: int)
    ensures var r := Recommend(cars, current, maxRecommendations);
      forall i :: 0 <= i < |r| ==> r[i].id != current.id && r[i] in cars
  {
    var scored := ScoredCandidates(cars, current);
    var sorted := SortBy(scored, ByScore());
    var top := Slice(sorted, 0, maxRecommendations);
    var r := Recommend(cars, current, maxRecommendations);
    forall i | 0 <= i < |r| ensures r[i].id != current.id && r[i] in cars {
      var n := ClampIndex(0, |sorted|) + i;
      assert r[i] == top[i].car && top[i] == sorted[n];
      assert sorted[n] in multiset(scored);
    }
  }

  /** The recommendations come in order of falling score. */
  lemma RecommendOrdered(cars: seq<EnhancedCar>, current: EnhancedCar, maxRecommendations: int)
    ensures var r := Recommend(cars, current, maxRecommendations);
      forall i, j :: 0 <= i < j < |r| ==> Score(r[i], current) >= Score(r[j], current)
  {
    var scored := ScoredCandidates(cars, current);
    var sorted := SortBy(scored, ByScore());
    var r := Recommend(cars, current, maxRecommendations);
    var w := WithScores(r, current);
    RecommendIsTop(cars, current, maxRecommendations);
    SlicePrefix(sorted, maxRecommendations);
    assert TotalPreorder(ByScore());
    SortBySorted(scored, ByScore());
    forall i, j | 0 <= i < j < |r| ensures Score(r[i], current) >= Score(r[j], current) {
      assert ByScore()(sorted[i], sorted[j]);
      assert w[i] == sorted[i] && w[j] == sorted[j];
    }
  }

  /** Dropping the scores and scoring again gives the list back when every score is the car's own. */
  lemma ScoresRecovered(xs: seq<Scored>, current: EnhancedCar)
    requires forall i :: 0 <= i < |xs| ==> xs[i].score == Score(xs[i].car, current)
    ensures WithScores(CarsOf(xs), current) == xs
  {
  }

  /** The recommended cars with their scores are the cut of the sorted candidates. */
  lemma RecommendIsTop(cars: seq<EnhancedCar>, current: EnhancedCar, maxRecommendations: int)
    ensures WithScores(Recommend(cars, current, maxRecommendations), current) ==
      Slice(SortBy(ScoredCandidates(cars, current), ByScore()), 0, maxRecommendations)
  {
    var scored := ScoredCandidates(cars, current);
    var sorted := SortBy(scored, ByScore());
    var top := Slice(sorted, 0, maxRecommendations);
    forall m | 0 <= m < |top| ensures top[m].score == Score(top[m].car, current) {
      var n := ClampIndex(0, |sorted|) + m;
      assert top[m] == sorted[n];
      assert sorted[n] in multiset(scored);
    }
    ScoresRecovered(top, current);
  }

  /** The first `k` of a list sorted by falling score, with the rest, make up the list, and none of the rest outscores them. */
  lemma TopAndRest(scored: seq<Scored>, sorted: seq<Scored>, w: seq<Scored>, k: nat)
    requires SortedBy(sorted, ByScore()) && multiset(sorted) == multiset(scored)
    requires k <= |sorted| && w == sorted[..k]
    ensures exists rest: seq<Scored> ::
      multiset(w) + multiset(rest) == multiset(scored) &&
      forall x, i :: x in rest && 0 <= i < |w| ==> x.score <= w[i].score
  {
    SortedSplit(sorted, ByScore(), k);
    var rest := sorted[k..];
    forall x, i | x in rest && 0 <= i < |w| ensures x.score <= w[i].score {
      assert ByScore()(sorted[i], x);
    }
    assert multiset(w) + multiset(rest) == multiset(scored);
  }

  /** There are `min(maxRecommendations, candidates)` recommendations when the limit is not negative. */
  lemma RecommendCount(cars: seq<EnhancedCar>, current: EnhancedCar, maxRecommendations: int)
    ensures var n := |ScoredCandidates(cars, current)|;
      maxRecommendations >= 0 ==>
        |Recommend(cars, current, maxRecommendations)| == (if maxRecommendations < n then maxRecommendations else n)
  {
    SlicePrefix(SortBy(ScoredCandidates(cars, current), ByScore()), maxRecommendations);
  }

  /** The count and the best-of-the-candidates half of `RecommendSpec`. */
  lemma RecommendIsBest(cars: seq<EnhancedCar>, current: EnhancedCar, maxRecommendations: int)
    ensures var r := Recommend(cars, current, maxRecommendations);
      var n := |ScoredCandidates(cars, current)|;
      maxRecommendations >= 0 ==> |r| == (if maxRecommendations < n then maxRecommendations else n)
    ensures var r := Recommend(cars, current, maxRecommendations);
      exists rest: seq<Scored> ::
        multiset(WithScores(r, current)) + multiset(rest) == multiset(ScoredCandidates(cars, current)) &&
        forall x, i :: x in rest && 0 <= i < |r| ==> x.score <= WithScores(r, current)[i].score
  {
    var scored := ScoredCandidates(cars, current);
    var sorted := SortBy(scored, ByScore());
    var w := WithScores(Recommend(cars, current, maxRecommendations), current);
    RecommendCount(cars, current, maxRecommendations);
    RecommendIsTop(cars, current, maxRecommendations);
    SlicePrefix(sorted, maxRecommendations);
    assert TotalPreorder(ByScore());
    SortBySorted(scored, ByScore());
    TopAndRest(scored, sorted, w, ClampIndex(maxRecommendations, |sorted|));
  }

  /** The shipped default asks for four recommendations. */
  const DefaultMaxRecommendations := 4

  /** The slide state over a computed recommendation list. */
  class Slides {
    const cars: seq<EnhancedCar>
    var currentIndex: int

    /** `Math.max(1, similarCars.length - 1)`: the number of window positions. */
    function Period(): int
      reads this
    {
      if |cars| - 1 > 1 then |cars| - 1 else 1
    }

    predicate Valid()
      reads this
    {
      0 <= currentIndex < Period()
    }

    constructor(cars: seq<EnhancedCar>)
      ensures this.cars == cars && currentIndex == 0 && Valid()
    {
      this.cars := cars;
      currentIndex := 0;
    }

    /** `(prev + 1) % Math.max(1, length - 1)`. */
    method NextSlide()
      requires Valid()
      modifies this
      ensures Valid()
      ensures currentIndex == Rem(old(currentIndex) + 1, Period())
      ensures old(currentIndex) < Period() - 1 ==> currentIndex == old(currentIndex) + 1
      ensures old(currentIndex) == Period() - 1 ==> currentIndex == 0
    {
      RemSelf(Period());
      currentIndex := Rem(currentIndex + 1, Period());
    }

    /** `(prev - 1 + Math.max(1, length - 1)) % Math.max(1, length - 1)`. */
    method PrevSlide()
      requires Valid()
      modifies this
      ensures Valid()
      ensures currentIndex == Rem(old(currentIndex) - 1 + Period(), Period())
      ensures old(currentIndex) > 0 ==> currentIndex == old(currentIndex) - 1
      ensures old(currentIndex) == 0 ==> currentIndex == Period() - 1
    {
      if currentIndex > 0 {
        RemShift(currentIndex - 1, Period());
      }
      currentIndex := Rem(currentIndex - 1 + Period(), Period());
    }

    /** `similarCars.slice(currentIndex, currentIndex + 2)`. */
    function Visible(): seq<EnhancedCar>
      reads this
    {
      Slice(cars, currentIndex, currentIndex + 2)
    }

    /** The component renders nothing without recommendations. */
    predicate Renders()
      reads this
    {
      |cars| > 0
    }

    predicate PrevDisabled()
      reads this
    {
      currentIndex == 0
    }

    predicate NextDisabled()
      reads this
    {
      currentIndex >= |cars| - 2
    }

    /** At most two cars are visible, and exactly two whenever there are two or more recommendations. */
    lemma VisibleWindow()
      requires Valid()
      ensures |Visible()| <= 2
      ensures |cars| >= 2 ==> |Visible()| == 2 && Visible() == cars[currentIndex..currentIndex + 2]
      ensures |cars| == 1 ==> Visible() == cars
    {
      var v := Visible();
      if |cars| >= 2 {
        assert |v| == 2;
        assert v == cars[currentIndex..currentIndex + 2];
      }
      if |cars| == 1 {
        assert |v| == 1 && v[0] == cars[0];
      }
    }
  }

  /** Moving back after moving forward returns to the same window. */
  lemma PrevUndoesNext(p: int, i: int)
    requires 0 <= i < p
    ensures Rem(Rem(i + 1, p) - 1 + p, p) == i
  {
    if i + 1 < p {
      RemShift(i, p);
    } else {
      RemSelf(p);
    }
  }
}
