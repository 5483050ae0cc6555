/**
 * The favourites list of components/dynamic/FavoritesManager.tsx: the cars
 * whose id is a favourite, narrowed by a category filter, sorted by one of six
 * orders and cut to `maxItems`; the "clear all" loop; and the condition for the
 * "View All" link. The favourite ids and `toggleFavorite` come from a hook
 * (hooks/use-favorites.ts is not part of this model), so the ids are a
 * parameter and clearing is modelled as the list of toggle calls it makes.
 */
module Favorites {
  import opened Js
  import opened Strings
  import opened Sequences
  import opened Catalog

  datatype FavSort = Name | PriceLow | PriceHigh | YearNew | YearOld | ByCategory

  datatype FavFilter = All | Economy | Business | Luxury | Suv

  function FilterName(f: FavFilter): string
  {
    match f
    case All => "all"
    case Economy => "economy"
    case Business => "business"
    case Luxury => "luxury"
    case Suv => "suv"
  }

  /** The category test of a filter other than `all`; `economy` also takes any category containing "ekonom". */
  predicate MatchesCategory(c: EnhancedCar, f: FavFilter)
  {
    ToLower(c.category) == FilterName(f) || (f == Economy && Includes(ToLower(c.category), "ekonom"))
  }

  function Title(c: EnhancedCar): string
  {
    c.brand + " " + c.model
  }

  /** `cmp(a, b) <= 0` for each sort order; `localeCompare` is code-point order. */
  function Precedes(sort: FavSort): (EnhancedCar, EnhancedCar) -> bool
  {
    match sort
    case Name => (a: EnhancedCar, b: EnhancedCar) => LexLeq(Title(a), Title(b))
    case PriceLow => (a: EnhancedCar, b: EnhancedCar) => a.dailyPrice - b.dailyPrice <= 0
    case PriceHigh => (a: EnhancedCar, b: EnhancedCar) => b.dailyPrice - a.dailyPrice <= 0
    case YearNew => (a: EnhancedCar, b: EnhancedCar) => b.year - a.year <= 0
    case YearOld => (a: EnhancedCar, b: EnhancedCar) => a.year - b.year <= 0
    case ByCategory => (a: EnhancedCar, b: EnhancedCar) => LexLeq(a.category, b.category)
  }

  lemma PrecedesIsPreorder(sort: FavSort)
    ensures TotalPreorder(Precedes(sort))
  {
    var leq := Precedes(sort);
    match sort {
      case Name =>
        forall a: EnhancedCar, b: EnhancedCar ensures leq(a, b) || leq(b, a) {
          LexLeqTotal(Title(a), Title(b));
        }
        forall a: EnhancedCar, b: EnhancedCar, c: EnhancedCar | leq(a, b) && leq(b, c) ensures leq(a, c) {
          LexLeqTransitive(Title(a), Title(b), Title(c));
        }
      case ByCategory =>
        forall a: EnhancedCar, b: EnhancedCar ensures leq(a, b) || leq(b, a) {
          LexLeqTotal(a.category, b.category);
        }
        forall a: EnhancedCar, b: EnhancedCar, c: EnhancedCar | leq(a, b) && leq(b, c) ensures leq(a, c) {
          LexLeqTransitive(a.category, b.category, c.category);
        }
      case _ =>
    }
  }

  /** `a` may come before `b` in the chosen order. */
  predicate InOrder(sort: FavSort, a: EnhancedCar, b: EnhancedCar)
  {
    match sort
    case Name => LexLeq(Title(a), Title(b))
    case PriceLow => a.dailyPrice <= b.dailyPrice
    case PriceHigh => a.dailyPrice >= b.dailyPrice
    case YearNew => a.year >= b.year
    case YearOld => a.year <= b.year
    case ByCategory => LexLeq(a.category, b.category)
  }

  /** A car is shown when its id is a favourite and it passes the category filter. */
  predicate Shown(ids: seq<string>, filter: FavFilter, c: EnhancedCar)
  {
    c.id in ids && (filter == All || MatchesCategory(c, filter))
  }

  /** The favourite cars under the filter, sorted, before the `maxItems` cut. */
  function SortedFavorites(cars: seq<EnhancedCar>, ids: seq<string>, filter: FavFilter, sort: FavSort): seq<EnhancedCar>
  {
    var favs := Filter(cars, (c: EnhancedCar) => c.id in ids);
    var filtered := if filter == All then favs else Filter(favs, (c: EnhancedCar) => MatchesCategory(c, filter));
    SortBy(filtered, Precedes(sort))
  }

  /** `maxItems ? sorted.slice(0, maxItems) : sorted`. */
  function FavoriteCars(cars: seq<EnhancedCar>, ids: seq<string>, filter: FavFilter, sort: FavSort,
                        maxItems: Option<int>): seq<EnhancedCar>
  {
    var sorted := SortedFavorites(cars, ids, filter, sort);
    if TruthyNumber(maxItems) then Slice(sorted, 0, maxItems.value) else sorted
  }

  /** The sorted list holds exactly the shown cars of the catalog, each as often as in the catalog. */
  lemma SortedFavoritesMembers(cars: seq<EnhancedCar>, ids: seq<string>, filter: FavFilter, sort: FavSort)
    ensures forall c :: c in SortedFavorites(cars, ids, filter, sort) <==> c in cars && Shown(ids, filter, c)
    ensures multiset(SortedFavorites(cars, ids, filter, sort)) <= multiset(cars)
  {
    var favs := Filter(cars, (c: EnhancedCar) => c.id in ids);
    var filtered := if filter == All then favs else Filter(favs, (c: EnhancedCar) => MatchesCategory(c, filter));
    var r := SortedFavorites(cars, ids, filter, sort);
    assert multiset(r) == multiset(filtered);
    forall c ensures c in r <==> c in cars && Shown(ids, filter, c) {
      assert c in r <==> c in multiset(filtered);
      if c in cars && Shown(ids, filter, c) {
        var i :| 0 <= i < |cars| && cars[i] == c;
        assert c in favs;
        var j :| 0 <= j < |favs| && favs[j] == c;
        assert c in filtered;
      }
      if c in filtered {
        var i :| 0 <= i < |filtered| && filtered[i] == c;
        assert c in favs;
        var j :| 0 <= j < |favs| && favs[j] == c;
      }
    }
  }

  /** The sorted list is ordered by the chosen key. */
  lemma SortedFavoritesOrdered(cars: seq<EnhancedCar>, ids: seq<string>, filter: FavFilter, sort: FavSort)
    ensures var r := SortedFavorites(cars, ids, filter, sort);
      forall i, j :: 0 <= i < j < |r| ==> InOrder(sort, r[i], r[j])
  {
    var favs := Filter(cars, (c: EnhancedCar) => c.id in ids);
    var filtered := if filter == All then favs else Filter(favs, (c: EnhancedCar) => MatchesCategory(c, filter));
    PrecedesIsPreorder(sort);
    SortBySorted(filtered, Precedes(sort));
  }

  /** A prefix of an ordered list keeps only its cars and stays ordered. */
  lemma PrefixOrdered(sorted: seq<EnhancedCar>, m: nat, sort: FavSort)
    requires m <= |sorted|
    requires forall i, j :: 0 <= i < j < |sorted| ==> InOrder(sort, sorted[i], sorted[j])
    ensures forall c :: c in sorted[..m] ==> c in sorted
    ensures forall i, j :: 0 <= i < j < m ==> InOrder(sort, sorted[..m][i], sorted[..m][j])
  {
    forall c | c in sorted[..m] ensures c in sorted {
      var i :| 0 <= i < m && sorted[..m][i] == c;
      assert sorted[i] == c;
    }
  }

  /**
   * Every listed car is a favourite of the catalog that passes the filter; the
   * list is ordered; without a `maxItems` every such car is listed.
   */
  lemma FavoriteCarsSpec(cars: seq<EnhancedCar>, ids: seq<string>, filter: FavFilter, sort: FavSort,
                         maxItems: Option<int>)
    ensures var r := FavoriteCars(cars, ids, filter, sort, maxItems);
      (forall c :: c in r ==> c in cars && c.id in ids && (filter != All ==> MatchesCategory(c, filter))) &&
      (forall i, j :: 0 <= i < j < |r| ==> InOrder(sort, r[i], r[j])) &&
      (!TruthyNumber(maxItems) ==> forall c :: c in r <==> c in cars && Shown(ids, filter, c))
  {
    var sorted := SortedFavorites(cars, ids, filter, sort);
    SortedFavoritesMembers(cars, ids, filter, sort);
    SortedFavoritesOrdered(cars, ids, filter, sort);
    if TruthyNumber(maxItems) {
      var m := ClampIndex(maxItems.value, |sorted|);
      SlicePrefix(sorted, maxItems.value);
      PrefixOrdered(sorted, m, sort);
    }
  }

  /** With a positive `maxItems` the list is the first `maxItems` cars of the sorted list; without one, all of it. */
  lemma FavoriteCarsLimit(cars: seq<EnhancedCar>, ids: seq<string>, filter: FavFilter, sort: FavSort,
                          maxItems: Option<int>)
    ensures var r := FavoriteCars(cars, ids, filter, sort, maxItems);
      var sorted := SortedFavorites(cars, ids, filter, sort);
      (!TruthyNumber(maxItems) ==> r == sorted) &&
      (TruthyNumber(maxItems) && maxItems.value > 0 ==>
         r == sorted[..if maxItems.value < |sorted| then maxItems.value else |sorted|])
  {
    if TruthyNumber(maxItems) && maxItems.value > 0 {
      SlicePrefix(SortedFavorites(cars, ids, filter, sort), maxItems.value);
    }
  }

  /** The filter `all` keeps every favourite of the catalog. */
  lemma FilterAllKeepsEverything(cars: seq<EnhancedCar>, ids: seq<string>, sort: FavSort)
    ensures forall c :: c in FavoriteCars(cars, ids, All, sort, None) <==> c in cars && c.id in ids
  {
    FavoriteCarsSpec(cars, ids, All, sort, None);
  }

  /** "View All": a limit is set, the list is full and there are more favourites than the limit. */
  predicate ShowViewAll(maxItems: Option<int>, shownCount: nat, favoriteCount: nat)
  {
    TruthyNumber(maxItems) && shownCount == maxItems.value && favoriteCount > maxItems.value
  }

  /** The link only appears with a positive limit and when some favourites are not listed. */
  lemma ViewAllMeansHidden(cars: seq<EnhancedCar>, ids: seq<string>, filter: FavFilter, sort: FavSort,
                           maxItems: Option<int>)
    requires ShowViewAll(maxItems, |FavoriteCars(cars, ids, filter, sort, maxItems)|, |ids|)
    ensures maxItems.value > 0
    ensures |FavoriteCars(cars, ids, filter, sort, maxItems)| < |ids|
  {
  }

  /** `favoriteIds.forEach(id => toggleFavorite(id))`: one toggle per id, in order. */
  method ClearAllFavorites(ids: seq<string>) returns (toggled: seq<string>)
    ensures toggled == ids
  {
    toggled := [];
    for i := 0 to |ids|
      invariant toggled == ids[..i]
    {
      toggled := toggled + [ids[i]];
    }
  }

  /** The Economy filter takes the catalog's "Ekonom" categories, whatever their capitalisation. */
  lemma EconomyTakesEkonom(c: EnhancedCar)
    requires c.category == "Ekonom"
    ensures MatchesCategory(c, Economy)
  {
    assert ToLower(c.category) == "ekonom";
    IncludesTrivial("ekonom");
  }
}
