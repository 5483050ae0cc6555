/**
 * The listing of app/cars/page.tsx: the filter state (search text, price range,
 * minimum year, class, sort order), the one-time initialisation of the price
 * range to the catalog's bounds, the class preset from the `class` query
 * parameter, the reset button, and the filter-then-sort chain that produces the
 * listed cars. The debounced search is taken to have settled.
 */
module CarsPage {
  import opened Js
  import opened Strings
  import opened Sequences
  import opened Catalog
  import opened CarsFilters

  /** Case-insensitive substring match of the search text in "brand model"; an empty search matches all. */
  predicate MatchesSearch(c: Car, search: string)
  {
    search == "" || Includes(ToLower(c.brand + " " + c.model), ToLower(search))
  }

  predicate MatchesPrice(c: Car, lo: int, hi: int)
  {
    lo <= c.dailyPrice <= hi
  }

  /** `year ? c.year >= year : true`. */
  predicate MatchesYear(c: Car, year: Option<int>)
  {
    TruthyNumber(year) ==> c.year >= year.value
  }

  /** `carClass ? c.class === carClass : true`. */
  predicate MatchesClass(c: Car, carClass: Option<string>)
  {
    TruthyString(carClass) ==> c.carClass == carClass.value
  }

  datatype Filters = Filters(search: string, lo: int, hi: int, year: Option<int>, carClass: Option<string>, sort: SortOption)

  predicate Keep(f: Filters, c: Car)
  {
    MatchesSearch(c, f.search) && MatchesPrice(c, f.lo, f.hi) && MatchesYear(c, f.year) && MatchesClass(c, f.carClass)
  }

  /** `cmp(a, b) <= 0` for the comparator of each sort option. */
  function Precedes(sort: SortOption): (Car, Car) -> bool
  {
    match sort
    case PriceAsc => (a: Car, b: Car) => a.dailyPrice - b.dailyPrice <= 0
    case PriceDesc => (a: Car, b: Car) => b.dailyPrice - a.dailyPrice <= 0
    case YearDesc => (a: Car, b: Car) => b.year - a.year <= 0
    case YearAsc => (a: Car, b: Car) => a.year - b.year <= 0
  }

  lemma PrecedesIsPreorder(sort: SortOption)
    ensures TotalPreorder(Precedes(sort))
  {
  }

  /** `cars.filter(...).sort(...)`. */
  function Listed(cars: seq<Car>, f: Filters): seq<Car>
  {
    SortBy(Filter(cars, c => Keep(f, c)), Precedes(f.sort))
  }

  /** A car is listed iff it is in the catalog and passes all four tests; the listing invents and repeats nothing. */
  lemma ListedMembers(cars: seq<Car>, f: Filters)
    ensures forall c :: c in Listed(cars, f) <==> c in cars && Keep(f, c)
    ensures multiset(Listed(cars, f)) == multiset(Filter(cars, c => Keep(f, c)))
    ensures multiset(Listed(cars, f)) <= multiset(cars)
  {
    var kept := Filter(cars, c => Keep(f, c));
    var r := Listed(cars, f);
    assert multiset(r) == multiset(kept);
    forall c ensures c in r <==> c in cars && Keep(f, c) {
      assert c in r <==> c in multiset(kept);
      if c in cars && Keep(f, c) {
        var i :| 0 <= i < |cars| && cars[i] == c;
        assert cars[i] in kept;
      }
      if c in kept {
        var i :| 0 <= i < |kept| && kept[i] == c;
      }
    }
  }

  /** `a` may come before `b` under the order the option names. */
  predicate InOrder(sort: SortOption, a: Car, b: Car)
  {
    match sort
    case PriceAsc => a.dailyPrice <= b.dailyPrice
    case PriceDesc => a.dailyPrice >= b.dailyPrice
    case YearDesc => a.year >= b.year
    case YearAsc => a.year <= b.year
  }

  /** The listing is ordered by the chosen key: cheapest, dearest, newest or oldest first. */
  lemma ListedOrdered(cars: seq<Car>, f: Filters)
    ensures var r := Listed(cars, f);
      forall i, j :: 0 <= i < j < |r| ==> InOrder(f.sort, r[i], r[j])
  {
    PrecedesIsPreorder(f.sort);
    SortBySorted(Filter(cars, c => Keep(f, c)), Precedes(f.sort));
  }

  /** An empty search, no year and no class impose nothing. */
  lemma EmptyFiltersPassThrough(c: Car, year: int, cls: string)
    ensures MatchesSearch(c, "") && MatchesYear(c, None) && MatchesClass(c, None)
    ensures MatchesYear(c, Some(0)) && MatchesClass(c, Some(""))
    ensures year != 0 ==> (MatchesYear(c, Some(year)) <==> c.year >= year)
    ensures cls != "" ==> (MatchesClass(c, Some(cls)) <==> c.carClass == cls)
  {
  }

  /** A search matches regardless of the letter case of the query. */
  lemma SearchIgnoresCase(c: Car, search: string)
    requires search != ""
    ensures MatchesSearch(c, search) <==> MatchesSearch(c, ToLower(search))
  {
    ToLowerIdempotent(search);
  }

  /** The page's state. */
  class Page {
    const cars: seq<Car>
    const minPriceDefault: int
    const maxPriceDefault: int
    var search: string
    var priceRange: (int, int)
    var year: Option<int>
    var carClass: Option<string>
    var sort: SortOption
    var initialized: bool

    /** The defaults are the catalog's price bounds. */
    predicate Valid()
      reads this
    {
      cars != [] && MinOf(Prices(cars)) == Some(minPriceDefault) && MaxOf(Prices(cars)) == Some(maxPriceDefault)
    }

    /** The page reads the shipped catalog, which is never empty. */
    constructor(cars: seq<Car>)
      requires cars != []
      ensures Valid() && this.cars == cars
      ensures search == "" && priceRange == (0, 9999) && year == None && carClass == None
      ensures sort == PriceAsc && !initialized
    {
      this.cars := cars;
      minPriceDefault := MinOf(Prices(cars)).value;
      maxPriceDefault := MaxOf(Prices(cars)).value;
      search := "";
      priceRange := (0, 9999);
      year := None;
      carClass := None;
      sort := PriceAsc;
      initialized := false;
    }

    function CurrentFilters(): Filters
      reads this
    {
      Filters(search, priceRange.0, priceRange.1, year, carClass, sort)
    }

    /** `filtered`. */
    function Filtered(): seq<Car>
      reads this
    {
      Listed(cars, CurrentFilters())
    }

    /** The first render widens the price range to the catalog's bounds, once. */
    method Initialize()
      requires Valid()
      modifies this
      ensures Valid() && initialized
      ensures !old(initialized) ==> priceRange == (minPriceDefault, maxPriceDefault)
      ensures old(initialized) ==> priceRange == old(priceRange)
      ensures search == old(search) && year == old(year) && carClass == old(carClass) && sort == old(sort)
    {
      if !initialized {
        priceRange := (minPriceDefault, maxPriceDefault);
        initialized := true;
      }
    }

    /** A truthy `class` query parameter presets the class filter. */
    method PresetClassFromQuery(cls: Option<string>)
      requires Valid()
      modifies this
      ensures Valid()
      ensures carClass == if TruthyString(cls) then cls else old(carClass)
      ensures search == old(search) && priceRange == old(priceRange) && year == old(year)
      ensures sort == old(sort) && initialized == old(initialized)
    {
      if TruthyString(cls) {
        carClass := cls;
      }
    }

    /** The year select, through its sentinel. */
    method SelectYear(v: string)
      requires Valid()
      modifies this
      ensures Valid() && year == YearFromSelect(v)
      ensures search == old(search) && priceRange == old(priceRange) && carClass == old(carClass)
      ensures sort == old(sort) && initialized == old(initialized)
    {
      year := YearFromSelect(v);
    }

    /** The class select, through its sentinel. */
    method SelectClass(v: string)
      requires Valid()
      modifies this
      ensures Valid() && carClass == ClassFromSelect(v)
      ensures search == old(search) && priceRange == old(priceRange) && year == old(year)
      ensures sort == old(sort) && initialized == old(initialized)
    {
      carClass := ClassFromSelect(v);
    }

    /** `onReset`: empty search, the full price range, no year or class, cheapest first. */
    method Reset()
      requires Valid()
      modifies this
      ensures Valid()
      ensures search == "" && priceRange == (minPriceDefault, maxPriceDefault)
      ensures year == None && carClass == None && sort == PriceAsc
      ensures initialized == old(initialized)
    {
      search := "";
      priceRange := (minPriceDefault, maxPriceDefault);
      year := None;
      carClass := None;
      sort := PriceAsc;
    }

    /** After a reset every car of the catalog is listed, cheapest first. */
    lemma ResetListsEverything()
      requires Valid() && search == "" && priceRange == (minPriceDefault, maxPriceDefault)
      requires year == None && carClass == None && sort == PriceAsc
      ensures forall c :: c in Filtered() <==> c in cars
      ensures forall i, j :: 0 <= i < j < |Filtered()| ==> Filtered()[i].dailyPrice <= Filtered()[j].dailyPrice
    {
      var f := CurrentFilters();
      forall c | c in cars ensures Keep(f, c) {
        var i :| 0 <= i < |cars| && cars[i] == c;
        assert Prices(cars)[i] == c.dailyPrice;
      }
      ListedMembers(cars, f);
      ListedOrdered(cars, f);
    }
  }

  lemma ShippedCatalogNonEmpty()
    ensures Cars != []
  {
  }
}
