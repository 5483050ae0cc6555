/**
 * The derivations of components/CarsFilters.tsx: the price and year bounds of
 * the listed cars (`Math.min(...)` / `Math.max(...)`, which give `Infinity` /
 * `-Infinity` for no cars, here `None`), the distinct classes in first-seen
 * order, the descending list of year options, and the `__all__` sentinel of the
 * two select boxes.
 */
module CarsFilters {
  import opened Js
  import opened Strings
  import opened Sequences
  import opened Catalog

  datatype SortOption = PriceAsc | PriceDesc | YearDesc | YearAsc

  /** The least value of `xs`; `None` for the empty list. */
  function MinOf(xs: seq<int>): (r: Option<int>)
    ensures r.Some? <==> xs != []
    ensures r.Some? ==> forall i :: 0 <= i < |xs| ==> r.value <= xs[i]
    ensures r.Some? ==> exists i :: 0 <= i < |xs| && xs[i] == r.value
  {
    if xs == [] then None
    else
      var rest := MinOf(xs[1..]);
      if rest.None? || xs[0] <= rest.value then
        assert xs[1..] == [] ==> |xs| == 1;
        Some(xs[0])
      else
        var k :| 0 <= k < |xs[1..]| && xs[1..][k] == rest.value;
        assert xs[k + 1] == rest.value;
        Some(rest.value)
  }

  /** The greatest value of `xs`; `None` for the empty list. */
  function MaxOf(xs: seq<int>): (r: Option<int>)
    ensures r.Some? <==> xs != []
    ensures r.Some? ==> forall i :: 0 <= i < |xs| ==> xs[i] <= r.value
    ensures r.Some? ==> exists i :: 0 <= i < |xs| && xs[i] == r.value
  {
    if xs == [] then None
    else
      var rest := MaxOf(xs[1..]);
      if rest.None? || xs[0] >= rest.value then
        assert xs[1..] == [] ==> |xs| == 1;
        Some(xs[0])
      else
        var k :| 0 <= k < |xs[1..]| && xs[1..][k] == rest.value;
        assert xs[k + 1] == rest.value;
        Some(rest.value)
  }

  function Prices(cars: seq<Car>): (r: seq<int>)
    ensures |r| == |cars| && forall i :: 0 <= i < |cars| ==> r[i] == cars[i].dailyPrice
  {
    seq(|cars|, i requires 0 <= i < |cars| => cars[i].dailyPrice)
  }

  function Years(cars: seq<Car>): (r: seq<int>)
    ensures |r| == |cars| && forall i :: 0 <= i < |cars| ==> r[i] == cars[i].year
  {
    seq(|cars|, i requires 0 <= i < |cars| => cars[i].year)
  }

  function ClassesOf(cars: seq<Car>): (r: seq<string>)
    ensures |r| == |cars| && forall i :: 0 <= i < |cars| ==> r[i] == cars[i].carClass
  {
    seq(|cars|, i requires 0 <= i < |cars| => cars[i].carClass)
  }

  datatype Bounds = Bounds(
    minPrice: Option<int>,
    maxPrice: Option<int>,
    minYear: Option<int>,
    maxYear: Option<int>,
    classes: seq<string>)

  /** The memoised derivation over the listed cars. */
  function Derive(cars: seq<Car>): Bounds
  {
    Bounds(MinOf(Prices(cars)), MaxOf(Prices(cars)), MinOf(Years(cars)), MaxOf(Years(cars)),
           Distinct(ClassesOf(cars)))
  }

  /** Every price and year lies between the derived bounds, and each bound belongs to some car. */
  lemma DeriveBounds(cars: seq<Car>)
    requires cars != []
    ensures var b := Derive(cars);
      b.minPrice.Some? && b.maxPrice.Some? && b.minYear.Some? && b.maxYear.Some? &&
      (forall i :: 0 <= i < |cars| ==>
         b.minPrice.value <= cars[i].dailyPrice <= b.maxPrice.value &&
         b.minYear.value <= cars[i].year <= b.maxYear.value) &&
      (exists i :: 0 <= i < |cars| && cars[i].dailyPrice == b.minPrice.value) &&
      (exists i :: 0 <= i < |cars| && cars[i].dailyPrice == b.maxPrice.value) &&
      (exists i :: 0 <= i < |cars| && cars[i].year == b.minYear.value) &&
      (exists i :: 0 <= i < |cars| && cars[i].year == b.maxYear.value)
  {
    var b := Derive(cars);
    var p, y := Prices(cars), Years(cars);
    var k1 :| 0 <= k1 < |p| && p[k1] == b.minPrice.value;
    var k2 :| 0 <= k2 < |p| && p[k2] == b.maxPrice.value;
    var k3 :| 0 <= k3 < |y| && y[k3] == b.minYear.value;
    var k4 :| 0 <= k4 < |y| && y[k4] == b.maxYear.value;
    assert cars[k1].dailyPrice == b.minPrice.value;
    assert cars[k2].dailyPrice == b.maxPrice.value;
    assert cars[k3].year == b.minYear.value;
    assert cars[k4].year == b.maxYear.value;
  }

  /** The distinct classes of the cars: each exactly once, in the order each first occurs. */
  lemma ClassesFirstSeen(cars: seq<Car>, cls: seq<string>)
    requires cls == Distinct(ClassesOf(cars))
    ensures NoDuplicates(cls)
    ensures forall i :: 0 <= i < |cars| ==> cars[i].carClass in cls
    ensures forall i :: 0 <= i < |cls| ==> exists k :: 0 <= k < |cars| && cars[k].carClass == cls[i]
    ensures forall i, j :: 0 <= i < j < |cls| ==> FirstIndex(ClassesOf(cars), cls[i]) < FirstIndex(ClassesOf(cars), cls[j])
  {
    var names := ClassesOf(cars);
    DistinctFirstSeen(names);
    forall i | 0 <= i < |cls| ensures exists k :: 0 <= k < |cars| && cars[k].carClass == cls[i] {
      var k := FirstIndex(names, cls[i]);
      assert cars[k].carClass == cls[i];
    }
  }

  /** The class list holds every class of the cars exactly once, in the order each first occurs. */
  lemma DeriveClasses(cars: seq<Car>)
    ensures NoDuplicates(Derive(cars).classes)
    ensures forall i :: 0 <= i < |cars| ==> cars[i].carClass in Derive(cars).classes
    ensures forall i :: 0 <= i < |Derive(cars).classes| ==> exists k :: 0 <= k < |cars| && cars[k].carClass == Derive(cars).classes[i]
    ensures forall i, j :: 0 <= i < j < |Derive(cars).classes| ==>
      FirstIndex(ClassesOf(cars), Derive(cars).classes[i]) < FirstIndex(ClassesOf(cars), Derive(cars).classes[j])
  {
    ClassesFirstSeen(cars, Derive(cars).classes);
  }

  /**
   * `Array.from({ length: maxYear - minYear + 1 }, (_, i) => maxYear - i)`; a
   * negative length is clamped to zero.
   */
  function YearOptions(minYear: int, maxYear: int): (r: seq<int>)
    ensures |r| == (if maxYear - minYear + 1 < 0 then 0 else maxYear - minYear + 1)
    ensures forall i :: 0 <= i < |r| ==> r[i] == maxYear - i
  {
    var n := if maxYear - minYear + 1 < 0 then 0 else maxYear - minYear + 1;
    seq(n, i requires 0 <= i < n => maxYear - i)
  }

  /** The options run from the newest year down to the oldest, each year of the range once. */
  lemma YearOptionsRange(minYear: int, maxYear: int)
    ensures var r := YearOptions(minYear, maxYear);
      (forall i, j :: 0 <= i < j < |r| ==> r[i] > r[j]) &&
      (forall y :: minYear <= y <= maxYear <==> y in r) &&
      (minYear <= maxYear ==> r[0] == maxYear && r[|r| - 1] == minYear)
  {
    var r := YearOptions(minYear, maxYear);
    forall y | minYear <= y <= maxYear ensures y in r {
      assert r[maxYear - y] == y;
    }
  }

  /** The year options offered for a list of cars: none when the list is empty. */
  function YearOptionsFor(b: Bounds): seq<int>
  {
    if b.minYear.Some? && b.maxYear.Some? then YearOptions(b.minYear.value, b.maxYear.value) else []
  }

  /** Every year of every car is offered. */
  lemma EveryCarYearOffered(cars: seq<Car>)
    ensures forall i :: 0 <= i < |cars| ==> cars[i].year in YearOptionsFor(Derive(cars))
  {
    if cars != [] {
      DeriveBounds(cars);
      var b := Derive(cars);
      YearOptionsRange(b.minYear.value, b.maxYear.value);
    }
  }

  const AllSentinel := "__all__"

  /** The year select's value change: the sentinel clears the filter, anything else goes through `Number`. */
  function YearFromSelect(v: string): (r: Option<int>)
    ensures v == AllSentinel ==> r.None?
  {
    if v == AllSentinel then None
    else match ParseNat(v)
      case Some(n) => Some(n)
      case None => None
  }

  /** The year select's shown value: `year ? String(year) : '__all__'`. */
  function YearDisplay(year: Option<int>): string
  {
    if TruthyNumber(year) then IntToString(year.value) else AllSentinel
  }

  /** The class select's value change. */
  function ClassFromSelect(v: string): (r: Option<string>)
    ensures r.None? <==> v == AllSentinel
  {
    if v == AllSentinel then None else Some(v)
  }

  /** The class select's shown value: `carClass || '__all__'`. */
  function ClassDisplay(carClass: Option<string>): string
  {
    if TruthyString(carClass) then carClass.value else AllSentinel
  }

  /** The sentinel and "no filter" correspond in both directions, and real values survive the select. */
  lemma SentinelRoundTrip(y: nat, cls: string)
    ensures YearFromSelect(AllSentinel) == None && YearDisplay(None) == AllSentinel
    ensures ClassFromSelect(AllSentinel) == None && ClassDisplay(None) == AllSentinel
    ensures y != 0 ==> YearFromSelect(YearDisplay(Some(y))) == Some(y)
    ensures cls != "" && cls != AllSentinel ==> ClassFromSelect(ClassDisplay(Some(cls))) == Some(cls)
  {
    if y != 0 {
      ParseNatToString(y);
      var s := NatToString(y);
      assert IsDigit(s[0]);
      assert s != AllSentinel by { assert AllSentinel[0] == '_'; }
    }
  }
}
