/**
 * The "other cars" strip of components/OtherCarsSection.tsx: the given cars
 * without the excluded ids, narrowed to a category when one is given (compared
 * case-insensitively) and cut to `maxCars`, six by default.
 */
module OtherCars {
  import opened Js
  import opened Strings
  import opened Sequences
  import opened Catalog

  const DefaultMaxCars := 6

  predicate NotExcluded(excludeIds: seq<string>, c: EnhancedCar)
  {
    c.id !in excludeIds
  }

  /** `!category || car.category.toLowerCase() === category.toLowerCase()`. */
  predicate InCategory(category: Option<string>, c: EnhancedCar)
  {
    !TruthyString(category) || ToLower(c.category) == ToLower(category.value)
  }

  /** The optional props with their defaults filled in. */
  function ExcludeOrDefault(excludeIds: Option<seq<string>>): seq<string>
  {
    if excludeIds.Some? then excludeIds.value else []
  }

  function MaxOrDefault(maxCars: Option<int>): int
  {
    if maxCars.Some? then maxCars.value else DefaultMaxCars
  }

  /** `filteredCars`. */
  function FilteredCars(cars: seq<EnhancedCar>, excludeIds: Option<seq<string>>, maxCars: Option<int>,
                        category: Option<string>): seq<EnhancedCar>
  {
    var ex := ExcludeOrDefault(excludeIds);
    var kept := Filter(Filter(cars, (c: EnhancedCar) => NotExcluded(ex, c)), (c: EnhancedCar) => InCategory(category, c));
    Slice(kept, 0, MaxOrDefault(maxCars))
  }

  /** The section renders only when some car is left. */
  predicate Renders(cars: seq<EnhancedCar>, excludeIds: Option<seq<string>>, maxCars: Option<int>,
                    category: Option<string>)
  {
    |FilteredCars(cars, excludeIds, maxCars, category)| > 0
  }

  /** `slice(0, n)` keeps a subsequence whatever the sign of `n`. */
  lemma SliceFromStartIsPrefix<T>(s: seq<T>, n: int)
    ensures IsSubsequence(Slice(s, 0, n), s)
  {
    SlicePrefix(s, n);
    PrefixIsSubsequence(s, ClampIndex(n, |s|));
  }

  /**
   * No excluded car is shown, every shown car is in the category when one is
   * given, at most `maxCars` are shown (six by default), and they keep the order of
   * the input. Nothing that qualifies is left out unless the strip is full: a car
   * that is neither excluded nor outside the category is missing only when
   * `maxCars` cars are already shown.
   */
  lemma FilteredCarsSpec(cars: seq<EnhancedCar>, excludeIds: Option<seq<string>>, maxCars: Option<int>,
                         category: Option<string>)
    ensures var r := FilteredCars(cars, excludeIds, maxCars, category);
      (forall c :: c in r ==> c in cars && c.id !in ExcludeOrDefault(excludeIds) && InCategory(category, c)) &&
      (MaxOrDefault(maxCars) >= 0 ==> |r| <= MaxOrDefault(maxCars)) &&
      (maxCars.None? ==> |r| <= 6) &&
      IsSubsequence(r, cars)
    ensures var r := FilteredCars(cars, excludeIds, maxCars, category);
      MaxOrDefault(maxCars) >= 0 ==>
        forall i :: (0 <= i < |cars| && NotExcluded(ExcludeOrDefault(excludeIds), cars[i]) &&
                     InCategory(category, cars[i]) && cars[i] !in r) ==> |r| == MaxOrDefault(maxCars)
  {
    var ex := ExcludeOrDefault(excludeIds);
    var first := Filter(cars, (c: EnhancedCar) => NotExcluded(ex, c));
    var kept := Filter(first, (c: EnhancedCar) => InCategory(category, c));
    var r := FilteredCars(cars, excludeIds, maxCars, category);
    SlicePrefix(kept, MaxOrDefault(maxCars));
    SliceFromStartIsPrefix(kept, MaxOrDefault(maxCars));
    forall c | c in r ensures c in cars && c.id !in ex && InCategory(category, c) {
      var i :| 0 <= i < |r| && r[i] == c;
      assert r[i] == kept[i];
      var j :| 0 <= j < |first| && first[j] == c;
    }
    FilterIsSubsequence(cars, (c: EnhancedCar) => NotExcluded(ex, c));
    FilterIsSubsequence(first, (c: EnhancedCar) => InCategory(category, c));
    SubsequenceTransitive(kept, first, cars);
    SubsequenceTransitive(r, kept, cars);
    FilteredCarsComplete(cars, excludeIds, maxCars, category);
  }

  /** The completeness half of `FilteredCarsSpec`: a qualifying car is missing only from a full strip. */
  lemma FilteredCarsComplete(cars: seq<EnhancedCar>, excludeIds: Option<seq<string>>, maxCars: Option<int>,
                             category: Option<string>)
    ensures var r := FilteredCars(cars, excludeIds, maxCars, category);
      MaxOrDefault(maxCars) >= 0 ==>
        forall i :: (0 <= i < |cars| && NotExcluded(ExcludeOrDefault(excludeIds), cars[i]) &&
                     InCategory(category, cars[i]) && cars[i] !in r) ==> |r| == MaxOrDefault(maxCars)
  {
    var ex := ExcludeOrDefault(excludeIds);
    var first := Filter(cars, (c: EnhancedCar) => NotExcluded(ex, c));
    var kept := Filter(first, (c: EnhancedCar) => InCategory(category, c));
    var r := FilteredCars(cars, excludeIds, maxCars, category);
    SlicePrefix(kept, MaxOrDefault(maxCars));
    if MaxOrDefault(maxCars) >= 0 {
      forall i | 0 <= i < |cars| && NotExcluded(ex, cars[i]) && InCategory(category, cars[i]) && cars[i] !in r
        ensures |r| == MaxOrDefault(maxCars)
      {
        assert cars[i] in first;
        var j :| 0 <= j < |first| && first[j] == cars[i];
        assert cars[i] in kept;
      }
    }
  }

  /** Without a category the second filter keeps everything. */
  lemma NoCategoryNoFilter(cars: seq<EnhancedCar>, excludeIds: Option<seq<string>>, maxCars: Option<int>)
    ensures FilteredCars(cars, excludeIds, maxCars, None) ==
      Slice(Filter(cars, (c: EnhancedCar) => NotExcluded(ExcludeOrDefault(excludeIds), c)), 0, MaxOrDefault(maxCars))
    ensures FilteredCars(cars, excludeIds, maxCars, Some("")) == FilteredCars(cars, excludeIds, maxCars, None)
  {
    var first := Filter(cars, (c: EnhancedCar) => NotExcluded(ExcludeOrDefault(excludeIds), c));
    FilterKeepsAll(first, (c: EnhancedCar) => InCategory(None, c));
    FilterKeepsAll(first, (c: EnhancedCar) => InCategory(Some(""), c));
  }

  /** A category given in capitals selects the same cars as in lower case. */
  lemma CategoryIgnoresCase(c: EnhancedCar, category: string)
    requires category != ""
    ensures InCategory(Some(category), c) <==> InCategory(Some(ToLower(category)), c)
  {
    ToLowerIdempotent(category);
    assert ToLower(category) != "" by {
      assert |ToLower(category)| == |category|;
    }
  }
}
