/**
 * The quick-booking bar of components/BookingBar.tsx: the car-type options
 * (each class of the catalog once, first-seen order), the validity of the
 * four required inputs, and the query string the search button sends to
 * `/booking`. Percent-encoding of the values is not modelled.
 */
module BookingBar {
  import opened Js
  import opened Strings
  import opened Sequences
  import opened Catalog
  import CarsFilters

  /** `Array.from(new Set(cars.map(c => c.class)))`. */
  function CarTypes(cars: seq<Car>): seq<string>
  {
    Distinct(CarsFilters.ClassesOf(cars))
  }

  /** Each class of the catalog is offered once, in the order it first appears. */
  lemma CarTypesFirstSeen(cars: seq<Car>)
    ensures var types := CarTypes(cars);
      NoDuplicates(types) &&
      (forall i :: 0 <= i < |cars| ==> cars[i].carClass in types) &&
      (forall i :: 0 <= i < |types| ==> exists k :: 0 <= k < |cars| && cars[k].carClass == types[i]) &&
      (forall i, j :: 0 <= i < j < |types| ==>
        FirstIndex(CarsFilters.ClassesOf(cars), types[i]) < FirstIndex(CarsFilters.ClassesOf(cars), types[j]))
  {
    CarsFilters.ClassesFirstSeen(cars, CarTypes(cars));
  }

  /** The bar's five inputs; the selects start out `undefined`, the dates empty. */
  datatype BarState = BarState(
    carType: Option<string>,
    pickupLocation: Option<string>,
    dropoffLocation: Option<string>,
    pickupDate: string,
    returnDate: string)

  /** `isValid`: both locations and both dates are set; the car type is optional. */
  predicate IsValid(s: BarState)
  {
    TruthyString(s.pickupLocation) && TruthyString(s.dropoffLocation) && s.pickupDate != "" && s.returnDate != ""
  }

  /** The query keys, in the order the submit handler sets them. */
  datatype Key = Type | Pickup | Dropoff | From | To

  const KeyOrder := [Type, Pickup, Dropoff, From, To]

  function KeyName(k: Key): string
  {
    match k
    case Type => "type"
    case Pickup => "pickup"
    case Dropoff => "dropoff"
    case From => "from"
    case To => "to"
  }

  /** The input each key reads; an `undefined` select counts as empty. */
  function ValueFor(s: BarState, k: Key): string
  {
    match k
    case Type => if s.carType.Some? then s.carType.value else ""
    case Pickup => if s.pickupLocation.Some? then s.pickupLocation.value else ""
    case Dropoff => if s.dropoffLocation.Some? then s.dropoffLocation.value else ""
    case From => s.pickupDate
    case To => s.returnDate
  }

  /** Appending five pieces one at a time is the right-nested concatenation. */
  lemma RightNested(a: seq<(Key, string)>, b: seq<(Key, string)>, c: seq<(Key, string)>,
                    d: seq<(Key, string)>, e: seq<(Key, string)>)
    ensures a + b + c + d + e == a + (b + (c + (d + e)))
  {
    assert a + b + c + d + e == (a + b) + c + (d + e);
    assert (a + b) + c + (d + e) == (a + b) + (c + (d + e));
  }

  function Opt(b: bool, p: (Key, string)): seq<(Key, string)>
  {
    if b then [p] else []
  }

  /** The keys of `ks` whose input is set, each with its value, in order. */
  function SetPairs(s: BarState, ks: seq<Key>): seq<(Key, string)>
  {
    if ks == [] then []
    else Opt(ValueFor(s, ks[0]) != "", (ks[0], ValueFor(s, ks[0]))) + SetPairs(s, ks[1..])
  }

  lemma SetPairsCons(s: BarState, k: Key, ks: seq<Key>)
    ensures SetPairs(s, [k] + ks) == Opt(ValueFor(s, k) != "", (k, ValueFor(s, k))) + SetPairs(s, ks)
  {
    assert ([k] + ks)[1..] == ks;
  }

  /** Every pair is a key of `ks` with its set value, and every set key of `ks` has its pair. */
  lemma {:induction false} SetPairsMembers(s: BarState, ks: seq<Key>)
    ensures forall p :: p in SetPairs(s, ks) ==> p.0 in ks && p.1 == ValueFor(s, p.0) && p.1 != ""
    ensures forall i :: 0 <= i < |ks| && ValueFor(s, ks[i]) != "" ==> (ks[i], ValueFor(s, ks[i])) in SetPairs(s, ks)
  {
    if ks != [] {
      SetPairsMembers(s, ks[1..]);
      var r := SetPairs(s, ks);
      var rest := SetPairs(s, ks[1..]);
      var o := Opt(ValueFor(s, ks[0]) != "", (ks[0], ValueFor(s, ks[0])));
      assert r == o + rest;
      forall p | p in r ensures p.0 in ks && p.1 == ValueFor(s, p.0) && p.1 != "" {
        if p !in o {
          assert p in rest;
          assert p.0 in ks[1..];
        }
      }
      forall i | 0 <= i < |ks| && ValueFor(s, ks[i]) != "" ensures (ks[i], ValueFor(s, ks[i])) in r {
        if i > 0 {
          assert ks[i] == ks[1..][i - 1];
        }
      }
    }
  }

  /** The parameters of the query: the keys whose input is set, in the fixed key order. */
  function QueryParams(s: BarState): seq<(Key, string)>
  {
    SetPairs(s, KeyOrder)
  }

  function Render(params: seq<(Key, string)>): string
  {
    if params == [] then ""
    else if |params| == 1 then KeyName(params[0].0) + "=" + params[0].1
    else KeyName(params[0].0) + "=" + params[0].1 + "&" + Render(params[1..])
  }

  /** Build the parameters one conditional `set` at a time and return the navigation target. */
  method HandleSubmit(s: BarState) returns (params: seq<(Key, string)>, target: string)
    ensures params == QueryParams(s)
    ensures target == "/booking?" + Render(params)
  {
    SelectsSetIffTruthy(s);
    var o0 := Opt(ValueFor(s, Type) != "", (Type, ValueFor(s, Type)));
    var o1 := Opt(ValueFor(s, Pickup) != "", (Pickup, ValueFor(s, Pickup)));
    var o2 := Opt(ValueFor(s, Dropoff) != "", (Dropoff, ValueFor(s, Dropoff)));
    var o3 := Opt(ValueFor(s, From) != "", (From, ValueFor(s, From)));
    var o4 := Opt(ValueFor(s, To) != "", (To, ValueFor(s, To)));
    params := [];
    if TruthyString(s.carType) { params := params + [(Type, s.carType.value)]; }
    assert params == o0;
    if TruthyString(s.pickupLocation) { params := params + [(Pickup, s.pickupLocation.value)]; }
    assert params == o0 + o1;
    if TruthyString(s.dropoffLocation) { params := params + [(Dropoff, s.dropoffLocation.value)]; }
    assert params == o0 + o1 + o2;
    if s.pickupDate != "" { params := params + [(From, s.pickupDate)]; }
    assert params == o0 + o1 + o2 + o3;
    if s.returnDate != "" { params := params + [(To, s.returnDate)]; }
    assert params == o0 + o1 + o2 + o3 + o4;
    RightNested(o0, o1, o2, o3, o4);
    QueryParamsUnfold(s);
    target := "/booking?" + Render(params);
  }

  /** The query spelled out key by key. */
  lemma QueryParamsUnfold(s: BarState)
    ensures QueryParams(s) ==
      Opt(ValueFor(s, Type) != "", (Type, ValueFor(s, Type))) +
      (Opt(ValueFor(s, Pickup) != "", (Pickup, ValueFor(s, Pickup))) +
      (Opt(ValueFor(s, Dropoff) != "", (Dropoff, ValueFor(s, Dropoff))) +
      (Opt(ValueFor(s, From) != "", (From, ValueFor(s, From))) +
      Opt(ValueFor(s, To) != "", (To, ValueFor(s, To))))))
  {
    var k4: seq<Key> := [To];
    var k3 := [From] + k4;
    var k2 := [Dropoff] + k3;
    var k1 := [Pickup] + k2;
    var k0 := [Type] + k1;
    assert k0 == KeyOrder;
    SetPairsCons(s, To, []);
    assert k4 == [To] + [];
    assert SetPairs(s, k4) == Opt(ValueFor(s, To) != "", (To, ValueFor(s, To)));
    SetPairsCons(s, From, k4);
    SetPairsCons(s, Dropoff, k3);
    SetPairsCons(s, Pickup, k2);
    SetPairsCons(s, Type, k1);
  }

  /** A select's key is sent exactly when the select is truthy. */
  lemma SelectsSetIffTruthy(s: BarState)
    ensures ValueFor(s, Type) != "" <==> TruthyString(s.carType)
    ensures ValueFor(s, Pickup) != "" <==> TruthyString(s.pickupLocation)
    ensures ValueFor(s, Dropoff) != "" <==> TruthyString(s.dropoffLocation)
  {
  }

  /** A key is present exactly when its input is set, and then with that input as its value. */
  lemma KeyPresentIffSet(s: BarState, k: Key)
    ensures (exists v :: (k, v) in QueryParams(s)) <==> ValueFor(s, k) != ""
    ensures forall v :: (k, v) in QueryParams(s) ==> v == ValueFor(s, k)
  {
    var q := QueryParams(s);
    SetPairsMembers(s, KeyOrder);
    assert k in KeyOrder;
    if ValueFor(s, k) != "" {
      var i :| 0 <= i < |KeyOrder| && KeyOrder[i] == k;
      assert (k, ValueFor(s, k)) in q;
    }
    forall v | (k, v) in q ensures v == ValueFor(s, k) {
      var i :| 0 <= i < |q| && q[i] == (k, v);
    }
  }

  lemma {:induction false} SetPairsKeysInOrder(s: BarState, ks: seq<Key>)
    ensures IsSubsequence(Keys(SetPairs(s, ks)), ks)
  {
    if ks != [] {
      SetPairsKeysInOrder(s, ks[1..]);
      var rest := SetPairs(s, ks[1..]);
      if ValueFor(s, ks[0]) == "" {
        assert SetPairs(s, ks) == rest;
        SubsequenceOfTail(Keys(rest), ks);
      } else {
        assert SetPairs(s, ks) == [(ks[0], ValueFor(s, ks[0]))] + rest;
        assert Keys(SetPairs(s, ks)) == [ks[0]] + Keys(rest);
      }
    }
  }

  function Keys(ps: seq<(Key, string)>): (r: seq<Key>)
    ensures |r| == |ps| && forall i :: 0 <= i < |ps| ==> r[i] == ps[i].0
  {
    if ps == [] then [] else [ps[0].0] + Keys(ps[1..])
  }

  /** The keys keep the order type, pickup, dropoff, from, to. */
  lemma KeysInOrder(s: BarState)
    ensures IsSubsequence(Keys(QueryParams(s)), KeyOrder)
  {
    SetPairsKeysInOrder(s, KeyOrder);
  }

  /** A valid bar always sends the two locations and the two dates. */
  lemma ValidSendsTrip(s: BarState)
    requires IsValid(s)
    ensures |QueryParams(s)| >= 4
  {
    QueryParamsUnfold(s);
  }
}
