/**
 * The online reservation engine of components/OnlineBookingForm.tsx: the price
 * breakdown (greedy month / week / day tiers, location surcharges, per-day
 * add-ons), the four-step wizard with its guards, and the submit pipeline that
 * records a pending booking, attempts the e-mail receipts, hands online
 * payments over to WhatsApp, and resets the form.
 *
 * Date inputs are date-only strings in the source; here each is its day number,
 * so the rental span is the difference of the two numbers. The location and
 * service tables are a parameter `t`; the form reads `Catalog.Shipped`.
 */
module BookingForm {
  import opened Js
  import opened Strings
  import opened Sequences
  import opened Catalog

  /** A date input: empty, or the day it names. */
  datatype DateField = NoDate | Day(n: int)

  datatype FormData = FormData(
    firstName: string,
    lastName: string,
    email: string,
    phone: string,
    pickupDate: DateField,
    dropoffDate: DateField,
    pickupLocation: string,
    dropoffLocation: string,
    additionalServices: seq<string>,
    paymentMethod: string)

  /** The fields `handleInputChange` can set, and the value it sets them to. */
  datatype Field = FirstName | LastName | Email | Phone | PickupDate | DropoffDate
                 | PickupLocation | DropoffLocation | PaymentMethod

  datatype FieldValue = Text(text: string) | Date(date: DateField)

  datatype Pricing = Pricing(
    days: int,
    basePrice: int,
    locationCharges: int,
    serviceCharges: int,
    total: int,
    deposit: int)

  const InitialFormData := FormData("", "", "", "", NoDate, NoDate, "", "", [], "cash")

  /** The breakdown before any dates are chosen; the deposit is `car?.deposit || 0`. */
  function InitialPricing(car: Option<Car>): Pricing
  {
    Pricing(0, 0, 0, 0, 0, if car.Some? then car.value.deposit else 0)
  }

  // ---------------------------------------------------------------- pricing

  /** The day span between the two dates (both set). */
  function Span(d: FormData): int
    requires d.pickupDate.Day? && d.dropoffDate.Day?
  {
    d.dropoffDate.n - d.pickupDate.n
  }

  /** Greedy tiers: whole months at the monthly rate, else whole weeks at the weekly rate, the rest daily. */
  function BasePrice(days: nat, car: Car): int
  {
    if days >= 30 then (days / 30) * car.monthlyPrice + (days % 30) * car.dailyPrice
    else if days >= 7 then (days / 7) * car.weeklyPrice + (days % 7) * car.dailyPrice
    else days * car.dailyPrice
  }

  /** `locations.find(...)?.extraCharge || 0`. */
  function LocationCharge(t: Tables, id: string): int
  {
    match FindLocation(t.locations, id)
    case Some(l) => l.extraCharge
    case None => 0
  }

  /** One add-on's share of the reduce: `price * days` when the id is known, 0 otherwise. */
  function ServiceCharge(t: Tables, id: string, days: int): int
  {
    match FindService(t.services, id)
    case Some(s) => s.price * days
    case None => 0
  }

  /** The reduce over the selected add-on ids (summed head first; integer addition commutes). */
  function ServiceCharges(t: Tables, ids: seq<string>, days: int): int
  {
    if ids == [] then 0 else ServiceCharge(t, ids[0], days) + ServiceCharges(t, ids[1..], days)
  }

  /** The breakdown the effect writes for a span of `days` days. */
  function Breakdown(t: Tables, d: FormData, car: Car, days: nat): (r: Pricing)
    ensures r.days == days && r.deposit == car.deposit
    ensures r.total == r.basePrice + r.locationCharges + r.serviceCharges
  {
    var base := BasePrice(days, car);
    var loc := LocationCharge(t, d.pickupLocation) + LocationCharge(t, d.dropoffLocation);
    var svc := ServiceCharges(t, d.additionalServices, days);
    Pricing(days, base, loc, svc, base + loc + svc, car.deposit)
  }

  /** The effect's guard: both dates set, a span of at least two days, and a car. */
  predicate Recomputes(d: FormData, car: Option<Car>)
  {
    d.pickupDate.Day? && d.dropoffDate.Day? && Span(d) >= 2 && car.Some?
  }

  /**
   * The pricing effect: replaces the breakdown when its guard holds and
   * otherwise leaves the previous one in place (there is no else-branch).
   */
  function PricingEffect(t: Tables, d: FormData, car: Option<Car>, p: Pricing): (r: Pricing)
    ensures Recomputes(d, car) ==> r.days == Span(d) && r.days >= 2
    ensures Recomputes(d, car) ==> r.total == r.basePrice + r.locationCharges + r.serviceCharges
    ensures Recomputes(d, car) ==> r.deposit == car.value.deposit
    ensures !Recomputes(d, car) ==> r == p
  {
    if Recomputes(d, car) then Breakdown(t, d, car.value, Span(d)) else p
  }

  /** Running the effect again on the same form changes nothing. */
  lemma PricingEffectIdempotent(t: Tables, d: FormData, car: Option<Car>, p: Pricing)
    ensures PricingEffect(t, d, car, PricingEffect(t, d, car, p)) == PricingEffect(t, d, car, p)
  {
  }

  /**
   * Every breakdown the form can hold: the initial zeros, or one the effect
   * wrote, whose total is the sum of its parts and whose base price follows the tiers.
   */
  predicate PricingConsistent(p: Pricing, car: Option<Car>)
  {
    p == InitialPricing(car) ||
    (car.Some? && p.days >= 2 && p.basePrice == BasePrice(p.days, car.value) &&
     p.total == p.basePrice + p.locationCharges + p.serviceCharges && p.deposit == car.value.deposit)
  }

  lemma PricingEffectConsistent(t: Tables, d: FormData, car: Option<Car>, p: Pricing)
    requires PricingConsistent(p, car)
    ensures PricingConsistent(PricingEffect(t, d, car, p), car)
  {
  }

  /** The tiers are the stated formulas, and with discounted tiers they never exceed the daily rate. */
  lemma BasePriceTiers(days: nat, car: Car)
    ensures days < 7 ==> BasePrice(days, car) == days * car.dailyPrice
    ensures TiersAreDiscounts(car) ==> BasePrice(days, car) <= days * car.dailyPrice
    ensures TiersAreDiscounts(car) && days >= 7 ==> BasePrice(days, car) < days * car.dailyPrice
  {
    if TiersAreDiscounts(car) {
      if days >= 30 {
        var m, rem := days / 30, days % 30;
        assert days == 30 * m + rem;
        assert m * car.monthlyPrice < m * (30 * car.dailyPrice) by {
          MulStrict(m, car.monthlyPrice, 30 * car.dailyPrice);
        }
        assert days * car.dailyPrice == m * (30 * car.dailyPrice) + rem * car.dailyPrice;
      } else if days >= 7 {
        var w, rem := days / 7, days % 7;
        assert days == 7 * w + rem;
        assert w * car.weeklyPrice < w * (7 * car.dailyPrice) by {
          MulStrict(w, car.weeklyPrice, 7 * car.dailyPrice);
        }
        assert days * car.dailyPrice == w * (7 * car.dailyPrice) + rem * car.dailyPrice;
      }
    }
  }

  lemma MulSucc(m: int, c: int)
    ensures (m + 1) * c == m * c + c
  {
  }

  lemma MulStrict(k: int, a: int, b: int)
    requires k >= 1 && a < b
    ensures k * a < k * b
  {
    assert k * b - k * a == k * (b - a);
  }

  /**
   * The price is not monotone in the span: for the shipped Hyundai, 29 days
   * (four weeks and a day) cost 1165 while 30 days (one month) cost 1100.
   */
  lemma TotalNotMonotoneInDays()
    ensures BasePrice(29, Cars[0]) == 1165 && BasePrice(30, Cars[0]) == 1100
    ensures BasePrice(29, Cars[0]) > BasePrice(30, Cars[0])
  {
  }

  /** An unknown or empty location id adds nothing; a known one adds its own surcharge. */
  lemma LocationChargeLookup(t: Tables, id: string)
    requires TablesWellFormed(t)
    ensures (forall i :: 0 <= i < |t.locations| ==> t.locations[i].id != id) ==> LocationCharge(t, id) == 0
    ensures forall k :: 0 <= k < |t.locations| ==> LocationCharge(t, t.locations[k].id) == t.locations[k].extraCharge
    ensures LocationCharge(t, id) >= 0
  {
    forall k | 0 <= k < |t.locations| ensures LocationCharge(t, t.locations[k].id) == t.locations[k].extraCharge {
      FindLocationUnique(t.locations, k);
    }
    var r := FindLocation(t.locations, id);
    if r.Some? {
      var k :| 0 <= k < |t.locations| && t.locations[k] == r.value;
    }
  }

  /** In the shipped tables the empty id (no location chosen) and the office add nothing. */
  lemma ShippedLocationCharges()
    ensures LocationCharge(Shipped, "") == 0
    ensures LocationCharge(Shipped, "office") == 0
    ensures LocationCharge(Shipped, "airport") == 25
  {
  }

  /** An unknown service id adds nothing; a known one adds its price for each day. */
  lemma ServiceChargeLookup(t: Tables, id: string, days: int)
    requires TablesWellFormed(t)
    ensures (forall i :: 0 <= i < |t.services| ==> t.services[i].id != id) ==> ServiceCharge(t, id, days) == 0
    ensures forall k :: 0 <= k < |t.services| ==>
      ServiceCharge(t, t.services[k].id, days) == t.services[k].price * days
    ensures days >= 0 ==> ServiceCharge(t, id, days) >= 0
  {
    forall k | 0 <= k < |t.services|
      ensures ServiceCharge(t, t.services[k].id, days) == t.services[k].price * days
    {
      ServiceChargeKnown(t, k, days);
    }
    if days >= 0 {
      ServiceChargeNonNegative(t, id, days);
    }
  }

  /** A listed service is found by its id and charged its price for each day. */
  lemma ServiceChargeKnown(t: Tables, k: int, days: int)
    requires TablesWellFormed(t) && 0 <= k < |t.services|
    ensures ServiceCharge(t, t.services[k].id, days) == t.services[k].price * days
  {
    FindServiceUnique(t.services, k);
  }

  /** Over a non-negative span every add-on charge is non-negative. */
  lemma ServiceChargeNonNegative(t: Tables, id: string, days: int)
    requires TablesWellFormed(t) && days >= 0
    ensures ServiceCharge(t, id, days) >= 0
  {
    var r := FindService(t.services, id);
    if r.Some? {
      var k :| 0 <= k < |t.services| && t.services[k] == r.value;
      assert r.value.price > 0;
    }
  }

  /** Checking one more add-on adds exactly its own charge. */
  lemma {:induction false} ServiceChargesAppend(t: Tables, ids: seq<string>, id: string, days: int)
    ensures ServiceCharges(t, ids + [id], days) == ServiceCharges(t, ids, days) + ServiceCharge(t, id, days)
  {
    if ids != [] {
      assert (ids + [id])[1..] == ids[1..] + [id];
      ServiceChargesAppend(t, ids[1..], id, days);
    }
  }

  /** Unchecking an add-on removes its charge once for every occurrence of its id. */
  lemma {:induction false} ServiceChargesRemove(t: Tables, ids: seq<string>, id: string, keep: string -> bool, days: int)
    requires forall x :: keep(x) == (x != id)
    ensures ServiceCharges(t, Filter(ids, keep), days) ==
            ServiceCharges(t, ids, days) - multiset(ids)[id] * ServiceCharge(t, id, days)
  {
    if ids != [] {
      ServiceChargesRemove(t, ids[1..], id, keep, days);
      if ids[0] == id {
        RemoveStepMatching(t, ids, id, keep, days);
      } else {
        RemoveStepOther(t, ids, id, keep, days);
      }
    }
  }

  /** The step of `ServiceChargesRemove` when the first id is the removed one. */
  lemma RemoveStepMatching(t: Tables, ids: seq<string>, id: string, keep: string -> bool, days: int)
    requires forall x :: keep(x) == (x != id)
    requires ids != [] && ids[0] == id
    requires ServiceCharges(t, Filter(ids[1..], keep), days) ==
             ServiceCharges(t, ids[1..], days) - multiset(ids[1..])[id] * ServiceCharge(t, id, days)
    ensures ServiceCharges(t, Filter(ids, keep), days) ==
            ServiceCharges(t, ids, days) - multiset(ids)[id] * ServiceCharge(t, id, days)
  {
    FilterDroppedHead(ids, keep);
    ServiceChargesCons(t, ids, days);
    CountMatchingHead(ids, id);
    DropOneMore(ServiceCharges(t, Filter(ids[1..], keep), days), ServiceCharges(t, ids[1..], days),
                multiset(ids[1..])[id], multiset(ids)[id], ServiceCharge(t, id, days));
  }

  /** Removing one more copy of a charge `c` from a sum that gained it leaves the same difference. */
  lemma DropOneMore(kept: int, whole: int, m: int, n: int, c: int)
    requires kept == whole - m * c && n == m + 1
    ensures kept == (c + whole) - n * c
  {
    MulSucc(m, c);
  }

  /** The step of `ServiceChargesRemove` when the first id is another one. */
  lemma RemoveStepOther(t: Tables, ids: seq<string>, id: string, keep: string -> bool, days: int)
    requires forall x :: keep(x) == (x != id)
    requires ids != [] && ids[0] != id
    requires ServiceCharges(t, Filter(ids[1..], keep), days) ==
             ServiceCharges(t, ids[1..], days) - multiset(ids[1..])[id] * ServiceCharge(t, id, days)
    ensures ServiceCharges(t, Filter(ids, keep), days) ==
            ServiceCharges(t, ids, days) - multiset(ids)[id] * ServiceCharge(t, id, days)
  {
    var x, rest := ids[0], ids[1..];
    var f := Filter(rest, keep);
    FilterKeptHead(ids, keep);
    ServiceChargesCons(t, [x] + f, days);
    CountOtherHead(ids, id);
  }

  /** A kept first element stays first and the rest is filtered on. */
  lemma FilterKeptHead(ids: seq<string>, keep: string -> bool)
    requires ids != [] && keep(ids[0])
    ensures Filter(ids, keep) == [ids[0]] + Filter(ids[1..], keep)
  {
  }

  /** The sum over a non-empty list is its head's charge plus the sum over its tail. */
  lemma ServiceChargesCons(t: Tables, ids: seq<string>, days: int)
    requires ids != []
    ensures ServiceCharges(t, ids, days) == ServiceCharge(t, ids[0], days) + ServiceCharges(t, ids[1..], days)
  {
  }

  /** A dropped first element leaves the filtered tail. */
  lemma FilterDroppedHead(ids: seq<string>, keep: string -> bool)
    requires ids != [] && !keep(ids[0])
    ensures Filter(ids, keep) == Filter(ids[1..], keep)
  {
  }

  /** A first element equal to `id` counts once more towards `id`. */
  lemma CountMatchingHead(ids: seq<string>, id: string)
    requires ids != [] && ids[0] == id
    ensures multiset(ids)[id] == multiset(ids[1..])[id] + 1
  {
    assert ids == [ids[0]] + ids[1..];
  }

  /** A first element other than `id` does not count towards `id`. */
  lemma CountOtherHead(ids: seq<string>, id: string)
    requires ids != [] && ids[0] != id
    ensures multiset(ids)[id] == multiset(ids[1..])[id]
  {
    assert ids == [ids[0]] + ids[1..];
  }

  /** With a non-negative span, add-on charges are never negative. */
  lemma {:induction false} ServiceChargesNonNegative(t: Tables, ids: seq<string>, days: int)
    requires TablesWellFormed(t) && days >= 0
    ensures ServiceCharges(t, ids, days) >= 0
  {
    if ids != [] {
      ServiceChargeLookup(t, ids[0], days);
      ServiceChargesNonNegative(t, ids[1..], days);
    }
  }

  /** With well-formed tables and non-negative rates, every part of a written breakdown is non-negative. */
  lemma BreakdownNonNegative(t: Tables, d: FormData, car: Car, days: nat)
    requires TablesWellFormed(t) && car.dailyPrice >= 0 && car.weeklyPrice >= 0 && car.monthlyPrice >= 0
    ensures Breakdown(t, d, car, days).basePrice >= 0
    ensures Breakdown(t, d, car, days).locationCharges >= 0
    ensures Breakdown(t, d, car, days).serviceCharges >= 0
    ensures Breakdown(t, d, car, days).total >= Breakdown(t, d, car, days).basePrice
  {
    LocationChargeLookup(t, d.pickupLocation);
    LocationChargeLookup(t, d.dropoffLocation);
    ServiceChargesNonNegative(t, d.additionalServices, days);
  }

  // ---------------------------------------------------------------- inputs

  /** Date fields take dates, every other field takes text. */
  predicate Accepts(f: Field, v: FieldValue)
  {
    (f == PickupDate || f == DropoffDate) <==> v.Date?
  }

  function Get(d: FormData, f: Field): FieldValue
  {
    match f
    case FirstName => Text(d.firstName)
    case LastName => Text(d.lastName)
    case Email => Text(d.email)
    case Phone => Text(d.phone)
    case PickupDate => Date(d.pickupDate)
    case DropoffDate => Date(d.dropoffDate)
    case PickupLocation => Text(d.pickupLocation)
    case DropoffLocation => Text(d.dropoffLocation)
    case PaymentMethod => Text(d.paymentMethod)
  }

  /** `{ ...prev, [field]: value }`: the named field takes the value and nothing else changes. */
  function SetField(d: FormData, f: Field, v: FieldValue): (r: FormData)
    requires Accepts(f, v)
    ensures Get(r, f) == v
    ensures forall g :: g != f ==> Get(r, g) == Get(d, g)
    ensures r.additionalServices == d.additionalServices
  {
    match f
    case FirstName => d.(firstName := v.text)
    case LastName => d.(lastName := v.text)
    case Email => d.(email := v.text)
    case Phone => d.(phone := v.text)
    case PickupDate => d.(pickupDate := v.date)
    case DropoffDate => d.(dropoffDate := v.date)
    case PickupLocation => d.(pickupLocation := v.text)
    case DropoffLocation => d.(dropoffLocation := v.text)
    case PaymentMethod => d.(paymentMethod := v.text)
  }

  /** The add-on list after a checkbox change: appended at the end, or every occurrence removed. */
  function ToggleService(ids: seq<string>, id: string, checked: bool): (r: seq<string>)
    ensures checked ==> r == ids + [id]
    ensures !checked ==> IsSubsequence(r, ids)
    ensures !checked ==> forall i :: 0 <= i < |r| ==> r[i] != id
    ensures !checked ==> forall i :: 0 <= i < |ids| && ids[i] != id ==> ids[i] in r
  {
    if checked then ids + [id]
    else
      var keep := (x: string) => x != id;
      FilterIsSubsequence(ids, keep);
      Filter(ids, keep)
  }

  /** The add-on charge follows a checkbox change: it grows by one charge, or loses every copy. */
  lemma ToggleServiceCharges(t: Tables, ids: seq<string>, id: string, checked: bool, days: int)
    ensures checked ==> ServiceCharges(t, ToggleService(ids, id, checked), days) ==
                        ServiceCharges(t, ids, days) + ServiceCharge(t, id, days)
    ensures !checked ==> ServiceCharges(t, ToggleService(ids, id, checked), days) ==
                         ServiceCharges(t, ids, days) - multiset(ids)[id] * ServiceCharge(t, id, days)
  {
    if checked {
      ServiceChargesAppend(t, ids, id, days);
    } else {
      ServiceChargesRemove(t, ids, id, (x: string) => x != id, days);
    }
  }

  // ---------------------------------------------------------------- wizard

  predicate IdentityComplete(d: FormData)
  {
    d.firstName != "" && d.lastName != "" && d.email != "" && d.phone != ""
  }

  predicate TripComplete(d: FormData, p: Pricing)
  {
    d.pickupDate.Day? && d.dropoffDate.Day? && d.pickupLocation != "" && d.dropoffLocation != "" && p.days >= 2
  }

  /** `isFormValid`. */
  predicate FormValid(d: FormData, p: Pricing)
  {
    IdentityComplete(d) && TripComplete(d, p)
  }

  /** `isStepValid()` for the given step. */
  predicate StepValid(step: int, d: FormData, p: Pricing)
  {
    if step == 1 then IdentityComplete(d)
    else if step == 2 then TripComplete(d, p)
    else if step == 3 then d.paymentMethod == "cash" || d.paymentMethod == "online"
    else if step == 4 then FormValid(d, p)
    else false
  }

  /** The final check is exactly the first two step guards together; steps outside 1..4 never pass. */
  lemma FormValidIsSteps(d: FormData, p: Pricing, step: int)
    ensures FormValid(d, p) <==> StepValid(1, d, p) && StepValid(2, d, p)
    ensures StepValid(4, d, p) <==> FormValid(d, p)
    ensures !(1 <= step <= 4) ==> !StepValid(step, d, p)
  {
  }

  /** When the breakdown is recomputed for the current dates, the step-2 guard reads the current span. */
  lemma StepTwoReadsCurrentSpan(t: Tables, d: FormData, car: Option<Car>, p: Pricing)
    requires Recomputes(d, car)
    ensures PricingEffect(t, d, car, p).days == Span(d)
    ensures d.pickupLocation != "" && d.dropoffLocation != "" ==> StepValid(2, d, PricingEffect(t, d, car, p))
  {
  }

  /**
   * The stale breakdown lets a one-day trip through step 2: choose days 0 and 3,
   * then move the drop-off back to day 1; the effect skips the one-day span and
   * the old three-day breakdown stays in place.
   */
  lemma StaleBreakdownPassesStepTwo(t: Tables)
    ensures
      var car := Some(Cars[0]);
      var d1 := InitialFormData.(pickupDate := Day(0), dropoffDate := Day(3),
                                 pickupLocation := "office", dropoffLocation := "airport");
      var p1 := PricingEffect(t, d1, car, InitialPricing(car));
      var d2 := SetField(d1, DropoffDate, Date(Day(1)));
      var p2 := PricingEffect(t, d2, car, p1);
      Span(d2) == 1 && p2 == p1 && p2.days == 3 && StepValid(2, d2, p2)
  {
  }

  // ---------------------------------------------------------------- submit

  datatype Status = Pending

  /** The booking details and the fields `handleSubmit` adds before storing them. */
  datatype BookingRecord = BookingRecord(
    car: string,
    customer: string,
    email: string,
    phone: string,
    pickupDate: DateField,
    dropoffDate: DateField,
    pickupLocation: string,
    dropoffLocation: string,
    additionalServices: seq<string>,
    pricing: Pricing,
    paymentMethod: string,
    id: string,
    status: Status,
    createdAt: int)

  datatype EmailPayload = EmailPayload(
    customerEmail: string,
    customerName: string,
    businessEmail: string,
    car: string,
    dates: (DateField, DateField),
    locations: string,
    services: string,
    total: string)

  /** What the WhatsApp hand-off message reports (its wording and URL encoding are not modelled). */
  datatype HandoffMessage = HandoffMessage(
    customer: string,
    email: string,
    phone: string,
    car: string,
    dates: (DateField, DateField),
    locations: string,
    services: string,
    total: int)

  /** What the submit pipeline does outside the component, in order. */
  datatype Event =
    | EmailAttempt(payload: EmailPayload)
    | EmailFailureLogged
    | WhatsAppHandoff(message: HandoffMessage)
    | Alert(text: string)

  const BusinessEmail := "info@ramservis.az"
  const SuccessAlert := "Rezervasiyanız uğurla göndərildi! E-mail ünvanınıza təsdiq göndəriləcək."

  function CarTitle(car: Car): string
  {
    car.brand + " " + car.model + " (" + IntToString(car.year) + ")"
  }

  /** `locations.find(...)?.name || ''`. */
  function LocationNameOrEmpty(t: Tables, id: string): (r: string)
    ensures (forall i :: 0 <= i < |t.locations| ==> t.locations[i].id != id) ==> r == ""
    ensures forall k :: (0 <= k < |t.locations| && t.locations[k].id == id &&
                         (forall j :: 0 <= j < k ==> t.locations[j].id != id)) ==> r == t.locations[k].name
  {
    match FindLocation(t.locations, id)
    case Some(l) => l.name
    case None => ""
  }

  /** `${locations.find(...)?.name}` inside a template: a missing row prints `undefined`. */
  function LocationNameInText(t: Tables, id: string): string
  {
    match FindLocation(t.locations, id)
    case Some(l) => l.name
    case None => "undefined"
  }

  /** `additionalServices.find(...)?.name || ''` for each selected id, in order. */
  function ServiceNamesOrEmpty(t: Tables, ids: seq<string>): (r: seq<string>)
    ensures |r| == |ids|
    ensures forall i :: 0 <= i < |ids| ==>
      r[i] == (if FindService(t.services, ids[i]).Some? then FindService(t.services, ids[i]).value.name else "")
  {
    if ids == [] then []
    else [if FindService(t.services, ids[0]).Some? then FindService(t.services, ids[0]).value.name else ""]
         + ServiceNamesOrEmpty(t, ids[1..])
  }

  /** The names of the selected services that exist, with falsy names dropped (`.filter(Boolean)`). */
  function KnownServiceNames(t: Tables, ids: seq<string>): (r: seq<string>)
    ensures |r| <= |ids|
    ensures forall i :: 0 <= i < |r| ==> r[i] != ""
  {
    if ids == [] then []
    else
      var rest := KnownServiceNames(t, ids[1..]);
      match FindService(t.services, ids[0])
      case Some(s) => if s.name != "" then [s.name] + rest else rest
      case None => rest
  }

  /** `names.join(', ') || 'Yoxdur'`. */
  function ServicesSummary(t: Tables, ids: seq<string>): (r: string)
    ensures KnownServiceNames(t, ids) == [] ==> r == "Yoxdur"
    ensures KnownServiceNames(t, ids) != [] ==> r == Join(KnownServiceNames(t, ids), ", ")
  {
    var names := KnownServiceNames(t, ids);
    assert names != [] ==> Join(names, ", ") != "" by {
      if names != [] { JoinNonEmpty(names, ", "); }
    }
    var j := Join(names, ", ");
    if j == "" then "Yoxdur" else j
  }

  lemma {:induction false} JoinNonEmpty(parts: seq<string>, sep: string)
    requires parts != [] && parts[0] != ""
    ensures Join(parts, sep) != ""
  {
    if |parts| > 1 {
      assert Join(parts, sep)[0] == parts[0][0];
    }
  }

  function LocationsText(t: Tables, d: FormData): string
  {
    LocationNameInText(t, d.pickupLocation) + " → " + LocationNameInText(t, d.dropoffLocation)
  }

  /** The stored record: the booking details, the current breakdown, and status `pending`. */
  function NewBooking(t: Tables, d: FormData, p: Pricing, car: Car, now: nat): (r: BookingRecord)
    ensures r.status == Pending && r.pricing == p && r.id == NatToString(now) && r.createdAt == now
    ensures r.customer == d.firstName + " " + d.lastName && r.email == d.email && r.phone == d.phone
    ensures r.car == CarTitle(car) && r.pickupDate == d.pickupDate && r.dropoffDate == d.dropoffDate
    ensures r.pickupLocation == LocationNameOrEmpty(t, d.pickupLocation)
    ensures r.dropoffLocation == LocationNameOrEmpty(t, d.dropoffLocation)
    ensures r.additionalServices == ServiceNamesOrEmpty(t, d.additionalServices)
    ensures r.paymentMethod == d.paymentMethod
  {
    BookingRecord(CarTitle(car), d.firstName + " " + d.lastName, d.email, d.phone,
                  d.pickupDate, d.dropoffDate,
                  LocationNameOrEmpty(t, d.pickupLocation), LocationNameOrEmpty(t, d.dropoffLocation),
                  ServiceNamesOrEmpty(t, d.additionalServices), p, d.paymentMethod,
                  NatToString(now), Pending, now)
  }

  function EmailPayloadOf(t: Tables, d: FormData, p: Pricing, car: Car): EmailPayload
  {
    EmailPayload(d.email, d.firstName + " " + d.lastName, BusinessEmail, CarTitle(car),
                 (d.pickupDate, d.dropoffDate), LocationsText(t, d),
                 ServicesSummary(t, d.additionalServices), "$" + IntToString(p.total))
  }

  function HandoffOf(t: Tables, d: FormData, p: Pricing, car: Car): HandoffMessage
  {
    HandoffMessage(d.firstName + " " + d.lastName, d.email, d.phone, CarTitle(car),
                   (d.pickupDate, d.dropoffDate), LocationsText(t, d),
                   ServicesSummary(t, d.additionalServices), p.total)
  }

  /**
   * The outside effects of one submission, in order: the e-mail attempt, a
   * logged warning if it failed, the hand-off for online payment, the alert.
   */
  function SubmitEvents(email: EmailPayload, handoff: HandoffMessage, online: bool, emailFails: bool): (r: seq<Event>)
    ensures |r| == 2 + (if emailFails then 1 else 0) + (if online then 1 else 0)
    ensures r[0] == EmailAttempt(email)
    ensures r[|r| - 1] == Alert(SuccessAlert)
    ensures (exists i :: 0 <= i < |r| && r[i] == WhatsAppHandoff(handoff)) <==> online
    ensures forall i :: 0 <= i < |r| && r[i].WhatsAppHandoff? ==> r[i] == WhatsAppHandoff(handoff)
    ensures (exists i :: 0 <= i < |r| && r[i] == EmailFailureLogged) <==> emailFails
  {
    var sent := [EmailAttempt(email)] + (if emailFails then [EmailFailureLogged] else []);
    var handed := if online then [WhatsAppHandoff(handoff)] else [];
    var r := sent + handed + [Alert(SuccessAlert)];
    assert online ==> r[|sent|] == WhatsAppHandoff(handoff);
    assert emailFails ==> r[1] == EmailFailureLogged;
    r
  }

  /** The form component for an optional car, with the stored bookings and the effects it has caused. */
  class Form {
    const tables: Tables
    const car: Option<Car>
    var formData: FormData
    var pricing: Pricing
    var step: int
    var bookings: seq<BookingRecord>
    var outbox: seq<Event>

    /** The step is one of the four, and the breakdown is one the effect could have written and is current. */
    predicate Valid()
      reads this
    {
      1 <= step <= 4 && PricingConsistent(pricing, car) && PricingEffect(tables, formData, car, pricing) == pricing
    }

    constructor(car: Option<Car>, stored: seq<BookingRecord>)
      ensures Valid()
      ensures tables == Shipped && this.car == car
      ensures formData == InitialFormData && pricing == InitialPricing(car)
      ensures step == 1 && bookings == stored && outbox == []
    {
      tables := Shipped;
      this.car := car;
      formData := InitialFormData;
      pricing := InitialPricing(car);
      step := 1;
      bookings := stored;
      outbox := [];
    }

    /** Re-run the pricing effect after a change of its inputs. */
    method RunPricingEffect()
      requires 1 <= step <= 4 && PricingConsistent(pricing, car)
      modifies this
      ensures Valid()
      ensures pricing == PricingEffect(tables, formData, car, old(pricing))
      ensures formData == old(formData) && step == old(step) && bookings == old(bookings) && outbox == old(outbox)
    {
      PricingEffectConsistent(tables, formData, car, pricing);
      PricingEffectIdempotent(tables, formData, car, pricing);
      pricing := PricingEffect(tables, formData, car, pricing);
    }

    method HandleInputChange(field: Field, value: FieldValue)
      requires Valid() && Accepts(field, value)
      modifies this
      ensures Valid()
      ensures formData == SetField(old(formData), field, value)
      ensures pricing == PricingEffect(tables, formData, car, old(pricing))
      ensures step == old(step) && bookings == old(bookings) && outbox == old(outbox)
    {
      formData := SetField(formData, field, value);
      RunPricingEffect();
    }

    method HandleServiceChange(serviceId: string, checked: bool)
      requires Valid()
      modifies this
      ensures Valid()
      ensures formData == old(formData).(additionalServices := ToggleService(old(formData).additionalServices, serviceId, checked))
      ensures pricing == PricingEffect(tables, formData, car, old(pricing))
      ensures step == old(step) && bookings == old(bookings) && outbox == old(outbox)
    {
      formData := formData.(additionalServices := ToggleService(formData.additionalServices, serviceId, checked));
      RunPricingEffect();
    }

    function IsStepValid(): bool
      reads this
    {
      StepValid(step, formData, pricing)
    }

    function IsFormValid(): bool
      reads this
    {
      FormValid(formData, pricing)
    }

    method NextStep()
      requires Valid()
      modifies this
      ensures Valid()
      ensures step == if StepValid(old(step), formData, pricing) then Min(4, old(step) + 1) else old(step)
      ensures formData == old(formData) && pricing == old(pricing)
      ensures bookings == old(bookings) && outbox == old(outbox)
    {
      if StepValid(step, formData, pricing) {
        step := Min(4, step + 1);
      }
    }

    method PrevStep()
      requires Valid()
      modifies this
      ensures Valid()
      ensures step == Max(1, old(step) - 1)
      ensures formData == old(formData) && pricing == old(pricing)
      ensures bookings == old(bookings) && outbox == old(outbox)
    {
      step := Max(1, step - 1);
    }

    /**
     * `handleSubmit`: it checks only the step and the car. The record is stored
     * before the e-mail attempt, whose outcome `emailFails` is only logged; the
     * form data and step are reset while the breakdown is kept.
     */
    method HandleSubmit(now: nat, emailFails: bool)
      requires Valid()
      modifies this
      ensures Valid()
      ensures old(step) < 4 || car.None? ==>
        formData == old(formData) && pricing == old(pricing) && step == old(step) &&
        bookings == old(bookings) && outbox == old(outbox)
      ensures old(step) >= 4 && car.Some? ==>
        bookings == old(bookings) + [NewBooking(tables, old(formData), old(pricing), car.value, now)] &&
        outbox == old(outbox) + SubmitEvents(EmailPayloadOf(tables, old(formData), old(pricing), car.value),
                                             HandoffOf(tables, old(formData), old(pricing), car.value),
                                             old(formData).paymentMethod == "online", emailFails) &&
        formData == InitialFormData && step == 1 && pricing == old(pricing)
    {
      if step < 4 {
        return;
      }
      if car.None? {
        return;
      }
      var c := car.value;
      var email := EmailPayloadOf(tables, formData, pricing, c);
      var handoff := HandoffOf(tables, formData, pricing, c);
      var online := formData.paymentMethod == "online";
      bookings := bookings + [NewBooking(tables, formData, pricing, c, now)];
      outbox := outbox + SubmitEvents(email, handoff, online, emailFails);
      formData := InitialFormData;
      step := 1;
    }

    /** The buttons: back is disabled on step 1, next while the step guard fails, submit while the form is invalid. */
    predicate PrevDisabled()
      reads this
    {
      step == 1
    }

    predicate NextDisabled()
      reads this
    {
      !IsStepValid()
    }

    predicate SubmitDisabled()
      reads this
    {
      !IsFormValid()
    }
  }

  function Min(a: int, b: int): int { if a < b then a else b }
  function Max(a: int, b: int): int { if a < b then b else a }
}
