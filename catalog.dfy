/**
 * The catalog tables of lib/data.ts: the rental cars with their rate cards, the
 * pickup/dropoff locations with their surcharges, and the add-on services with
 * their per-day prices, plus the lookups by id the booking engine performs.
 *
 * The extended car shape read by the recommendation, favorites and listing
 * components (`EnhancedCar`, declared in lib/types.ts, which is not part of this
 * model) is declared here with the fields those components read.
 */
module Catalog {
  import opened Js

  datatype Rules = Rules(
    minimumAge: int,
    drivingExperience: int,
    passportRequired: bool,
    licenseRequired: bool)

  /** A rental car; `images` is optional in the source's interface. */
  datatype Car = Car(
    id: string,
    brand: string,
    model: string,
    year: int,
    carClass: string,
    fuelType: string,
    transmission: string,
    engineSize: string,
    seats: int,
    dailyPrice: int,
    weeklyPrice: int,
    monthlyPrice: int,
    deposit: int,
    image: string,
    images: Option<seq<string>>,
    features: seq<string>,
    rules: Rules)

  datatype Location = Location(id: string, name: string, extraCharge: int)

  datatype AdditionalService = AdditionalService(id: string, name: string, price: int, description: string)

  /** The car shape of the dynamic components (category, popularity and feature list). */
  datatype EnhancedCar = EnhancedCar(
    id: string,
    brand: string,
    model: string,
    year: int,
    carClass: string,
    category: string,
    fuelType: string,
    transmission: string,
    seats: int,
    dailyPrice: int,
    features: seq<string>,
    popularity: int)

  const Cars: seq<Car> := [
    Car(
      id := "1", brand := "Hyundai", model := "Elantra", year := 2023,
      carClass := "Ekonom", fuelType := "Benzin", transmission := "Avtomat",
      engineSize := "2.0L", seats := 5,
      dailyPrice := 45, weeklyPrice := 280, monthlyPrice := 1100, deposit := 200,
      image := "https://images.pexels.com/photos/3972755/pexels-photo-3972755.jpeg?auto=compress&cs=tinysrgb&w=1200",
      images := Some([
        "https://carento.alithemes.net/wp-content/uploads/2025/06/car-1-26-416x340.png",
        "https://images.pexels.com/photos/210019/pexels-photo-210019.jpeg?auto=compress&cs=tinysrgb&w=1200",
        "https://images.pexels.com/photos/244206/pexels-photo-244206.jpeg?auto=compress&cs=tinysrgb&w=1200",
        "https://images.pexels.com/photos/1149831/pexels-photo-1149831.jpeg?auto=compress&cs=tinysrgb&w=1200"
      ]),
      features := ["Kondisioner", "GPS Naviqasiya", "Bluetooth", "USB Port"],
      rules := Rules(minimumAge := 21, drivingExperience := 2,
                     passportRequired := true, licenseRequired := true)),
    Car(
      id := "2", brand := "Toyota", model := "Camry", year := 2024,
      carClass := "Biznes", fuelType := "Benzin", transmission := "Avtomat",
      engineSize := "2.5L", seats := 5,
      dailyPrice := 75, weeklyPrice := 480, monthlyPrice := 1900, deposit := 300,
      image := "https://images.pexels.com/photos/1007410/pexels-photo-1007410.jpeg?auto=compress&cs=tinysrgb&w=1200",
      images := Some([
        "https://carento.alithemes.net/wp-content/uploads/2025/06/car-6-416x340.png",
        "https://images.pexels.com/photos/112460/pexels-photo-112460.jpeg?auto=compress&cs=tinysrgb&w=1200",
        "https://images.pexels.com/photos/3050708/pexels-photo-3050708.jpeg?auto=compress&cs=tinysrgb&w=1200",
        "https://images.pexels.com/photos/358070/pexels-photo-358070.jpeg?auto=compress&cs=tinysrgb&w=1200"
      ]),
      features := ["Premium Dəri Oturacaqlar", "Panorama Dam", "Adaptiv Kruiz Kontrol", "Wireless Charging"],
      rules := Rules(minimumAge := 23, drivingExperience := 3,
                     passportRequired := true, licenseRequired := true)),
    Car(
      id := "3", brand := "BMW", model := "X5", year := 2023,
      carClass := "Premium", fuelType := "Benzin", transmission := "Avtomat",
      engineSize := "3.0L", seats := 7,
      dailyPrice := 120, weeklyPrice := 780, monthlyPrice := 3100, deposit := 500,
      image := "https://images.pexels.com/photos/244206/pexels-photo-244206.jpeg?auto=compress&cs=tinysrgb&w=1200",
      images := Some([
        "https://carento.alithemes.net/wp-content/uploads/2025/06/car-7-416x340.png",
        "https://images.pexels.com/photos/1402787/pexels-photo-1402787.jpeg?auto=compress&cs=tinysrgb&w=1200",
        "https://images.pexels.com/photos/210019/pexels-photo-210019.jpeg?auto=compress&cs=tinysrgb&w=1200",
        "https://images.pexels.com/photos/193991/pexels-photo-193991.jpeg?auto=compress&cs=tinysrgb&w=1200"
      ]),
      features := ["4WD", "Premium Audio", "Heated Seats", "Advanced Safety"],
      rules := Rules(minimumAge := 25, drivingExperience := 5,
                     passportRequired := true, licenseRequired := true)),
    Car(
      id := "4", brand := "Mercedes", model := "E-Class", year := 2024,
      carClass := "Lüks", fuelType := "Hybrid", transmission := "Avtomat",
      engineSize := "2.0L", seats := 5,
      dailyPrice := 95, weeklyPrice := 620, monthlyPrice := 2450, deposit := 400,
      image := "https://images.pexels.com/photos/170811/pexels-photo-170811.jpeg?auto=compress&cs=tinysrgb&w=1200",
      images := Some([
        "https://carento.alithemes.net/wp-content/uploads/2025/06/car-2-416x340.png",
        "https://images.pexels.com/photos/1402787/pexels-photo-1402787.jpeg?auto=compress&cs=tinysrgb&w=1200",
        "https://images.pexels.com/photos/193991/pexels-photo-193991.jpeg?auto=compress&cs=tinysrgb&w=1200",
        "https://images.pexels.com/photos/1149831/pexels-photo-1149831.jpeg?auto=compress&cs=tinysrgb&w=1200"
      ]),
      features := ["Massaj Oturacaqlar", "Ambient Lighting", "Premium Sound", "Driver Assistance"],
      rules := Rules(minimumAge := 25, drivingExperience := 4,
                     passportRequired := true, licenseRequired := true)),
    Car(
      id := "5", brand := "Volkswagen", model := "Passat", year := 2023,
      carClass := "Komfort", fuelType := "Dizel", transmission := "Avtomat",
      engineSize := "2.0L TDI", seats := 5,
      dailyPrice := 60, weeklyPrice := 390, monthlyPrice := 1550, deposit := 250,
      image := "https://carento.alithemes.net/wp-content/uploads/2025/06/car-1-416x340.png",
      images := Some([
        "https://carento.alithemes.net/wp-content/uploads/2025/06/car-1-416x340.png",
        "https://carento.alithemes.net/wp-content/uploads/2025/06/banner7.png",
        "https://carento.alithemes.net/wp-content/uploads/2025/06/banner9.png",
        "https://images.pexels.com/photos/3050708/pexels-photo-3050708.jpeg?auto=compress&cs=tinysrgb&w=1200"
      ]),
      features := ["Digital Dashboard", "Lane Assist", "Park Assist", "Climate Control"],
      rules := Rules(minimumAge := 22, drivingExperience := 2,
                     passportRequired := true, licenseRequired := true)),
    Car(
      id := "6", brand := "Kia", model := "Sportage", year := 2023,
      carClass := "SUV", fuelType := "Benzin", transmission := "Avtomat",
      engineSize := "2.4L", seats := 5,
      dailyPrice := 70, weeklyPrice := 450, monthlyPrice := 1800, deposit := 300,
      image := "https://carento.alithemes.net/wp-content/uploads/2025/06/car-1-13-416x340.png",
      images := Some([
        "https://carento.alithemes.net/wp-content/uploads/2025/06/car-1-13-416x340.png",
        "https://images.pexels.com/photos/1149831/pexels-photo-1149831.jpeg?auto=compress&cs=tinysrgb&w=1200",
        "https://images.pexels.com/photos/1402787/pexels-photo-1402787.jpeg?auto=compress&cs=tinysrgb&w=1200",
        "https://images.pexels.com/photos/358070/pexels-photo-358070.jpeg?auto=compress&cs=tinysrgb&w=1200"
      ]),
      features := ["All Terrain", "Roof Rails", "Rearview Camera", "Smart Key"],
      rules := Rules(minimumAge := 23, drivingExperience := 3,
                     passportRequired := true, licenseRequired := true))
  ]

  const Locations: seq<Location> := [
    Location("office", "Ofisimizdən götürülmə", 0),
    Location("airport", "Heydər Əliyev Hava Limanı", 25),
    Location("city-center", "Şəhər Mərkəzi", 15),
    Location("hotel", "Otel/Yaşayış yeri", 20),
    Location("station", "Dəmir yolu vağzalı", 18)
  ]

  const AdditionalServices: seq<AdditionalService> := [
    AdditionalService("driver", "Şəxsi Sürücü", 50, "Təcrübəli sürücü ilə rahat səyahət"),
    AdditionalService("child-seat", "Uşaq Oturacağı", 10, "0-12 yaş arası uşaqlar üçün təhlükəsiz oturacaq"),
    AdditionalService("gps", "GPS Naviqasiya", 8, "Peşəkar GPS cihazı"),
    AdditionalService("insurance", "Tam Sığorta", 25, "Genişləndirilmiş sığorta təminatı")
  ]

  /** The two tables the booking engine reads. */
  datatype Tables = Tables(locations: seq<Location>, services: seq<AdditionalService>)

  const Shipped := Tables(Locations, AdditionalServices)

  /**
   * `locations.find(l => l.id === id)`: the first row with that id, if any.
   * `FindService` is the same search over the services table; the two row types
   * share no common supertype, so the search is written once per table.
   */
  function FindLocation(table: seq<Location>, id: string): (r: Option<Location>)
    ensures r.Some? ==> r.value in table && r.value.id == id
    ensures r.None? <==> forall i :: 0 <= i < |table| ==> table[i].id != id
    ensures forall k :: 0 <= k < |table| && table[k].id == id && (forall j :: 0 <= j < k ==> table[j].id != id) ==>
      r == Some(table[k])
  {
    if table == [] then None
    else if table[0].id == id then Some(table[0])
    else FindLocation(table[1..], id)
  }

  /** `additionalServices.find(s => s.id === id)`: the first row with that id, if any. */
  function FindService(table: seq<AdditionalService>, id: string): (r: Option<AdditionalService>)
    ensures r.Some? ==> r.value in table && r.value.id == id
    ensures r.None? <==> forall i :: 0 <= i < |table| ==> table[i].id != id
    ensures forall k :: 0 <= k < |table| && table[k].id == id && (forall j :: 0 <= j < k ==> table[j].id != id) ==>
      r == Some(table[k])
  {
    if table == [] then None
    else if table[0].id == id then Some(table[0])
    else FindService(table[1..], id)
  }

  predicate LocationIdsDistinct(table: seq<Location>)
  {
    forall i, j :: 0 <= i < j < |table| ==> table[i].id != table[j].id
  }

  predicate ServiceIdsDistinct(table: seq<AdditionalService>)
  {
    forall i, j :: 0 <= i < j < |table| ==> table[i].id != table[j].id
  }

  /** With distinct ids, a lookup finds exactly the row that carries the id. */
  lemma {:induction false} FindLocationUnique(table: seq<Location>, k: nat)
    requires LocationIdsDistinct(table) && k < |table|
    ensures FindLocation(table, table[k].id) == Some(table[k])
  {
    if k > 0 {
      assert table[0].id != table[k].id;
      assert LocationIdsDistinct(table[1..]) by {
        forall i, j | 0 <= i < j < |table| - 1 ensures table[1..][i].id != table[1..][j].id {
          assert table[i + 1].id != table[j + 1].id;
        }
      }
      FindLocationUnique(table[1..], k - 1);
    }
  }

  lemma {:induction false} FindServiceUnique(table: seq<AdditionalService>, k: nat)
    requires ServiceIdsDistinct(table) && k < |table|
    ensures FindService(table, table[k].id) == Some(table[k])
  {
    if k > 0 {
      assert table[0].id != table[k].id;
      assert ServiceIdsDistinct(table[1..]) by {
        forall i, j | 0 <= i < j < |table| - 1 ensures table[1..][i].id != table[1..][j].id {
          assert table[i + 1].id != table[j + 1].id;
        }
      }
      FindServiceUnique(table[1..], k - 1);
    }
  }

  /** Pairwise distinct ids, non-negative surcharges and positive service prices. */
  predicate TablesWellFormed(t: Tables)
  {
    LocationIdsDistinct(t.locations) && ServiceIdsDistinct(t.services) &&
    (forall i :: 0 <= i < |t.locations| ==> t.locations[i].extraCharge >= 0) &&
    (forall i :: 0 <= i < |t.services| ==> t.services[i].price > 0)
  }

  /** The shipped location rows: distinct ids, no negative surcharge, and the office is free. */
  lemma LocationsWellFormed()
    ensures LocationIdsDistinct(Locations)
    ensures forall i :: 0 <= i < |Locations| ==> Locations[i].extraCharge >= 0
    ensures FindLocation(Locations, "office") == Some(Location("office", "Ofisimizdən götürülmə", 0))
  {
  }

  /** The shipped services: distinct ids and a positive price for each. */
  lemma ServicesWellFormed()
    ensures ServiceIdsDistinct(AdditionalServices)
    ensures forall i :: 0 <= i < |AdditionalServices| ==> AdditionalServices[i].price > 0
  {
  }

  lemma ShippedWellFormed()
    ensures TablesWellFormed(Shipped)
  {
    LocationsWellFormed();
    ServicesWellFormed();
  }

  /** The higher tiers are discounts: a week costs less than seven days, a month less than thirty. */
  predicate TiersAreDiscounts(c: Car)
  {
    0 <= c.dailyPrice && c.weeklyPrice < 7 * c.dailyPrice && c.monthlyPrice < 30 * c.dailyPrice
  }

  /** Every shipped car has distinct id, non-negative prices and deposit, and discounted tiers. */
  lemma CarsWellFormed()
    ensures forall i, j :: 0 <= i < j < |Cars| ==> Cars[i].id != Cars[j].id
    ensures forall i :: 0 <= i < |Cars| ==> TiersAreDiscounts(Cars[i])
    ensures forall i :: 0 <= i < |Cars| ==> Cars[i].weeklyPrice >= 0 && Cars[i].monthlyPrice >= 0
    ensures forall i :: 0 <= i < |Cars| ==> Cars[i].deposit >= 0
  {
  }

  /** The Hyundai Elantra's rate card. */
  lemma HyundaiRateCard()
    ensures Cars[0].brand == "Hyundai" && Cars[0].model == "Elantra"
    ensures Cars[0].dailyPrice == 45 && Cars[0].weeklyPrice == 280
    ensures Cars[0].monthlyPrice == 1100 && Cars[0].deposit == 200
  {
  }
}
