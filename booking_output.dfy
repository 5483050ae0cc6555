/**
 * The confirmation view of components/BookingFormOutput.tsx: the name lookups
 * for locations and services, the plain-text confirmation letter that
 * `generateTextOutput` produces, and the `copied` flag of the copy button.
 *
 * The letter is modelled as its list of lines; the text is their join with
 * "\n". The template opens with a line break and closes with indentation, and
 * `trim()` removes exactly those two, since the first line is the fixed title
 * and the last the fixed greeting. The formatted dates and the current time
 * (`toLocaleDateString`, `toLocaleString`) arrive already rendered.
 */
module BookingOutput {
  import opened Js
  import opened Strings
  import opened Catalog
  import BookingForm

  /** The fields of the booking form that the letter prints. */
  datatype BookingFormData = BookingFormData(
    firstName: string,
    lastName: string,
    email: string,
    phone: string,
    pickupDate: string,
    dropoffDate: string,
    pickupLocation: string,
    dropoffLocation: string,
    additionalServices: seq<string>,
    paymentMethod: string,
    specialRequests: Option<string>)

  /** The strings `formatDate` and `new Date().toLocaleString()` produce. */
  datatype Rendering = Rendering(now: string, pickupText: string, dropoffText: string)

  /** `location?.name || locationId`. */
  function GetLocationName(table: seq<Location>, id: string): (r: string)
    ensures (forall i :: 0 <= i < |table| ==> table[i].id != id) ==> r == id
    ensures r == id || exists i :: 0 <= i < |table| && table[i].id == id && table[i].name == r != ""
    ensures forall k :: 0 <= k < |table| && table[k].id == id && (forall j :: 0 <= j < k ==> table[j].id != id) ==>
      r == (if table[k].name != "" then table[k].name else id)
  {
    match FindLocation(table, id)
    case Some(l) => if l.name != "" then l.name else id
    case None => id
  }

  /** `service?.name || serviceId`. */
  function GetServiceName(table: seq<AdditionalService>, id: string): (r: string)
    ensures (forall i :: 0 <= i < |table| ==> table[i].id != id) ==> r == id
    ensures r == id || exists i :: 0 <= i < |table| && table[i].id == id && table[i].name == r != ""
    ensures forall k :: 0 <= k < |table| && table[k].id == id && (forall j :: 0 <= j < k ==> table[j].id != id) ==>
      r == (if table[k].name != "" then table[k].name else id)
  {
    match FindService(table, id)
    case Some(s) => if s.name != "" then s.name else id
    case None => id
  }

  /** With distinct ids, a known id with a name shows that name. */
  lemma KnownNamesShown(t: Tables, k: nat, j: nat)
    requires LocationIdsDistinct(t.locations) && ServiceIdsDistinct(t.services)
    requires k < |t.locations| && j < |t.services|
    ensures t.locations[k].name != "" ==> GetLocationName(t.locations, t.locations[k].id) == t.locations[k].name
    ensures t.services[j].name != "" ==> GetServiceName(t.services, t.services[j].id) == t.services[j].name
  {
    FindLocationUnique(t.locations, k);
    FindServiceUnique(t.services, j);
  }

  /** The shipped tables name the airport and the driver service, and echo an unknown id. */
  lemma ShippedNames()
    ensures GetLocationName(Locations, "airport") == "Heydər Əliyev Hava Limanı"
    ensures GetServiceName(AdditionalServices, "driver") == "Şəxsi Sürücü"
    ensures GetLocationName(Locations, "moon") == "moon"
  {
    assert Locations[1].id == "airport";
    assert AdditionalServices[0].id == "driver";
    LocationsWellFormed();
    ServicesWellFormed();
    FindLocationUnique(Locations, 1);
    FindServiceUnique(AdditionalServices, 0);
    assert forall i :: 0 <= i < |Locations| ==> Locations[i].id != "moon";
  }

  const Title := "REZERVASIYA TƏSDIQ MƏKTUBU"
  const ServicesHeader := "ƏLAVƏ XİDMƏTLƏR:"
  const RequestsHeader := "XÜSUSİ İSTƏKLƏR:"
  const Greeting := "Təşəkkür edirik!"

  /** The payment method as the letter words it. */
  function PaymentLabel(paymentMethod: string): (r: string)
    ensures r == "Onlayn ödəniş" <==> paymentMethod == "online"
    ensures r == "Nağd ödəniş" <==> paymentMethod != "online"
  {
    if paymentMethod == "online" then "Onlayn ödəniş" else "Nağd ödəniş"
  }

  /** One `- name` line per selected service id, in order. */
  function ServiceLines(table: seq<AdditionalService>, ids: seq<string>): (r: seq<string>)
    ensures |r| == |ids|
    ensures forall i :: 0 <= i < |ids| ==> r[i] == "- " + GetServiceName(table, ids[i])
  {
    seq(|ids|, i requires 0 <= i < |ids| => "- " + GetServiceName(table, ids[i]))
  }

  /** The services block: a blank line, the header, the items and a blank line; one blank line without services. */
  function ServicesBlock(items: seq<string>): seq<string>
  {
    if |items| > 0 then ["", ServicesHeader] + items + [""] else [""]
  }

  /** The special-requests block, present when the requests are a non-empty string. */
  function RequestsBlock(requests: Option<string>): seq<string>
  {
    if TruthyString(requests) then ["", RequestsHeader, requests.value, ""] else [""]
  }

  /** The values the letter interpolates, with the lookups and labels already made. */
  datatype Letter = Letter(
    confirmation: Option<string>,
    now: string,
    form: BookingFormData,
    car: Option<EnhancedCar>,
    dates: Rendering,
    pickupName: string,
    dropoffName: string,
    serviceLines: seq<string>,
    paymentLabel: string,
    pricing: BookingForm.Pricing)

  /** The letter's values for a form, a car, a breakdown and a confirmation number. */
  function Compose(t: Tables, d: BookingFormData, car: Option<EnhancedCar>, p: BookingForm.Pricing,
                   confirmation: Option<string>, fmt: Rendering): (r: Letter)
    ensures r.form == d && r.car == car && r.pricing == p && r.confirmation == confirmation
    ensures r.paymentLabel == PaymentLabel(d.paymentMethod)
    ensures |r.serviceLines| == |d.additionalServices|
    ensures forall i :: 0 <= i < |r.serviceLines| ==> r.serviceLines[i] == "- " + GetServiceName(t.services, d.additionalServices[i])
  {
    Letter(confirmation, fmt.now, d, car, fmt,
           GetLocationName(t.locations, d.pickupLocation), GetLocationName(t.locations, d.dropoffLocation),
           ServiceLines(t.services, d.additionalServices), PaymentLabel(d.paymentMethod), p)
  }

  /** The confirmation-number line, empty without a confirmation number. */
  function ConfirmationLine(confirmation: Option<string>): (r: string)
    ensures r != "" <==> TruthyString(confirmation)
    ensures TruthyString(confirmation) ==> r == "Təsdiq nömrəsi: " + confirmation.value
  {
    if TruthyString(confirmation) then "Təsdiq nömrəsi: " + confirmation.value else ""
  }

  /** A labelled amount line, present only for a positive amount. */
  function ChargeLine(caption: string, amount: int): (r: string)
    requires caption != ""
    ensures r != "" <==> amount > 0
    ensures amount > 0 ==> r == caption + ": $" + IntToString(amount)
  {
    if amount > 0 then caption + ": $" + IntToString(amount) else ""
  }

  /** Title, confirmation number and date. */
  function Intro(f: Letter): (r: seq<string>)
    ensures |r| == 4 && r[0] == Title && r[1] == ConfirmationLine(f.confirmation)
  {
    [Title, ConfirmationLine(f.confirmation), "Tarix: " + f.now, ""]
  }

  function Personal(f: Letter): (r: seq<string>)
    ensures |r| == 5
  {
    [ "ŞƏXSI MƏLUMATLAR:",
      "Ad Soyad: " + f.form.firstName + " " + f.form.lastName,
      "E-mail: " + f.form.email,
      "Telefon: " + f.form.phone,
      "" ]
  }

  /** The car lines: its title and four details, or "Seçilməyib" and four empty lines. */
  function CarSection(car: Option<EnhancedCar>): (r: seq<string>)
    ensures |r| == 7
  {
    match car
    case Some(c) =>
      [ "AVTOMOBIL MƏLUMATLARI:",
        c.brand + " " + c.model + " (" + IntToString(c.year) + ")",
        "Sinif: " + c.carClass,
        "Yanacaq: " + c.fuelType,
        "Transmissiya: " + c.transmission,
        "Oturacaq sayı: " + IntToString(c.seats),
        "" ]
    case None => ["AVTOMOBIL MƏLUMATLARI:", "Seçilməyib", "", "", "", "", ""]
  }

  function Rental(f: Letter): (r: seq<string>)
    ensures |r| == 7
  {
    [ "İCARƏ TƏFƏRRÜATLARİ:",
      "Götürülmə tarixi: " + f.dates.pickupText,
      "Qaytarılma tarixi: " + f.dates.dropoffText,
      "Götürülmə yeri: " + f.pickupName,
      "Qaytarılma yeri: " + f.dropoffName,
      "İcarə müddəti: " + IntToString(f.pricing.days) + " gün",
      "" ]
  }

  /** The first 23 lines: title, confirmation number, date, personal data, car and rental details. */
  function Head(f: Letter): (r: seq<string>)
    ensures |r| == 23 && r[0] == Title && r[1] == ConfirmationLine(f.confirmation)
  {
    Intro(f) + Personal(f) + CarSection(f.car) + Rental(f)
  }

  /** The payment section: the method, the base price, the two optional charges, total and deposit. */
  function Payment(f: Letter): (r: seq<string>)
    ensures |r| == 9 && r[0] == ""
    ensures r[2] == "Ödəniş üsulu: " + f.paymentLabel
    ensures r[4] == ChargeLine("Məkan dəyişikliyi", f.pricing.locationCharges)
    ensures r[5] == ChargeLine("Əlavə xidmətlər", f.pricing.serviceCharges)
    ensures r[6] == "Ümumi məbləğ: $" + IntToString(f.pricing.total)
  {
    var p := f.pricing;
    [ "",
      "ÖDƏNIŞ MƏLUMATLARI:",
      "Ödəniş üsulu: " + f.paymentLabel,
      "Əsas qiymət: $" + IntToString(p.basePrice),
      ChargeLine("Məkan dəyişikliyi", p.locationCharges),
      ChargeLine("Əlavə xidmətlər", p.serviceCharges),
      "Ümumi məbləğ: $" + IntToString(p.total),
      "Depozit: $" + IntToString(p.deposit),
      "" ]
  }

  const Footer := ["", "Ram Servis Car Rental", Greeting]

  /** The order of the letter's parts: head, services block, payment section, requests block, footer. */
  function Layout(head: seq<string>, items: seq<string>, pay: seq<string>, requests: Option<string>): seq<string>
  {
    head + ServicesBlock(items) + pay + RequestsBlock(requests) + Footer
  }

  /** How many lines the services block takes: one, or one per service plus three. */
  function ServicesLength(items: seq<string>): nat
  {
    if |items| > 0 then |items| + 3 else 1
  }

  /** Where each part of the letter sits, for a head of 23 lines and a payment section of 9. */
  lemma LayoutPositions(head: seq<string>, items: seq<string>, pay: seq<string>, requests: Option<string>)
    requires |head| == 23 && |pay| == 9 && pay[0] == ""
    ensures var ls := Layout(head, items, pay, requests);
      var o := 23 + ServicesLength(items);
      |ls| == 36 + ServicesLength(items) + (if TruthyString(requests) then 3 else 0) &&
      ls[..23] == head && ls[|ls| - 1] == Greeting &&
      (ls[24] == ServicesHeader <==> |items| > 0) &&
      (forall i :: 0 <= i < |items| ==> ls[25 + i] == items[i]) &&
      ls[o..o + 9] == pay &&
      (ls[o + 10] == RequestsHeader <==> TruthyString(requests)) &&
      (TruthyString(requests) ==> ls[o + 11] == requests.value)
  {
    var ls := Layout(head, items, pay, requests);
    var block := ServicesBlock(items);
    var req := RequestsBlock(requests);
    var o := 23 + ServicesLength(items);
    assert |block| == ServicesLength(items);
    assert ls == head + block + pay + req + Footer;
    assert ls[..23] == head;
    assert ls[o..o + 9] == pay;
    if |items| > 0 {
      assert ls[24] == block[1];
      forall i | 0 <= i < |items| ensures ls[25 + i] == items[i] {
        assert ls[25 + i] == block[2 + i];
      }
    } else {
      assert ls[24] == pay[0] == "";
    }
    if TruthyString(requests) {
      assert ls[o + 10] == req[1] && ls[o + 11] == req[2];
    } else {
      assert ls[o + 10] == Footer[0] == "";
    }
  }

  /** The lines of the letter, before joining. */
  function Render(f: Letter): seq<string>
  {
    Layout(Head(f), f.serviceLines, Payment(f), f.form.specialRequests)
  }

  /** `generateTextOutput()`. */
  function TextOutput(t: Tables, d: BookingFormData, car: Option<EnhancedCar>, p: BookingForm.Pricing,
                      confirmation: Option<string>, fmt: Rendering): string
  {
    Join(Render(Compose(t, d, car, p, confirmation, fmt)), "\n")
  }

  /**
   * The letter opens with the title, then the confirmation line (non-empty
   * exactly when a confirmation number is given), and closes with the greeting.
   */
  lemma LetterFrame(f: Letter)
    ensures var ls := Render(f);
      |ls| == 36 + ServicesLength(f.serviceLines) + (if TruthyString(f.form.specialRequests) then 3 else 0) &&
      ls[0] == Title && ls[|ls| - 1] == Greeting &&
      ls[1] == ConfirmationLine(f.confirmation)
  {
    var head := Head(f);
    LayoutPositions(head, f.serviceLines, Payment(f), f.form.specialRequests);
    var ls := Render(f);
    assert ls[0] == ls[..23][0] && ls[1] == ls[..23][1];
  }

  /**
   * The services header stands at line 24 exactly when the letter has service
   * lines, which follow it in order.
   */
  lemma ServicesShown(f: Letter)
    ensures var ls := Render(f);
      var items := f.serviceLines;
      |ls| > 25 + |items| &&
      (ls[24] == ServicesHeader <==> |items| > 0) &&
      (forall i :: 0 <= i < |items| ==> ls[25 + i] == items[i])
  {
    LayoutPositions(Head(f), f.serviceLines, Payment(f), f.form.specialRequests);
  }

  /**
   * The payment section starts after the services block: the method line, the
   * two charge lines (each non-empty exactly when its charge is positive) and the total.
   */
  lemma PaymentShown(f: Letter)
    ensures var ls := Render(f);
      var o := 23 + ServicesLength(f.serviceLines);
      var p := f.pricing;
      |ls| > o + 8 &&
      ls[o + 2] == "Ödəniş üsulu: " + f.paymentLabel &&
      ls[o + 4] == ChargeLine("Məkan dəyişikliyi", p.locationCharges) &&
      ls[o + 5] == ChargeLine("Əlavə xidmətlər", p.serviceCharges) &&
      ls[o + 6] == "Ümumi məbləğ: $" + IntToString(p.total)
  {
    var pay := Payment(f);
    LayoutPositions(Head(f), f.serviceLines, pay, f.form.specialRequests);
    var ls := Render(f);
    var o := 23 + ServicesLength(f.serviceLines);
    assert ls[o + 2] == ls[o..o + 9][2] && ls[o + 4] == ls[o..o + 9][4];
    assert ls[o + 5] == ls[o..o + 9][5] && ls[o + 6] == ls[o..o + 9][6];
  }

  /** The requests header follows the payment section exactly when requests were written, then the requests text. */
  lemma RequestsShown(f: Letter)
    ensures var ls := Render(f);
      var o := 33 + ServicesLength(f.serviceLines);
      var req := f.form.specialRequests;
      |ls| > o + 1 &&
      (ls[o] == RequestsHeader <==> TruthyString(req)) &&
      (TruthyString(req) ==> ls[o + 1] == req.value)
  {
    LayoutPositions(Head(f), f.serviceLines, Payment(f), f.form.specialRequests);
  }

  /** The letter of a booking lists the chosen services by name and words the payment method. */
  lemma LetterOfBooking(t: Tables, d: BookingFormData, car: Option<EnhancedCar>, p: BookingForm.Pricing,
                        confirmation: Option<string>, fmt: Rendering)
    ensures var ls := Render(Compose(t, d, car, p, confirmation, fmt));
      var ids := d.additionalServices;
      var o := 23 + ServicesLength(ids);
      |ls| > o + 8 && |ls| > 25 + |ids| &&
      (ls[24] == ServicesHeader <==> |ids| > 0) &&
      (forall i :: 0 <= i < |ids| ==> ls[25 + i] == "- " + GetServiceName(t.services, ids[i])) &&
      ls[o + 2] == "Ödəniş üsulu: " + PaymentLabel(d.paymentMethod)
  {
    var f := Compose(t, d, car, p, confirmation, fmt);
    ServicesShown(f);
    PaymentShown(f);
  }

  /** The copy button's state: `copied` is set after a successful clipboard write and cleared by the timer. */
  class Output {
    const tables: Tables
    const formData: BookingFormData
    const car: Option<EnhancedCar>
    const pricing: BookingForm.Pricing
    const confirmation: Option<string>
    var copied: bool

    constructor(tables: Tables, formData: BookingFormData, car: Option<EnhancedCar>,
                pricing: BookingForm.Pricing, confirmation: Option<string>)
      ensures this.tables == tables && this.formData == formData && this.car == car
      ensures this.pricing == pricing && this.confirmation == confirmation
      ensures !copied
    {
      this.tables := tables;
      this.formData := formData;
      this.car := car;
      this.pricing := pricing;
      this.confirmation := confirmation;
      copied := false;
    }

    /**
     * `copyToClipboard`: the letter is handed to the clipboard, whose success
     * is a parameter; only a successful write sets `copied`, a failure is logged.
     */
    method CopyToClipboard(fmt: Rendering, writeSucceeds: bool) returns (text: string)
      modifies this
      ensures text == TextOutput(tables, formData, car, pricing, confirmation, fmt)
      ensures copied == (writeSucceeds || old(copied))
    {
      text := TextOutput(tables, formData, car, pricing, confirmation, fmt);
      if writeSucceeds {
        copied := true;
      }
    }

    /** The two-second timer started by a successful copy. */
    method CopiedTimeout()
      modifies this
      ensures !copied
    {
      copied := false;
    }
  }
}
