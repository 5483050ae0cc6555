/**
 * The car detail page of components/CarDetailPageContent.tsx: the language it
 * shows (a saved choice is adopted only when it is supported), the three
 * localisation lookups that fall back to the raw value, the image list handed to
 * the gallery, and the gallery's own index with wrap-around. `localStorage` is a
 * field holding the saved language.
 */
module CarDetail {
  import opened Js
  import opened Catalog

  const SupportedLanguages: seq<string> := ["az", "en", "ru", "ar"]

  /** `car.images && car.images.length > 0 ? car.images : [car.image]`. */
  function GalleryImages(car: Car): (r: seq<string>)
    ensures |r| > 0
    ensures car.images.Some? && |car.images.value| > 0 ==> r == car.images.value
    ensures !(car.images.Some? && |car.images.value| > 0) ==> r == [car.image]
  {
    if car.images.Some? && |car.images.value| > 0 then car.images.value else [car.image]
  }

  /** Translations by raw value, then by language. */
  type Localisation = map<string, map<string, string>>

  const ClassMap: Localisation := map[
    "Ekonom" := map["az" := "Ekonom", "en" := "Economy", "ru" := "Эконом", "ar" := "اقتصادي"],
    "Biznes" := map["az" := "Biznes", "en" := "Business", "ru" := "Бизнес", "ar" := "أعمال"],
    "Premium" := map["az" := "Premium", "en" := "Premium", "ru" := "Премиум", "ar" := "بريميوم"],
    "Lüks" := map["az" := "Lüks", "en" := "Luxury", "ru" := "Люкс", "ar" := "فاخر"],
    "Komfort" := map["az" := "Komfort", "en" := "Comfort", "ru" := "Комфорт", "ar" := "مريح"],
    "SUV" := map["az" := "SUV", "en" := "SUV", "ru" := "Внедорожник", "ar" := "دفع رباعي"]
  ]

  const FuelMap: Localisation := map[
    "Benzin" := map["az" := "Benzin", "en" := "Gasoline", "ru" := "Бензин", "ar" := "بنزين"],
    "Dizel" := map["az" := "Dizel", "en" := "Diesel", "ru" := "Дизель", "ar" := "ديزل"],
    "Hybrid" := map["az" := "Hibrid", "en" := "Hybrid", "ru" := "Гибрид", "ar" := "هجين"]
  ]

  const TransmissionMap: Localisation := map[
    "Avtomat" := map["az" := "Avtomat", "en" := "Automatic", "ru" := "Автомат", "ar" := "أوتوماتيك"],
    "Mexanika" := map["az" := "Mexanika", "en" := "Manual", "ru" := "Механика", "ar" := "يدوي"]
  ]

  /** `table[value]?.[lang] || value`. */
  function Localize(table: Localisation, value: string, lang: string): (r: string)
    ensures value !in table ==> r == value
    ensures value in table && lang !in table[value] ==> r == value
    ensures value in table && lang in table[value] && table[value][lang] != "" ==> r == table[value][lang]
    ensures r == value || (value in table && lang in table[value] && r == table[value][lang])
  {
    if value in table && lang in table[value] && table[value][lang] != "" then table[value][lang] else value
  }

  /** Every raw value of a table is translated, non-empty, into every supported language. */
  predicate Complete(table: Localisation)
  {
    forall v, l :: v in table && l in SupportedLanguages ==> l in table[v] && table[v][l] != ""
  }

  lemma ShippedTablesComplete()
    ensures Complete(ClassMap) && Complete(FuelMap) && Complete(TransmissionMap)
  {
    forall v, l | v in ClassMap && l in SupportedLanguages ensures l in ClassMap[v] && ClassMap[v][l] != "" {
      assert v in {"Ekonom", "Biznes", "Premium", "Lüks", "Komfort", "SUV"};
    }
    forall v, l | v in FuelMap && l in SupportedLanguages ensures l in FuelMap[v] && FuelMap[v][l] != "" {
      assert v in {"Benzin", "Dizel", "Hybrid"};
    }
    forall v, l | v in TransmissionMap && l in SupportedLanguages
      ensures l in TransmissionMap[v] && TransmissionMap[v][l] != ""
    {
      assert v in {"Avtomat", "Mexanika"};
    }
  }

  /** With a complete table a known value is always translated in a supported language, and anything else is shown raw. */
  lemma LocalizeComplete(table: Localisation, value: string, lang: string)
    requires Complete(table)
    ensures value in table && lang in SupportedLanguages ==> Localize(table, value, lang) == table[value][lang]
    ensures value !in table ==> Localize(table, value, lang) == value
  {
  }

  function LocalizedCarClass(carClass: string, lang: string): string
  {
    Localize(ClassMap, carClass, lang)
  }

  function LocalizedFuelType(fuelType: string, lang: string): string
  {
    Localize(FuelMap, fuelType, lang)
  }

  function LocalizedTransmission(transmission: string, lang: string): string
  {
    Localize(TransmissionMap, transmission, lang)
  }

  /** A few of the shipped translations, and the raw fall-back for an unknown value or language. */
  lemma LocalizationSamples()
    ensures LocalizedCarClass("Lüks", "en") == "Luxury"
    ensures LocalizedFuelType("Hybrid", "az") == "Hibrid"
    ensures LocalizedTransmission("Mexanika", "en") == "Manual"
    ensures LocalizedCarClass("Sport", "en") == "Sport"
    ensures LocalizedFuelType("Dizel", "de") == "Dizel"
  {
  }

  /** The page's language state and the saved choice in storage. */
  class Page {
    var currentLang: string
    var savedLanguage: Option<string>

    constructor(initialLang: string, savedLanguage: Option<string>)
      ensures currentLang == initialLang && this.savedLanguage == savedLanguage
    {
      currentLang := initialLang;
      this.savedLanguage := savedLanguage;
    }

    /** The mount effect: a saved language replaces the initial one only when it is supported. */
    method AdoptSavedLanguage()
      modifies this
      ensures TruthyString(savedLanguage) && savedLanguage.value in SupportedLanguages ==>
        currentLang == savedLanguage.value
      ensures !(TruthyString(savedLanguage) && savedLanguage.value in SupportedLanguages) ==>
        currentLang == old(currentLang)
      ensures savedLanguage == old(savedLanguage)
    {
      var saved := savedLanguage;
      if TruthyString(saved) && saved.value in SupportedLanguages {
        currentLang := saved.value;
      }
    }

    /** `handleLanguageChange`: show the language and save it. */
    method HandleLanguageChange(lang: string)
      modifies this
      ensures currentLang == lang && savedLanguage == Some(lang)
    {
      currentLang := lang;
      savedLanguage := Some(lang);
    }
  }

  /** A supported language chosen on one visit is the language of the next visit, whatever its initial language. */
  method ChoiceSurvivesReload(lang: string, initialLang: string) returns (next: Page)
    requires lang in SupportedLanguages
    ensures next.currentLang == lang
  {
    var first := new Page(initialLang, None);
    first.HandleLanguageChange(lang);
    next := new Page(initialLang, first.savedLanguage);
    next.AdoptSavedLanguage();
  }

  /** The gallery's index over a non-empty image list. */
  class Gallery {
    const images: seq<string>
    var index: int

    predicate Valid()
      reads this
    {
      |images| > 0 && 0 <= index < |images|
    }

    constructor(images: seq<string>)
      requires |images| > 0
      ensures this.images == images && index == 0 && Valid()
    {
      this.images := images;
      index := 0;
    }

    /** `(i + 1) % images.length`. */
    method Next()
      requires Valid()
      modifies this
      ensures Valid()
      ensures index == Rem(old(index) + 1, |images|)
      ensures old(index) == |images| - 1 ==> index == 0
      ensures old(index) < |images| - 1 ==> index == old(index) + 1
    {
      RemSelf(|images|);
      index := Rem(index + 1, |images|);
    }

    /** `(i - 1 + images.length) % images.length`. */
    method Prev()
      requires Valid()
      modifies this
      ensures Valid()
      ensures index == Rem(old(index) - 1 + |images|, |images|)
      ensures old(index) == 0 ==> index == |images| - 1
      ensures old(index) > 0 ==> index == old(index) - 1
    {
      if index > 0 {
        RemShift(index - 1, |images|);
      }
      index := Rem(index - 1 + |images|, |images|);
    }

    /** A thumbnail click: `setIndex(i)`. */
    method Select(i: int)
      requires Valid() && 0 <= i < |images|
      modifies this
      ensures Valid() && index == i
    {
      index := i;
    }

    /** The main picture. */
    function Shown(): string
      reads this
      requires Valid()
    {
      images[index]
    }
  }

  /** Previous after next, and next after previous, return to the same image. */
  lemma GalleryRoundTrip(i: int, n: int)
    requires 0 <= i < n
    ensures Rem(Rem(i + 1, n) - 1 + n, n) == i
    ensures Rem(Rem(i - 1 + n, n) + 1, n) == i
  {
    if i + 1 < n {
      RemShift(i, n);
    } else {
      RemSelf(n);
    }
    if i > 0 {
      RemShift(i - 1, n);
    } else {
      RemSelf(n);
    }
  }

  /** With a single image both buttons keep showing it. */
  method SingleImageFixed(img: string) returns (g: Gallery)
    ensures g.Valid() && g.index == 0
  {
    g := new Gallery([img]);
    g.Next();
    g.Prev();
  }
}
