# R.A.M Servis car rental — a Dafny model of its booking and catalog logic

This project models the client-side logic of the R.A.M Servis car-rental web site, a Next.js/React application. It covers:

- **The online booking form.** The price breakdown (month, week and day tiers, location surcharges, add-ons per day) and the four-step wizard with its step guards. Also the submit pipeline: it appends a pending booking, tries the e-mail receipts, hands an online payment over to WhatsApp, shows an alert and resets the form.
- **The catalog tables** the form reads: cars, pick-up locations and additional services, with their rate cards and charges.
- **The car list page and its filter panel.** Search, price, year and class filters; the four sort orders; the derived price and year bounds, class list and year options; the `__all__` sentinel of the selects.
- **Small builders and pipelines.**
  - The quick booking bar's query string.
  - The plain-text booking confirmation letter and its copy button.
  - The favourites list: filter, sort, `maxItems` cut and "View All".
  - The similar-cars recommender: score, sort, cut and its two-card slider.
  - The "other cars" section.
- **Index state machines.**
  - The Google-reviews carousel.
  - The main image viewer of the gallery: keyboard, zoom, fallback images and retries.
  - The car detail page's gallery and language choice.
- **Image helpers.**
  - The `OptimizedImage` wrapper's fallback.
  - The image helpers of `lib/image-utils.ts` and `lib/image-optimization.ts`.
  - The device tiers of the performance hook.
- **The form-state persistence script** over its in-memory `localStorage` stand-in.

Each module is one Dafny file:

- `js.dfy` models JavaScript's truncating `%`, `Array.prototype.slice` and truthiness.
- `strings.dfy`: substring search, ASCII lower-casing, number formatting and parsing, and the order `localeCompare` is taken to be.
- `sequences.dfy`: `filter`, a stable sort and `Array.from(new Set(...))`.

The other files follow the source components one for one:

| file | component |
|---|---|
| `catalog.dfy` | `lib/data.ts` |
| `booking_form.dfy` | `OnlineBookingForm.tsx` |
| `cars_filters.dfy`, `cars_page.dfy` | `CarsFilters.tsx`, `app/cars/page.tsx` |
| `booking_bar.dfy` | `BookingBar.tsx` |
| `booking_output.dfy` | `BookingFormOutput.tsx` |
| `favorites.dfy` | `FavoritesManager.tsx` |
| `similar_cars.dfy` | `SimilarCars.tsx` |
| `other_cars.dfy` | `OtherCarsSection.tsx` |
| `google_reviews.dfy` | `GoogleReviews.tsx` |
| `image_viewer.dfy` | `MainImageViewer.tsx` |
| `car_detail.dfy` | `CarDetailPageContent.tsx` |
| `optimized_image.dfy` | `OptimizedImage.tsx` |
| `image_utils.dfy` | `lib/image-utils.ts` |
| `image_optimization.dfy` | `lib/image-optimization.ts` |
| `performance.dfy` | `hooks/use-performance.ts` |
| `form_persistence.dfy` | `lib/validate-form-persistence.js` |

Components whose state changes are classes:

- `BookingForm.Form`
- `CarsPage.Page`
- `BookingOutput.Output`
- `SimilarCars.Slides`
- `GoogleReviews.Carousel`
- `ImageViewer.Viewer`
- `CarDetail.Page`
- `CarDetail.Gallery`
- `OptimizedImage.Image`
- `FormPersistence.LocalStorageMock`

Their handlers are methods with `modifies` clauses that state the whole new state. Computations are functions, and the properties the site relies on are lemmas.

Conventions:

- **Dates** are day numbers (`DateField = NoDate | Day(n)`), so a rental spans `dropoff - pickup` days.
- **Clock readings** are parameters, and so is the outcome of any browser or network call (whether an image loads, whether the e-mail call throws, whether the clipboard write succeeds).
- **The shipped catalog.** `Catalog.Cars` holds the detailed rows of `lib/data.ts`. The component-level catalog (`enhancedCars`) is a parameter, since its file is not part of this model.

Three behaviours of the code worth knowing, modelled as written:

- **Stale breakdown.** For spans under two days the booking form keeps the previous breakdown rather than zeroing it. `BookingForm.StaleBreakdownPassesStepTwo` shows a one-day span that passes step 2 with the stale three-day breakdown.
- **Non-monotone total.** For the Hyundai, 29 days cost more than 30 (`BookingForm.TotalNotMonotoneInDays`).
- **No re-validation on submit.** `handleSubmit` only checks the step and the car. It does not re-validate the form; only the disabled submit button does.

## Model

| member | source | states |
|---|---|---|
| Js.Rem | components/GoogleReviews.tsx:76 | JavaScript's `%` truncates toward zero: non-negative and below the divisor for a non-negative dividend, non-positive and above minus the divisor for a negative one, the dividend itself when already in range |
| Js.RemIsMod | components/GoogleReviews.tsx:76 | `%` equals Dafny's Euclidean `%` on non-negative dividends and is the negated remainder of the magnitude on negative ones |
| Js.ClampIndex | components/GoogleReviews.tsx:47 | a `slice` bound is clamped into `[0, len]`, a negative bound counting from the end |
| Js.Slice | components/GoogleReviews.tsx:47 | `slice(start, end)` has length `max(0, end' - start')` for the clamped bounds and holds the elements from `start'` on |
| Js.SlicePrefix | components/dynamic/FavoritesManager.tsx:81 | `slice(0, n)` is the prefix up to the clamped `n`, of length `min(n, len)` for `n >= 0` |
| Strings.IncludesAt | app/cars/page.tsx:95 | `includes` holds exactly when the needle occurs at some index |
| Strings.IncludesPrefix | app/cars/page.tsx:95 | every prefix of a text is included in it |
| Strings.ToLower | app/cars/page.tsx:95 | lower-casing keeps the length and maps each character, `A`–`Z` to `a`–`z`, the rest unchanged |
| Strings.ToLowerIdempotent | app/cars/page.tsx:95 | lower-casing twice is lower-casing once |
| Strings.IntToString | lib/image-utils.ts:170 | a number prints as its decimal digits, with a minus sign when negative |
| Strings.NatToString | lib/image-utils.ts:170 | the digits are all decimal digits with no leading zero |
| Strings.ParseNat | lib/image-utils.ts:170 | a text parses exactly when it is a non-empty run of digits |
| Strings.ParseNatToString | lib/image-utils.ts:170 | parsing the printed number gives the number back |
| Strings.LexLeqTotal | components/dynamic/FavoritesManager.tsx:65 | the string order used for `localeCompare` is total |
| Strings.LexLeqTransitive | components/dynamic/FavoritesManager.tsx:65 | and transitive |
| Sequences.Filter | app/cars/page.tsx:92-101 | `filter` keeps exactly the elements satisfying the test and never adds occurrences |
| Sequences.FilterKeepsAll | components/dynamic/FavoritesManager.tsx:53-59 | a test every element passes keeps the whole list |
| Sequences.FilterIsSubsequence | components/OtherCarsSection.tsx:37-40 | `filter` keeps the relative order of the input |
| Sequences.SortBy | app/cars/page.tsx:102-115 | sorting is a permutation of its input |
| Sequences.SortBySorted | app/cars/page.tsx:102-115 | with a total preorder as comparator the sorted list is ordered and a permutation |
| Sequences.SortedSplit | components/dynamic/SimilarCars.tsx:60-61 | cutting an ordered list leaves a head and a tail that make up the list, every head element ordered before every tail element |
| Sequences.Distinct | components/CarsFilters.tsx:50 | `Array.from(new Set(xs))` holds exactly the values of `xs` |
| Sequences.DistinctFirstSeen | components/CarsFilters.tsx:50 | each value once, ordered by where it first occurs |
| Sequences.FirstIndex | components/CarsFilters.tsx:50 | the first position of a value: it is there and nowhere before |
| Catalog.FindLocation | components/OnlineBookingForm.tsx:89-91 | `locations.find` returns a row with the id, or nothing exactly when no row has it |
| Catalog.FindService | components/OnlineBookingForm.tsx:94-97 | `additionalServices.find` likewise |
| Catalog.FindLocationUnique | lib/data.ts:216-222 | with distinct ids the lookup of a row's id finds that row |
| Catalog.FindServiceUnique | lib/data.ts:224-249 | the same for services |
| Catalog.LocationsWellFormed | lib/data.ts:216-222 | location ids are distinct, every surcharge is non-negative and the office costs nothing |
| Catalog.ServicesWellFormed | lib/data.ts:224-249 | service ids are distinct and every price is positive |
| Catalog.ShippedWellFormed | lib/data.ts:216-249 | the shipped tables meet both requirements |
| Catalog.CarsWellFormed | lib/data.ts:39-214 | car ids are distinct, the weekly and monthly rates are discounts on 7 and 30 daily rates, and no rate or deposit is negative |
| Catalog.HyundaiRateCard | lib/data.ts:40-53 | the Hyundai Elantra costs 45 a day, 280 a week, 1100 a month, with a 200 deposit |
| BookingForm.Breakdown | components/OnlineBookingForm.tsx:99-108 | a written breakdown carries the span and the car's deposit, and its total is base plus location plus service charges |
| BookingForm.PricingEffect | components/OnlineBookingForm.tsx:64-111 | with both dates, a span of at least 2 days and a car the breakdown is recomputed for the current span; otherwise the previous breakdown stays exactly as it was |
| BookingForm.PricingEffectIdempotent | components/OnlineBookingForm.tsx:64-111 | running the effect again changes nothing |
| BookingForm.PricingEffectConsistent | components/OnlineBookingForm.tsx:52-59 | a breakdown that is the initial one or a written one stays so |
| BookingForm.BasePriceTiers | components/OnlineBookingForm.tsx:76-86 | under 7 days the base is days times the daily rate; when the tiers are discounts, the base never exceeds the daily-rate price and from 7 days on is strictly below it |
| BookingForm.TotalNotMonotoneInDays | components/OnlineBookingForm.tsx:76-86 | the base price is not monotone in days: the Hyundai costs 1165 for 29 days and 1100 for 30 |
| BookingForm.LocationChargeLookup | components/OnlineBookingForm.tsx:89-91 | an unknown or empty location adds 0, a known one its surcharge, and no charge is negative |
| BookingForm.ShippedLocationCharges | components/OnlineBookingForm.tsx:89-91 | no location and the office add 0, the airport 25 |
| BookingForm.ServiceChargeLookup | components/OnlineBookingForm.tsx:94-97 | an unknown service adds 0 and a known one its price times the days |
| BookingForm.ServiceChargesAppend | components/OnlineBookingForm.tsx:94-97 | one more add-on adds exactly its own charge |
| BookingForm.ServiceChargesRemove | components/OnlineBookingForm.tsx:117-124 | removing an id removes its charge once per occurrence |
| BookingForm.ServiceChargesNonNegative | components/OnlineBookingForm.tsx:94-97 | add-on charges are never negative for a non-negative span |
| BookingForm.BreakdownNonNegative | components/OnlineBookingForm.tsx:76-108 | with non-negative rates every part of the breakdown is non-negative and the total is at least the base |
| BookingForm.SetField | components/OnlineBookingForm.tsx:113-115 | an input change sets the named field and leaves every other field as it was |
| BookingForm.ToggleService | components/OnlineBookingForm.tsx:117-124 | checking appends the id at the end; unchecking removes every occurrence and keeps the other ids in order |
| BookingForm.ToggleServiceCharges | components/OnlineBookingForm.tsx:117-124 | the add-on charges move by exactly the toggled service's charge, once per removed occurrence |
| BookingForm.FormValidIsSteps | components/OnlineBookingForm.tsx:201-219 | the form is valid iff steps 1 and 2 are; step 4 is valid iff the form is; any step outside 1..4 is invalid |
| BookingForm.StepTwoReadsCurrentSpan | components/OnlineBookingForm.tsx:205-219 | after a recomputation step 2 reads the current span and passes once both locations are set |
| BookingForm.StaleBreakdownPassesStepTwo | components/OnlineBookingForm.tsx:64-111 | shortening a 3-day rental to 1 day keeps the 3-day breakdown, and step 2 still passes |
| BookingForm.ServiceNamesOrEmpty | components/OnlineBookingForm.tsx:141-143 | each chosen id becomes its service name, or empty when unknown |
| BookingForm.KnownServiceNames | components/OnlineBookingForm.tsx:169 | the names kept for the e-mail are the non-empty ones |
| BookingForm.ServicesSummary | components/OnlineBookingForm.tsx:169 | the names joined by `, `, or `Yoxdur` when none is known |
| BookingForm.LocationNameOrEmpty | components/OnlineBookingForm.tsx:139-140 | an unknown location id gives the empty name, a known one the name of its first row |
| BookingForm.NewBooking | components/OnlineBookingForm.tsx:132-155 | the stored record is pending and carries the car's title, the customer's name and contacts, both dates, the two location names (empty when unknown), the service names in order (empty when unknown), the breakdown, the payment method, and the clock reading as id and creation time |
| BookingForm.SubmitEvents | components/OnlineBookingForm.tsx:160-183 | the e-mail attempt comes first and the alert last; a failure is only logged; the WhatsApp hand-off appears iff the payment is online |
| BookingForm.Form.constructor | components/OnlineBookingForm.tsx:39-61 | the form starts empty at step 1 with the initial breakdown, over the stored bookings |
| BookingForm.Form.RunPricingEffect | components/OnlineBookingForm.tsx:64-111 | the breakdown becomes the effect's result and nothing else changes |
| BookingForm.Form.HandleInputChange | components/OnlineBookingForm.tsx:113-115 | only the named field changes, then the breakdown follows the effect |
| BookingForm.Form.HandleServiceChange | components/OnlineBookingForm.tsx:117-124 | only the add-on list changes, by the toggle, then the breakdown follows the effect |
| BookingForm.Form.NextStep | components/OnlineBookingForm.tsx:221-223 | the step moves to `min(4, s + 1)` iff the current step is valid, else stays; it stays within 1..4 |
| BookingForm.Form.PrevStep | components/OnlineBookingForm.tsx:224 | the step moves to `max(1, s - 1)` |
| BookingForm.Form.HandleSubmit | components/OnlineBookingForm.tsx:126-199 | nothing happens before step 4 or without a car; otherwise exactly one pending record is appended after the earlier ones, the events are emitted as above, the form and step reset, and the breakdown is left alone |
| CarsFilters.MinOf | components/CarsFilters.tsx:44-48 | `Math.min` is absent only for no values, is below every value and is one of them |
| CarsFilters.MaxOf | components/CarsFilters.tsx:47-49 | `Math.max` likewise from above |
| CarsFilters.DeriveBounds | components/CarsFilters.tsx:43-52 | for a non-empty list every price and year lies within the derived bounds and each bound is attained by some car |
| CarsFilters.ClassesFirstSeen | components/CarsFilters.tsx:50 | the distinct classes list each class of the cars exactly once, in first-seen order |
| CarsFilters.DeriveClasses | components/CarsFilters.tsx:50 | the derived class list does |
| CarsFilters.YearOptions | components/CarsFilters.tsx:103 | the options have length `max - min + 1` (none when negative) and run `max, max - 1, …` |
| CarsFilters.YearOptionsRange | components/CarsFilters.tsx:103 | the options strictly decrease, contain exactly the years of the range and run from `max` to `min` |
| CarsFilters.EveryCarYearOffered | components/CarsFilters.tsx:103 | every car's year is among the options |
| CarsFilters.YearFromSelect | components/CarsFilters.tsx:97 | the sentinel selects no year |
| CarsFilters.ClassFromSelect | components/CarsFilters.tsx:111 | no class is selected exactly for the sentinel |
| CarsFilters.SentinelRoundTrip | components/CarsFilters.tsx:97-111 | the sentinel reads as "no choice", "no choice" shows as the sentinel, and every real year or class reads back as itself |
| CarsPage.PrecedesIsPreorder | app/cars/page.tsx:102-115 | each sort comparator is a total preorder |
| CarsPage.ListedMembers | app/cars/page.tsx:92-115 | a car is listed iff it is in the catalog and passes all four filters, and the list is a permutation of the filtered catalog |
| CarsPage.ListedOrdered | app/cars/page.tsx:102-115 | the list is ordered by the chosen key in the chosen direction |
| CarsPage.EmptyFiltersPassThrough | app/cars/page.tsx:94-99 | an empty search, no year and no class impose nothing; a set year is a lower bound and a set class an exact match |
| CarsPage.SearchIgnoresCase | app/cars/page.tsx:94-95 | the search ignores the case of the query |
| CarsPage.Page.constructor | app/cars/page.tsx:18-23 | the page starts with empty search, the wide price range, no year or class and price-ascending order |
| CarsPage.Page.Initialize | app/cars/page.tsx:84-90 | the first initialisation sets the price range to the catalog's bounds; later ones change nothing |
| CarsPage.Page.PresetClassFromQuery | app/cars/page.tsx:40-44 | a truthy class in the query becomes the class filter |
| CarsPage.Page.SelectYear | components/CarsFilters.tsx:97 | the year select sets the year filter through the sentinel mapping |
| CarsPage.Page.SelectClass | components/CarsFilters.tsx:111 | the class select likewise |
| CarsPage.Page.Reset | app/cars/page.tsx:143-149 | reset restores the empty search, the catalog's price bounds, no year or class and price-ascending order |
| CarsPage.Page.ResetListsEverything | app/cars/page.tsx:143-149 | after a reset every catalog car is listed, cheapest first |
| CarsPage.ShippedCatalogNonEmpty | lib/data.ts:39-214 | the shipped catalog is not empty |
| BookingBar.CarTypesFirstSeen | components/BookingBar.tsx:15-18 | the car types are the catalog's classes, each once, in first-seen order |
| BookingBar.SetPairsMembers | components/BookingBar.tsx:29-34 | every parameter is a key with its set value, and every set key has its parameter |
| BookingBar.HandleSubmit | components/BookingBar.tsx:28-36 | the conditional `set` calls build exactly the query parameters, and the target is `/booking?` and those parameters |
| BookingBar.QueryParamsUnfold | components/BookingBar.tsx:29-34 | the parameters are type, pickup, dropoff, from, to, each present only when set |
| BookingBar.SelectsSetIffTruthy | components/BookingBar.tsx:29-31 | a select's key is sent exactly when the select is truthy |
| BookingBar.KeyPresentIffSet | components/BookingBar.tsx:29-34 | a key is present iff its input is set, and then with that input |
| BookingBar.SetPairsKeysInOrder | components/BookingBar.tsx:29-34 | the keys keep the order of the key list they come from |
| BookingBar.KeysInOrder | components/BookingBar.tsx:29-34 | the keys appear in the order type, pickup, dropoff, from, to |
| BookingBar.ValidSendsTrip | components/BookingBar.tsx:26-34 | a valid bar always sends both locations and both dates |
| BookingOutput.GetLocationName | components/BookingFormOutput.tsx:62-65 | an unknown id is shown as itself; a known one by the name of its first row, or by itself when that name is empty |
| BookingOutput.GetServiceName | components/BookingFormOutput.tsx:67-70 | an unknown service id is shown as itself; a known one by the name of its first row, or by itself when that name is empty |
| BookingOutput.KnownNamesShown | components/BookingFormOutput.tsx:62-70 | with distinct ids a row's id shows that row's name |
| BookingOutput.ShippedNames | components/BookingFormOutput.tsx:62-70 | the airport and the driver show their Azerbaijani names; an unknown id shows as itself |
| BookingOutput.PaymentLabel | components/BookingFormOutput.tsx:132 | `Onlayn ödəniş` iff the method is online, `Nağd ödəniş` otherwise |
| BookingOutput.ServiceLines | components/BookingFormOutput.tsx:126-129 | one `- name` line per chosen id, in order |
| BookingOutput.Compose | components/BookingFormOutput.tsx:101-147 | the letter carries the form, car, breakdown and confirmation unchanged, the payment label and one service line per id |
| BookingOutput.ConfirmationLine | components/BookingFormOutput.tsx:104 | the confirmation line is present iff a confirmation number is given, and then shows it |
| BookingOutput.ChargeLine | components/BookingFormOutput.tsx:134-135 | a charge line is present iff the charge is positive, and then shows the amount |
| BookingOutput.Head | components/BookingFormOutput.tsx:103-124 | the letter opens with the title and the confirmation line, 23 lines before the services |
| BookingOutput.Payment | components/BookingFormOutput.tsx:131-137 | the payment block shows the label, both charge lines and the total |
| BookingOutput.LayoutPositions | components/BookingFormOutput.tsx:101-147 | where each block sits: head, services header iff there are services, each service line, payment block, requests block iff requests are given, greeting last |
| BookingOutput.LetterFrame | components/BookingFormOutput.tsx:101-147 | a letter starts with the title and confirmation line, ends with the greeting and has the stated length |
| BookingOutput.ServicesShown | components/BookingFormOutput.tsx:126-129 | the services header appears iff there are services, followed by their lines |
| BookingOutput.PaymentShown | components/BookingFormOutput.tsx:131-137 | the payment block sits right after the services |
| BookingOutput.RequestsShown | components/BookingFormOutput.tsx:139-142 | the requests block appears iff the requests are non-empty, with their text |
| BookingOutput.LetterOfBooking | components/BookingFormOutput.tsx:101-147 | the rendered letter of a booking lists its services by name and its payment label |
| BookingOutput.Output.constructor | components/BookingFormOutput.tsx:60 | the copy button starts uncopied |
| BookingOutput.Output.CopyToClipboard | components/BookingFormOutput.tsx:90-99 | the generated text is copied, and the flag is raised when the write succeeds |
| BookingOutput.Output.CopiedTimeout | components/BookingFormOutput.tsx:95 | the timer lowers the flag |
| Favorites.PrecedesIsPreorder | components/dynamic/FavoritesManager.tsx:62-79 | each favourites comparator is a total preorder |
| Favorites.SortedFavoritesMembers | components/dynamic/FavoritesManager.tsx:50-59 | before the cut, a car is listed iff it is a catalog favourite passing the filter, never more often than in the catalog |
| Favorites.SortedFavoritesOrdered | components/dynamic/FavoritesManager.tsx:62-79 | the list is ordered by the chosen key |
| Favorites.FavoriteCarsSpec | components/dynamic/FavoritesManager.tsx:49-82 | every shown car is a favourite passing the filter, the list is ordered, and without `maxItems` every such car is shown |
| Favorites.FavoriteCarsLimit | components/dynamic/FavoritesManager.tsx:81 | with a positive `maxItems` the list is the first `maxItems` of the sorted list, without one all of it |
| Favorites.FilterAllKeepsEverything | components/dynamic/FavoritesManager.tsx:53-54 | the filter `all` keeps every favourite |
| Favorites.ViewAllMeansHidden | components/dynamic/FavoritesManager.tsx:213 | "View All" shows only with a positive limit while some favourites are not listed |
| Favorites.ClearAllFavorites | components/dynamic/FavoritesManager.tsx:84-86 | one toggle per favourite id, in order |
| Favorites.EconomyTakesEkonom | components/dynamic/FavoritesManager.tsx:56-57 | the economy filter takes the `Ekonom` category |
| SimilarCars.CommonFeatures | components/dynamic/SimilarCars.tsx:52-53 | the shared features are at most the car's features |
| SimilarCars.ScoreCar | components/dynamic/SimilarCars.tsx:29-56 | the `+=` accumulation computes the similarity score |
| SimilarCars.ScoreBounds | components/dynamic/SimilarCars.tsx:29-56 | a score lies between the popularity bonus and the maximum of every criterion |
| SimilarCars.TwinScoresHighest | components/dynamic/SimilarCars.tsx:29-56 | a car identical in every criterion gets the full score |
| SimilarCars.ScoredCandidates | components/dynamic/SimilarCars.tsx:26-58 | every candidate is another catalog car with its score, and every other catalog car is a candidate |
| SimilarCars.RecommendSpec | components/dynamic/SimilarCars.tsx:25-64 | no recommendation is the current car, every one is in the catalog, there are `min(maxRecommendations, candidates)` of them, in non-increasing score order, and they are the best: with some remainder they make up the candidates exactly, and no car of the remainder outscores a recommended one |
| SimilarCars.RecommendIsTop | components/dynamic/SimilarCars.tsx:59-62 | the recommended cars with their scores are the first `maxRecommendations` of the candidates sorted by falling score |
| SimilarCars.RecommendIsBest | components/dynamic/SimilarCars.tsx:60-62 | the count and the best-of-the-candidates half of `RecommendSpec` |
| SimilarCars.RecommendFromCatalog | components/dynamic/SimilarCars.tsx:26-62 | every recommendation is a catalog car other than the current one |
| SimilarCars.RecommendOrdered | components/dynamic/SimilarCars.tsx:59-62 | the recommendations come in non-increasing score order |
| SimilarCars.RecommendCount | components/dynamic/SimilarCars.tsx:61 | with a non-negative limit there are `min(maxRecommendations, candidates)` recommendations |
| SimilarCars.TopAndRest | components/dynamic/SimilarCars.tsx:60-61 | the first `k` of a list sorted by falling score, with the rest, make up the list, and no element of the rest outscores them |
| SimilarCars.Slides.constructor | components/dynamic/SimilarCars.tsx:21 | the slider starts at 0 |
| SimilarCars.Slides.NextSlide | components/dynamic/SimilarCars.tsx:66-68 | the index moves forward modulo `max(1, n - 1)`, wrapping to 0, and stays in range |
| SimilarCars.Slides.PrevSlide | components/dynamic/SimilarCars.tsx:70-72 | the index moves back modulo the same period, wrapping to the end |
| SimilarCars.Slides.VisibleWindow | components/dynamic/SimilarCars.tsx:78 | at most two cars are visible: the window at the index, or the only car |
| SimilarCars.PrevUndoesNext | components/dynamic/SimilarCars.tsx:66-72 | previous undoes next |
| OtherCars.SliceFromStartIsPrefix | components/OtherCarsSection.tsx:40 | `slice(0, n)` keeps a subsequence |
| OtherCars.FilteredCarsSpec | components/OtherCarsSection.tsx:25-40 | no excluded car is shown, shown cars are in the category, at most `maxCars` (6 by default) are shown, in input order, and a qualifying car is left out only when `maxCars` cars are already shown |
| OtherCars.FilteredCarsComplete | components/OtherCarsSection.tsx:37-40 | when `maxCars` is not negative, a car that is neither excluded nor outside the category is left out only when `maxCars` cars are shown |
| OtherCars.NoCategoryNoFilter | components/OtherCarsSection.tsx:39 | no or an empty category filters nothing |
| OtherCars.CategoryIgnoresCase | components/OtherCarsSection.tsx:39 | the category test ignores case |
| GoogleReviews.Normalize | components/GoogleReviews.tsx:76 | the normalised index is in `[0, len)` for any integer and is the index itself when already in range |
| GoogleReviews.NormalizeIsMod | components/GoogleReviews.tsx:76 | normalisation is the mathematical modulus |
| GoogleReviews.NormalizePeriodic | components/GoogleReviews.tsx:76 | indices a multiple of the length apart normalise alike |
| GoogleReviews.SourceDisplayName | components/GoogleReviews.tsx:117-128 | Google and Facebook get their names, `internal` a localised label, and any other source is shown unchanged |
| GoogleReviews.SourceUnchangedIffUnknown | components/GoogleReviews.tsx:117-128 | a source is shown unchanged exactly when it is unknown |
| GoogleReviews.InternalLabelByLanguage | components/GoogleReviews.tsx:122-125 | the `internal` label per language, Arabic otherwise |
| GoogleReviews.Carousel.constructor | components/GoogleReviews.tsx:21-32 | no reviews, loading, index 0 |
| GoogleReviews.Carousel.FetchReviews | components/GoogleReviews.tsx:36-60 | the shown reviews are the first `min(maxReviews, total)` in order, and loading ends |
| GoogleReviews.Carousel.GoTo | components/GoogleReviews.tsx:74-78 | with no reviews the index stays; otherwise it becomes the normalised target |
| GoogleReviews.Carousel.Next | components/GoogleReviews.tsx:80 | the last review wraps to the first, any other moves one on |
| GoogleReviews.Carousel.Prev | components/GoogleReviews.tsx:81 | the first wraps to the last, any other moves one back |
| GoogleReviews.Carousel.AutoTick | components/GoogleReviews.tsx:63-72 | without auto-scroll or with at most one review nothing moves; otherwise the index steps by `(i + 1) % len` |
| GoogleReviews.PrevAfterNext | components/GoogleReviews.tsx:76-81 | previous after next returns to the same review |
| GoogleReviews.AutoStepIsNext | components/GoogleReviews.tsx:67-76 | the auto-scroll step is the same as going to the next review |
| ImageViewer.LastSegment | components/gallery/MainImageViewer.tsx:93 | the text after the last `/`: a suffix with no `/`, preceded by one unless it is everything |
| ImageViewer.BeforeQuery | components/gallery/MainImageViewer.tsx:93 | the text before the first `?`: a prefix with no `?`, followed by one unless it is everything |
| ImageViewer.FindFallbackFrom | components/gallery/MainImageViewer.tsx:92-94 | the first matching fallback from a position on, or -1 when none matches |
| ImageViewer.FallbackIndex | components/gallery/MainImageViewer.tsx:92-94 | `findIndex` gives the first fallback whose file name occurs in the failed source, or -1 when none does |
| ImageViewer.NextIndex | components/gallery/MainImageViewer.tsx:39 | the last image wraps to the first and the index stays in range |
| ImageViewer.PrevIndex | components/gallery/MainImageViewer.tsx:31 | the first image wraps to the last and the index stays in range |
| ImageViewer.PrevNextInverse | components/gallery/MainImageViewer.tsx:30-44 | previous undoes next and next undoes previous |
| ImageViewer.KeyActionOf | components/gallery/MainImageViewer.tsx:59-73 | ArrowLeft goes back, ArrowRight forward, Enter or space opens full screen, z or Z toggles zoom, each iff that key |
| ImageViewer.OtherKeysIgnored | components/gallery/MainImageViewer.tsx:59-73 | any other key does nothing |
| ImageViewer.Viewer.ImageAt | components/gallery/MainImageViewer.tsx:27 | the image at an index, empty out of range |
| ImageViewer.Viewer.constructor | components/gallery/MainImageViewer.tsx:25-28 | no error, no retries, not zoomed, the current image as source |
| ImageViewer.Viewer.ChangeIndex | components/gallery/MainImageViewer.tsx:30-51 | the new index is adopted and announced, the error and retries reset, and the source set only if the index changed |
| ImageViewer.Viewer.HandlePrevious | components/gallery/MainImageViewer.tsx:30-36 | 0 wraps to the last image, any other moves back; error and retries reset |
| ImageViewer.Viewer.HandleNext | components/gallery/MainImageViewer.tsx:38-44 | the last image wraps to 0, any other moves on; error and retries reset |
| ImageViewer.Viewer.ToggleZoom | components/gallery/MainImageViewer.tsx:53-56 | zoom flips and its new state is announced |
| ImageViewer.Viewer.KeyDown | components/gallery/MainImageViewer.tsx:59-78 | each key does its action and no other key changes anything |
| ImageViewer.Viewer.HandleImageLoad | components/gallery/MainImageViewer.tsx:85-88 | a load clears the error and the retry count |
| ImageViewer.Viewer.HandleImageError | components/gallery/MainImageViewer.tsx:90-115 | below the last fallback the next fallback is shown (the first for a non-fallback); afterwards a retry of the current image is scheduled while fewer than two were made and the source is no placeholder or inline image; otherwise the error is shown |
| ImageViewer.Viewer.RetryTimerFires | components/gallery/MainImageViewer.tsx:106-110 | a fired retry counts one more, clears the error and reloads the captured image cache-busted |
| ImageViewer.Viewer.RetryButton | components/gallery/MainImageViewer.tsx:149-154 | the retry button clears the error and count and reloads the current image cache-busted |
| CarDetail.GalleryImages | components/CarDetailPageContent.tsx:100 | the gallery shows the car's images when there are any, else its main image, and never nothing |
| CarDetail.Localize | components/CarDetailPageContent.tsx:60-87 | a missing value or language falls back to the raw value; a present translation is shown |
| CarDetail.ShippedTablesComplete | components/CarDetailPageContent.tsx:60-87 | the class, fuel and transmission tables translate every value into all four languages |
| CarDetail.LocalizeComplete | components/CarDetailPageContent.tsx:60-87 | with a complete table, known values are translated in every supported language and unknown ones shown raw |
| CarDetail.LocalizationSamples | components/CarDetailPageContent.tsx:60-87 | a few shipped translations and fall-backs |
| CarDetail.Page.constructor | components/CarDetailPageContent.tsx:31 | the page starts with the initial language and whatever language is saved |
| CarDetail.Page.AdoptSavedLanguage | components/CarDetailPageContent.tsx:37-42 | a saved language is adopted iff it is one of az, en, ru, ar |
| CarDetail.Page.HandleLanguageChange | components/CarDetailPageContent.tsx:55-58 | the chosen language is shown and saved |
| CarDetail.ChoiceSurvivesReload | components/CarDetailPageContent.tsx:37-58 | a supported language chosen once is the language of the next visit |
| CarDetail.Gallery.constructor | components/CarDetailPageContent.tsx:241 | the gallery starts at the first image |
| CarDetail.Gallery.Next | components/CarDetailPageContent.tsx:242 | `(i + 1) % n`: the last wraps to 0, the index stays in range |
| CarDetail.Gallery.Prev | components/CarDetailPageContent.tsx:243 | `(i - 1 + n) % n`: 0 wraps to the last, the index stays in range |
| CarDetail.Gallery.Select | components/CarDetailPageContent.tsx:265 | a thumbnail selects its image |
| CarDetail.GalleryRoundTrip | components/CarDetailPageContent.tsx:242-243 | previous after next and next after previous return to the same image |
| CarDetail.SingleImageFixed | components/CarDetailPageContent.tsx:242-243 | with a single image both buttons stay on it |
| OptimizedImage.OptimizedSizes | components/common/OptimizedImage.tsx:73-75 | a given `sizes` wins; otherwise `100vw` when filling, else the width's responsive hint |
| OptimizedImage.SizesWithoutHint | components/common/OptimizedImage.tsx:73-75 | without `sizes` the hint is `100vw` iff filling or no width |
| OptimizedImage.Image.constructor | components/common/OptimizedImage.tsx:42-49 | the prop is shown, loading, no error, with the default fallback when none is given |
| OptimizedImage.Image.HandleLoad | components/common/OptimizedImage.tsx:54-57 | a load ends loading and calls `onLoad` when given |
| OptimizedImage.Image.HandleError | components/common/OptimizedImage.tsx:59-70 | an error ends loading; the first one switches to the fallback with the error cleared, one on the fallback keeps it and shows the error |
| OptimizedImage.FallbackTriedOnce | components/common/OptimizedImage.tsx:59-70 | after repeated errors the fallback is shown with the error overlay |
| ImageUtils.GenerateImageSizes | lib/image-utils.ts:55-69 | no width gives the wide hint, up to 400 the 400px hint, up to 800 the 800px hint, above that the wide hint again |
| ImageUtils.SizesDefaultIffNoFixedWidth | lib/image-utils.ts:55-69 | the wide hint appears iff the width is absent, 0 or above 800 |
| ImageUtils.LoadImageWithFallback | lib/image-utils.ts:108-129 | the source if it loads, else the first loadable fallback in order, else the default image |
| ImageUtils.GetSafeImageSrc | lib/image-utils.ts:134-142 | the source is returned unchanged |
| ImageUtils.IsValidImageUrl | lib/image-utils.ts:147-163 | the empty text is invalid; inline images and local paths are valid; an http(s) URL is valid iff it ends in an image extension, optionally before a query; nothing else is valid |
| ImageUtils.QueryAfterExtensionAccepted | lib/image-utils.ts:151-160 | an upper-case extension followed by a query is accepted |
| ImageUtils.FtpImageRejected | lib/image-utils.ts:147-163 | an ftp URL is rejected even with an image extension |
| ImageUtils.AddCacheBuster | lib/image-utils.ts:168-171 | the URL, then `&` if it already has a `?` and `?` otherwise, then `t=` and the stamp |
| ImageUtils.CacheBusterStampReadsBack | lib/image-utils.ts:168-171 | the stamp reads back as the clock reading |
| ImageUtils.CacheBusterAgainUsesAmpersand | lib/image-utils.ts:168-171 | busting an already busted URL appends with `&` |
| ImageOptimization.GetOptimizedImageSrc | lib/image-optimization.ts:18-30 | the source is returned unchanged |
| ImageOptimization.GetResponsiveSizes | lib/image-optimization.ts:35-59 | a context decides when given; else `100vw` without a width and the width's band otherwise |
| ImageOptimization.SizesByContextOnly | lib/image-optimization.ts:35-52 | with a context the width plays no part, and different contexts give different hints |
| ImageOptimization.GetOptimalImageConfig | lib/image-optimization.ts:64-104 | priority iff hero, the context's hint, quality 75–90, landscape dimensions |
| ImageOptimization.ConfigWidthsGrow | lib/image-optimization.ts:64-104 | widths grow from thumbnail to hero |
| ImageOptimization.GetLoadingStrategy | lib/image-optimization.ts:148-156 | eager with priority iff above the fold, lazy otherwise |
| ImageOptimization.CalculateOptimalQuality | lib/image-optimization.ts:161-199 | the switch and two adjustments compute the context's quality, lowered by 10 (not below 70) above 1000 pixels and raised by 5 (not above 95) on retina, always in `[70, 95]` |
| ImageOptimization.QualityRange | lib/image-optimization.ts:161-199 | every quality is in `[70, 95]` |
| ImageOptimization.LargeNeverHigher | lib/image-optimization.ts:188-191 | a width above 1000 never gets a higher quality than one at most 1000 |
| ImageOptimization.QualityMonotoneInWidth | lib/image-optimization.ts:188-191 | quality never increases with width |
| ImageOptimization.RetinaBoost | lib/image-optimization.ts:193-196 | retina never lowers the quality and raises it by at most 5 |
| Performance.DetectDevicePerformance | hooks/use-performance.ts:6-24 | medium without a window; low for reduced motion or a mobile agent; high iff at least 8 cores and 8 GB; otherwise medium iff at least 4 cores and 4 GB; missing values count as 2 |
| Performance.UnreportedHardwareIsLow | hooks/use-performance.ts:16-23 | a desktop reporting no cores and no memory is low |
| Performance.IPhoneIsLow | hooks/use-performance.ts:9-12 | any agent naming an iPhone in any case is low |
| Performance.TierMonotoneInHardware | hooks/use-performance.ts:19-23 | more hardware never gives a lower tier |
| Performance.ShouldLoadComponent | hooks/use-performance.ts:107-115 | high devices load everything, medium all but low priority, low only high priority |
| Performance.LoadsByCombinedRank | hooks/use-performance.ts:107-115 | a component loads iff device and priority rank two or more together |
| Performance.LoadingMonotone | hooks/use-performance.ts:107-115 | high priority loads everywhere, and loading is monotone in priority and tier |
| Performance.ImageQuality | hooks/use-performance.ts:149-154 | quality 85, 75 and 65 for high, medium and low |
| Performance.QualityByRank | hooks/use-performance.ts:149-154 | quality is 65 plus 10 per tier rank |
| Performance.GetOptimizedImageProps | hooks/use-performance.ts:147-166 | the source, the tier's quality, lazy loading, blur placeholder and the width or default sizes |
| Performance.WithPerformanceOptimization | hooks/use-performance.ts:185-203 | nothing renders iff the priority (medium by default) is not loaded on the tier; otherwise the component with its props |
| Performance.FirstRenderIsMedium | hooks/use-performance.ts:198-202 | before the device is classified every component renders unless it asked for low priority |
| FormPersistence.StorageKey | lib/validate-form-persistence.js:22 | the key is the prefix followed by the form id |
| FormPersistence.StorageKeyInjective | lib/validate-form-persistence.js:22 | different forms get different keys |
| FormPersistence.LocalStorageMock.constructor | lib/validate-form-persistence.js:5-7 | the store starts empty |
| FormPersistence.LocalStorageMock.GetItem | lib/validate-form-persistence.js:8 | the stored value, or nothing exactly when the key is absent |
| FormPersistence.LocalStorageMock.SetItem | lib/validate-form-persistence.js:9 | the key maps to the value and every other key is unchanged |
| FormPersistence.LocalStorageMock.RemoveItem | lib/validate-form-persistence.js:10 | the key is removed and nothing else |
| FormPersistence.LocalStorageMock.Clear | lib/validate-form-persistence.js:11 | the store becomes empty |
| FormPersistence.LoadFormState | lib/validate-form-persistence.js:37-49 | the saved data of the form, or nothing exactly when the form was never saved |
| FormPersistence.SaveFormState | lib/validate-form-persistence.js:20-35 | the save reports success, stores the record with version `1.0.0` and the form id under the form's key, loads back the data, and leaves every other form as it was |
| FormPersistence.SaveFormStateWithValidation | lib/validate-form-persistence.js:89-104 | the same with the validation metadata kept in the record |
| FormPersistence.SaveKeepsRecordsWellFormed | lib/validate-form-persistence.js:20-35 | both saves keep every record carrying the current version under its own form's key |
| FormPersistence.ValidationScenarios | lib/validate-form-persistence.js:52-147 | every check of the script's scenarios holds |

## Left out

- Dates and clocks: ISO date parsing, `getTime`, `toISOString`, `toLocaleDateString` and `Date.now` are outside the model. Dates are day numbers, and clock readings and formatted dates are parameters.
- BookingForm.NewBooking: one clock reading serves as both the id (`Date.now().toString()`) and the creation time (`new Date().toISOString()`), which the code reads separately, because the two reads differ by at most the time between them and nothing compares them.
- Storage and serialisation: `localStorage` is a sequence of records (the bookings) or a map (the persistence script). `JSON.stringify`/`JSON.parse` are taken to round-trip exactly.
- FormPersistence.LocalStorageMock.GetItem: `value.toString()` and the `|| null` on an empty stored text are not modelled, because a stored record is never empty text.
- E-mail: `sendBookingEmailsLegacy` (lib/email.ts) is network code and is not part of this model. Its call is an outbox event, and a parameter says whether it throws; in the code as shown the name is not exported, so it always throws and is caught.
- WhatsApp hand-off: `window.open` and `encodeURIComponent` are browser calls. The hand-off is an event with a structured message rather than the formatted text.
- BookingBar.HandleSubmit: the parameters are kept as key/value pairs rendered with `&`, without `URLSearchParams` percent-encoding, because encoding is a browser facility.
- Timers: `setInterval`/`setTimeout` delays are not modelled; a timer firing is a method call. This covers the carousel period, the retry backoff delay of `2^n` seconds and the 2-second copied flag. Debounced search is modelled as already settled.
- Floating point: the average review rating and `(popularity/20).toFixed(1)` are display values, so they are left out. Fractional `deviceMemory` values are integers here.
- SimilarCars.ScoreCar: scores are scaled by 10 to stay integral. The "price within 30%" test is `10·|Δ| <= 3·price`, and the popularity bonus is the popularity itself (ten times `popularity/10`), so the float comparison at exact equality is approximated.
- Strings.LexLeqTotal and Strings.LexLeqTransitive: `localeCompare` is taken as code-point lexicographic order, because locale collation is outside the model.
- Strings.ToLower: `toLowerCase` lowers only ASCII letters, because Unicode case mapping is outside the model.
- NaN is treated like `undefined` where the code tests truthiness of numbers.
- The component catalog `enhancedCars`, `customerReviews`, `lib/types` and `hooks/use-favorites` are not part of this model. The catalogs these components read are parameters, and `toggleFavorite` is recorded as one call per id.
- CarsPage.Page.constructor: it requires a non-empty catalog, because `Math.min` of no prices is `Infinity`, which has no integer counterpart. The shipped catalog is non-empty (`CarsPage.ShippedCatalogNonEmpty`).
- CarDetail.Gallery.constructor: it requires a non-empty image list; `CarDetail.GalleryImages` always provides one.
- ImageViewer: the parent component is taken to adopt every index passed to `onIndexChange` at once. The browser's resolved `event.target.src` is a parameter, as are the fullscreen request and focus handling.
- Image placeholders: the blur data URL (`btoa` of an SVG) and the `<link rel=preload>` injection are left out because they are browser output.
- Performance hook: the intersection observer, preloading, prefetching and the `useState`/`useRef` plumbing of the hook are left out, because they are browser interaction.
- The review fetch: the fetch is a method taking the final review list, and its network delay is not modelled.
