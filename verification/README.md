# ConsumoHoy price and scheduling core, in Dafny

ConsumoHoy is an Android app. It shows Spanish electricity prices, hour by
hour, from the REE market API. It also suggests when to run a household
appliance so that running it costs least. This project models the app's
price logic as pure functions over immutable datatypes, and proves
properties of them.

The model covers these parts of the app:

- **Price payload.** Hourly points: the value in euros per MWh, the
  percentage, and the raw date-time text. Points are grouped into series,
  which are the `included` entries of the payload. A store stands in for the
  shared-preferences file "precios": the cached PVPC estimate, and the last
  spot and PVPC prices (`prices.dfy`). The date-time parsers are modelled
  explicitly:
  - `LocalDateTime` with `yyyy-MM-dd'T'HH:mm:ss.SSSXXX`;
  - `SimpleDateFormat` with `…SSSZ`, as the price screens apply it once a
    regex has dropped the offset's colon.
- **Appliance optimiser** (`calcularHoraOptimizada`).
  - A priority window filters the hours.
  - One of five strategies, chosen by exact label, picks the hours to walk.
  - The settlement walk (`calcularCosteDesdeHoras`) charges up to 60 minutes
    of use to each hour in turn, at that hour's price.
  - Files: `scheduler.dfy`, `settlement.dfy` and `ordering.dfy`. The last
    one models Kotlin's stable `sortedBy`, `minByOrNull`, `maxByOrNull` and
    `take`.
- **Optimisation screen's advice** (`savings.dfy`): the total cost, the
  monthly cost at the best and at the dearest hour, the saving, and the
  saving banner.
- **Optimisation view-model's price choice** (`resolution.dfy`). It takes the
  real PVPC series if it has a point for the target day. Otherwise it takes
  the cached estimate. Otherwise it returns nothing ("Desconocido"). Any
  exception gives "Error".
- **Background worker** (`worker.dfy`). It synthesises a PVPC estimate from
  the spot series when the payload has no PVPC values, and caches it. It
  also builds the per-hour estimate table and stores the last spot price.
- **Price view-model's refresh** (`spotprice.dfy`). It computes the final spot
  price: euros per kWh, plus the access toll of the hour's band, plus the
  retailer's margin. It writes a stored price, and announces it, only when
  the price has changed.
- **The two versions of the price screen.**
  - Shared: tariff bands, the tax formula, the choice of the default series,
    and the value-ordered and band-filtered views (`bands.dfy`,
    `views.dfy`).
  - The current screen (`currentscreen.dfy`) hides the estimate when real
    PVPC prices exist. It persists the estimate. Its time view is padded
    with placeholder hours.
  - The earlier screen (`legacyscreen.dfy`) hides the estimate before 20:00
    and sorts its time view by parsed date-time.
- **Date handling** (`calendar.dfy`): `LocalDate.plusDays(1)` and
  `toString()`.

**Inputs and outputs.**
- The current hour and date are parameters.
- The network becomes an input: the fetched payload, or `None` when the
  request failed.
- The shared-preferences file is a `Store` value, threaded in and out.
- An exception that the code does not catch where it is raised becomes an
  `Err` result.

**Two PVPC estimates.** The worker and the screens synthesise different
estimates:
- The worker adds 59.9 €/MWh to each spot value; here that offset is a
  parameter.
- The screens add 0.06404 × 1000 = 64.04 €/MWh (`Views.ScreenOffset`).

**One store key, two units.** The worker and the price view-model write the
same "spot" key in different units:
- The worker writes the raw last spot value, in €/MWh.
- The view-model writes the final price, in €/kWh including the toll.

`Resolution.LatestPrices` reads that key back divided by 1000, whichever
unit was written.

## Model

| member | source | states |
|---|---|---|
| Settlement.SettleShape | app/src/main/java/com/proyecto/consumohoy/optimization/OptimizationViewModel.kt:220-242 | The walk fails exactly when an hour it reaches has an unparseable date-time. Otherwise slice i belongs to input hour i, gets `min(60, remaining)` minutes, and costs `price/1000 × W/1000/60 × minutes`. The slice count is `min(n, ⌈minutes/60⌉)`, and the walk places `min(minutes, 60·n)` minutes in total (none when minutes ≤ 0). |
| Settlement.SettleLoop | app/src/main/java/com/proyecto/consumohoy/optimization/OptimizationViewModel.kt:227-241 | The source's `for`/`break` loop computes exactly the walk defined recursively. |
| Settlement.SettleOverParsed | app/src/main/java/com/proyecto/consumohoy/optimization/OptimizationViewModel.kt:231-239 | Over hours that all parse, the walk never throws. It yields at most one slice per hour, each labelled with its own hour's time. |
| Ordering.SortOnIsStable | app/src/main/java/com/proyecto/consumohoy/optimization/OptimizationViewModel.kt:164-166 | `sortedBy` is stable: the elements that share a key keep their input order. |
| Ordering.SortHeadIsFirstMin | app/src/main/java/com/proyecto/consumohoy/optimization/OptimizationViewModel.kt:187 | The head of the stably sorted list is the first element of least key, so `sortedBy(...).firstOrNull()` and `minByOrNull` pick the same point. |
| Ordering.TakeSmallest | app/src/main/java/com/proyecto/consumohoy/optimization/OptimizationViewModel.kt:164 | The first n of the sorted elements have keys no larger than any element left out. |
| Scheduler.LabelRoundTrip | app/src/main/java/com/proyecto/consumohoy/optimization/OptimizationViewModel.kt:162-216 | Each named strategy is selected by its label. A label selects a named strategy only if it is exactly that strategy's label. |
| Scheduler.ScreenStrategies | app/src/main/java/com/proyecto/consumohoy/optimization/OptimizationScreen.kt:171-174 | The screen's "Evitar horas punta" falls into the default branch. Top-3 and avoid-peak cannot be chosen from the screen. |
| Scheduler.PriorityIgnoresCase | app/src/main/java/com/proyecto/consumohoy/optimization/OptimizationViewModel.kt:155-159 | The priority is matched after upper-casing, so every text names the same priority as its lower case and its upper case. |
| Scheduler.PrioritySpellings | app/src/main/java/com/proyecto/consumohoy/optimization/OptimizationViewModel.kt:155-159 | Any capitalisation of "alta" or "media" selects the narrower windows. Other text, such as "baja" or the empty text, admits every hour. |
| Scheduler.Eligible | app/src/main/java/com/proyecto/consumohoy/optimization/OptimizationViewModel.kt:148-160 | A point is eligible exactly when its date-time parses and its hour is in the priority window (7–22, 6–23 or any). Eligible points are drawn from the series. |
| Scheduler.EligibleInSeriesOrder | app/src/main/java/com/proyecto/consumohoy/optimization/OptimizationViewModel.kt:148-160 | The eligible points keep the series order and every copy: filtering a concatenation filters each part in turn, and a single point stays exactly when it is admitted. |
| Scheduler.FromFirstMatch | app/src/main/java/com/proyecto/consumohoy/optimization/OptimizationViewModel.kt:178-182 | The drop keeps a suffix of the whole series that starts at the first point with the start's date-time. No earlier point carries that date-time. The suffix is non-empty whenever the start is in the series. |
| Scheduler.TopThreePlan | app/src/main/java/com/proyecto/consumohoy/optimization/OptimizationViewModel.kt:163-168 | Top-3 walks `min(3, eligible)` eligible points, and no eligible point left out is cheaper than one kept. The points are walked in chronological order. |
| Scheduler.CheapestThreeAreCheapest | app/src/main/java/com/proyecto/consumohoy/optimization/OptimizationViewModel.kt:164 | The three cheapest points are at most three, are drawn from the eligible points, and none left out is cheaper. |
| Scheduler.CheapestThreeInTimeOrder | app/src/main/java/com/proyecto/consumohoy/optimization/OptimizationViewModel.kt:164-166 | The three cheapest points are put back in chronological order. |
| Scheduler.NearestStart | app/src/main/java/com/proyecto/consumohoy/optimization/OptimizationViewModel.kt:170-184 | When an eligible point at or after the current hour exists, the walk starts at the first cheapest such point. The `-1` branch is unreachable, since the start comes from the same series. The walk then continues over the whole series. With no such point, nothing is walked. |
| Scheduler.CheapestOfDayStart | app/src/main/java/com/proyecto/consumohoy/optimization/OptimizationViewModel.kt:186-194 | The walk starts at the series' first point that has the date-time of the first cheapest eligible point. That first hour is admitted. With no eligible point, nothing is walked. |
| Scheduler.OffPeak | app/src/main/java/com/proyecto/consumohoy/optimization/OptimizationViewModel.kt:196-199 | A point is kept exactly when it is one of the given points and its hour is not 18, 19 or 20. |
| Scheduler.OffPeakInOrder | app/src/main/java/com/proyecto/consumohoy/optimization/OptimizationViewModel.kt:196-199 | The off-peak points keep the eligible points' order and every copy of a kept point. |
| Scheduler.Upcoming | app/src/main/java/com/proyecto/consumohoy/optimization/OptimizationViewModel.kt:172-174 | A point is upcoming exactly when it is eligible and its hour is at least the current hour. |
| Scheduler.UpcomingInOrder | app/src/main/java/com/proyecto/consumohoy/optimization/OptimizationViewModel.kt:172-174 | The upcoming points keep the eligible points' order and every copy of a kept point. |
| Scheduler.AvoidPeakStart | app/src/main/java/com/proyecto/consumohoy/optimization/OptimizationViewModel.kt:196-209 | Works like cheapest-of-day, but over the eligible points outside hours 18–20. The first hour walked is admitted and outside the peak. |
| Scheduler.DefaultPlan | app/src/main/java/com/proyecto/consumohoy/optimization/OptimizationViewModel.kt:211-216 | Any other label walks every eligible point, in chronological order. |
| Scheduler.PlanWithinSeries | app/src/main/java/com/proyecto/consumohoy/optimization/OptimizationViewModel.kt:162-217 | Every strategy walks points of the price series only. |
| Scheduler.EmptySeries | app/src/main/java/com/proyecto/consumohoy/optimization/OptimizationViewModel.kt:162-217 | With no prices, every strategy suggests nothing. |
| Scheduler.ScheduleWalksPlan | app/src/main/java/com/proyecto/consumohoy/optimization/OptimizationViewModel.kt:162-242 | A successful schedule has at most one slice per planned hour. It places `min(minutes, 60·n)` minutes, and slice i is planned hour i at its own price. With no minutes of use, the suggestion is empty. |
| Scheduler.WindowedStrategiesRespectPriority | app/src/main/java/com/proyecto/consumohoy/optimization/OptimizationViewModel.kt:162-217 | Top-3 and the default never throw. Every hour they suggest lies in the priority window. Top-3 suggests at most three hours. |
| Savings.Advise | app/src/main/java/com/proyecto/consumohoy/optimization/OptimizationScreen.kt:206-222 | A power ≤ 0 gives no suggestion. For a positive power: the advice fails exactly when the scheduler throws, with its fault; a non-empty schedule is shown with the figures derived from it; an empty one shows nothing. A shown suggestion is always a non-empty schedule. |
| Savings.Derive | app/src/main/java/com/proyecto/consumohoy/optimization/OptimizationScreen.kt:222-246 | Total cost is the sum of the slice costs. The dearest price is the series maximum (0 when empty). The monthly figures are 28 days of use. The saving is dearest minus optimal, and the percentage is saving / 60 × 100. The banner shows exactly when saving > 0.01. |
| Savings.DearestMonthlyIsDailyCost | app/src/main/java/com/proyecto/consumohoy/optimization/OptimizationScreen.kt:226-228 | The monthly cost at the dearest price equals 28 times one day's use at that price. |
| Savings.WalkCostBound | app/src/main/java/com/proyecto/consumohoy/optimization/OptimizationViewModel.kt:231-239 | A walk over hours priced at most b costs at most its minutes at price b. |
| Savings.SavingNotNegative | app/src/main/java/com/proyecto/consumohoy/optimization/OptimizationScreen.kt:222-229 | When the dearest price is not negative, the estimated saving is never negative, whatever the strategy. |
| Savings.BannerAsWrittenMisstates | app/src/main/java/com/proyecto/consumohoy/optimization/OptimizationScreen.kt:257 | As written, the banner's percentage differs from the true share of the bill whenever there is a saving. |
| Savings.BannerSixEuros | app/src/main/java/com/proyecto/consumohoy/optimization/OptimizationScreen.kt:257 | A saving of 6 € is printed as 6.0 % instead of 10.0 %. |
| Savings.BannerFigureIsShareOfBill | app/src/main/java/com/proyecto/consumohoy/optimization/OptimizationScreen.kt:230-231 | The corrected banner figure is the saving as a percentage of the 60 € average bill. |
| Prices.ParsedStampShape | app/src/main/java/com/proyecto/consumohoy/optimization/OptimizationViewModel.kt:143-153 | A parsed stamp is in range, its text has the fixed layout and an offset of at most ±18:00, and its hour and minute are the digits at their places. |
| Prices.ParseFormat | app/src/main/java/com/proyecto/consumohoy/optimization/OptimizationViewModel.kt:143 | Parsing a stamp's UTC text gives the stamp back. |
| Prices.StampKeyOrdersStamps | app/src/main/java/com/proyecto/consumohoy/optimization/OptimizationViewModel.kt:212-214 | The numeric key orders in-range stamps field by field, as `LocalDateTime.compareTo` does, and is injective. |
| Prices.SortByTimeIsChronological | app/src/main/java/com/proyecto/consumohoy/optimization/OptimizationViewModel.kt:212-214 | Sorting parsed points by date-time leaves no point earlier than the one before it. |
| Prices.ClockOf | app/src/main/java/com/proyecto/consumohoy/optimization/OptimizationViewModel.kt:236 | The `HH:mm` label exists exactly when the date-time parses, and is a valid time of day. |
| Prices.ShiftInverse | app/src/main/java/com/example/consumohoy/firebase/PrecioWorker.kt:79-81 | Adding an offset to every value and then subtracting it recovers the series. |
| Calendar.Next | app/src/main/java/com/example/consumohoy/firebase/PrecioWorker.kt:34 | `plusDays(1)` gives a valid date after today, with no valid date strictly between them. |
| Calendar.DisplayDay | app/src/main/java/com/proyecto/consumohoy/datosprecios/ScreenPriceData.kt:45 | The day shown is tomorrow exactly when the hour is ≥ 20, and today otherwise. |
| Calendar.Iso | app/src/main/java/com/proyecto/consumohoy/optimization/OptimizationViewModel.kt:83 | `LocalDate.toString()` is ten characters for years up to 9999, and longer after. |
| Text.SubstringAfterT | app/src/main/java/com/example/consumohoy/conexion/DatosPreciosViewModel.kt:38 | The result is the text after the first `T`, or the whole text when there is none. |
| Text.ToIntOrNull | app/src/main/java/com/example/consumohoy/conexion/DatosPreciosViewModel.kt:39-40 | Two digits read as their value. Any number read has an optional sign followed by digits, and fits in 32 bits. |
| Text.ToIntOrNullValue | app/src/main/java/com/example/consumohoy/conexion/DatosPreciosViewModel.kt:39-40 | An unsigned, `+` or `-` numeral reads as its decimal value when that fits a 32-bit `Int`, and as null when it does not. |
| Text.ToIntOrNullReadsNatText | app/src/main/java/com/example/consumohoy/conexion/DatosPreciosViewModel.kt:39-40 | The decimal text of every `Int`, unsigned or after `+` or `-`, reads back as that number; a numeral past `Int.MAX_VALUE` reads as null. |
| Text.ReadTwo | app/src/main/java/com/example/consumohoy/conexion/DatosPreciosViewModel.kt:39-40 | Two characters read as their two-digit value when both are digits, and as null when the second is not a digit. |
| Bands.MinuteBand | app/src/main/java/com/proyecto/consumohoy/datosprecios/ScreenPriceData.kt:375-382 | Valle, llano and punta cover exactly minutes 0–1439 of the day, and within the day the band depends only on the hour. |
| Bands.DisplayStamp | app/src/main/java/com/proyecto/consumohoy/datosprecios/ScreenPriceData.kt:363-369 | The screens' parser reads a date-time exactly when the strict parser does and the offset is numeric, not a literal `Z`. It then gives the same stamp. |
| Bands.BandOf | app/src/main/java/com/proyecto/consumohoy/datosprecios/ScreenPriceData.kt:361-383 | The band is "otro" exactly when the date-time cannot be read. Otherwise it is the band of the parsed hour. |
| Bands.CardBand | app/src/main/java/com/proyecto/consumohoy/datosprecios/ScreenPriceData.kt:502-523 | A card renders exactly when its band is not "otro". The hour-based colour then agrees with the minute-based band filter. |
| Bands.WithTax | app/src/main/java/com/proyecto/consumohoy/datosprecios/ScreenPriceData.kt:47-52 | The taxed price exceeds the raw price by 50.5 plus 1 % of the raw price. |
| Bands.WithTaxMonotone | app/src/main/java/com/proyecto/consumohoy/datosprecios/ScreenPriceData.kt:47-52 | The tax formula preserves the order of prices. |
| SpotPrice.Toll | app/src/main/java/com/example/consumohoy/conexion/DatosPreciosViewModel.kt:43-48 | The toll is the toll of the hour's tariff band, one of 0.030, 0.045 or 0.060. Hours outside 0–23 pay 0.045. |
| SpotPrice.HourText | app/src/main/java/com/example/consumohoy/conexion/DatosPreciosViewModel.kt:37-40 | Reading the hour throws exactly when fewer than two characters follow the first `T`. Otherwise it is those two characters read by `toIntOrNull`, or 0 when null, for any date-time. For a date-time that parses, it gives the parsed hour. |
| SpotPrice.FinalSpot | app/src/main/java/com/example/consumohoy/conexion/DatosPreciosViewModel.kt:30-53 | There is no final price without a spot point. Otherwise it is value/1000 plus the band's toll plus the 0.001 margin. It throws exactly when the hour cannot be cut out. |
| SpotPrice.FinalSpotOfParsed | app/src/main/java/com/example/consumohoy/conexion/DatosPreciosViewModel.kt:33-50 | For a spot point whose date-time parses, the final price is value/1000 plus the toll of the parsed hour's band plus the margin. |
| SpotPrice.Written | app/src/main/java/com/example/consumohoy/conexion/DatosPreciosViewModel.kt:68-75 | After a write, the key read with default -1 holds the new value. The key changes only when the new value differs from the stored one. |
| SpotPrice.RefreshPrices | app/src/main/java/com/example/consumohoy/conexion/DatosPreciosViewModel.kt:19-94 | The payload is published even if post-processing throws, and a failed request publishes nothing and writes nothing. A key changes only to a different value, and a key with no point in the payload keeps its value. The notifications are exactly: one for spot if the spot key changed, then one for PVPC if the PVPC key changed, each with the value written. |
| SpotPrice.RefreshStoresFinalPrices | app/src/main/java/com/example/consumohoy/conexion/DatosPreciosViewModel.kt:30-86 | When the last spot point's hour cannot be cut out, the store is unchanged and nothing is announced. Otherwise the stored spot price is value/1000 plus the toll of the band of the hour read, plus the margin, or is left as it was with no spot point; in both cases the stored PVPC price is the last PVPC value/1000. |
| SpotPrice.RefreshIdempotent | app/src/main/java/com/example/consumohoy/conexion/DatosPreciosViewModel.kt:62-86 | Repeating a refresh with the same payload changes nothing and announces nothing. |
| Worker.ForceRevisionOnlyAcrossMidnight | app/src/main/java/com/example/consumohoy/firebase/PrecioWorker.kt:34-37 | The "force real PVPC" flag is false when the two reads of today's date agree. It holds only when the second read is the day after the first, that is when the run crosses midnight between them, and then it does hold. |
| Worker.Synthesise | app/src/main/java/com/example/consumohoy/firebase/PrecioWorker.kt:79-91 | The estimate has type "pvpc-estimado", id "9999" and title "PVPC (estimado)". It keeps the spot series' last update and date-times. Shifting its values back by the offset recovers the spot values. |
| Worker.EstimatesKeys | app/src/main/java/com/example/consumohoy/firebase/PrecioWorker.kt:110-125 | The estimate table holds exactly the date-times of the points it is built from. |
| Worker.EstimatesLastWins | app/src/main/java/com/example/consumohoy/firebase/PrecioWorker.kt:120-123 | Each date-time maps to the value of its last occurrence plus the offset: a later duplicate overwrites. |
| Worker.EstimateLoop | app/src/main/java/com/example/consumohoy/firebase/PrecioWorker.kt:120-123 | The `forEach` loop builds exactly the table defined recursively. |
| Worker.EstimatesMatchSynthesised | app/src/main/java/com/example/consumohoy/firebase/PrecioWorker.kt:112-123 | The table from spot plus the offset equals the table of the synthesised series' own values. |
| Worker.DoWork | app/src/main/java/com/example/consumohoy/firebase/PrecioWorker.kt:25-173 | A failed request asks for a retry and writes nothing. A completed one succeeds. |
| Worker.WorkerSynthesis | app/src/main/java/com/example/consumohoy/firebase/PrecioWorker.kt:78-108 | The estimate is appended once, and cached, exactly when the PVPC values are missing or empty and a spot series exists. Otherwise the list and the cache are unchanged. The PVPC key is never written. |
| Worker.WorkerTableAndSpot | app/src/main/java/com/example/consumohoy/firebase/PrecioWorker.kt:110-158 | The estimate table comes from the real PVPC values exactly when the "force real PVPC" flag holds and the payload has PVPC values. Otherwise, synthesised estimate included, it is spot plus the offset. The stored spot price is the last spot value, and is unchanged when there is none. |
| Resolution.AnyOfDay | app/src/main/java/com/proyecto/consumohoy/optimization/OptimizationViewModel.kt:104-109 | The scan throws exactly when it reaches a date-time too short to hold a date before finding one of the day. Otherwise it answers whether some point is of the day. |
| Resolution.Resolve | app/src/main/java/com/proyecto/consumohoy/optimization/OptimizationViewModel.kt:81-129 | "Precio mercado PVPC" means the real PVPC has a point of the target day. "Tarifa PVPC (estimado)" means it has none and the cache has one. "Desconocido" means neither has one. "Error" or "Desconocido" give no prices. Each label holds exactly in its case: "Error" when the request failed or a date-time is too short to test, else the real PVPC if it has a point of the day, else the cache if it has one, else "Desconocido". |
| Resolution.RealPvpcFirst | app/src/main/java/com/proyecto/consumohoy/optimization/OptimizationViewModel.kt:108-113 | Over well-formed date-times, the real PVPC series wins whenever it has a point of the target day. |
| Resolution.CachedEstimateRoundTrip | app/src/main/java/com/proyecto/consumohoy/optimization/OptimizationViewModel.kt:97-117 | The estimate a worker run caches is what the optimiser later falls back to: the spot prices plus the offset. |
| Resolution.LatestPrices | app/src/main/java/com/proyecto/consumohoy/optimization/OptimizationViewModel.kt:58-74 | SPOT and PVPC are present exactly when their stored value (default -1) is positive. Each is the stored value divided by 1000. |
| Views.DefaultKind | app/src/main/java/com/proyecto/consumohoy/datosprecios/ScreenPriceData.kt:191-207 | The default is the estimate if offered, else "pvpc", else the first kind, else "". It is always a kind on offer. |
| Views.Selected | app/src/main/java/com/proyecto/consumohoy/datosprecios/ScreenPriceData.kt:357 | A series is selected exactly when one of the chosen kind is on offer. The one selected is the first series on offer of that kind. |
| Views.ScreenEstimate | app/src/main/java/com/proyecto/consumohoy/datosprecios/ScreenPriceData.kt:152-165 | The screens' estimate has the estimate's identity and the spot date-times. Shifting back by 64.04 recovers the spot values. |
| Views.Cheapest | app/src/main/java/com/proyecto/consumohoy/datosprecios/ScreenPriceData.kt:387-388 | The cheapest-first view is a permutation of the series, in ascending price order. |
| Views.Dearest | app/src/main/java/com/proyecto/consumohoy/datosprecios/ScreenPriceData.kt:390-391 | The dearest-first view is a permutation of the series, in descending price order. |
| Views.CheapestIsStable | app/src/main/java/com/proyecto/consumohoy/datosprecios/ScreenPriceData.kt:387-388 | Points of equal price keep their series order in the cheapest-first view. |
| Views.DearestIsStable | app/src/main/java/com/proyecto/consumohoy/datosprecios/ScreenPriceData.kt:390-391 | Points of equal price keep their series order in the dearest-first view. |
| Views.BandView | app/src/main/java/com/proyecto/consumohoy/datosprecios/ScreenPriceData.kt:393-415 | A band view keeps every copy of the series' points of that band and no other point, in chronological order. |
| Views.OfferInListOrder | app/src/main/java/com/proyecto/consumohoy/datosprecios/ScreenPriceData.kt:187-189 | The offer keeps the list order and every copy: it distributes over concatenation, a single series stays unless it is a hidden estimate, and with nothing hidden it is the whole list. |
| Views.DefaultIsFirstOnOffer | app/src/main/java/com/proyecto/consumohoy/datosprecios/ScreenPriceData.kt:187-207 | The offer is empty exactly when no series is on offer and otherwise starts with the first one on offer; without an estimate or a "pvpc" series on offer, that series' kind is shown first. |
| Views.RowPrice | app/src/main/java/com/proyecto/consumohoy/datosprecios/ScreenPriceData.kt:498 | A card's price is the value in euros per kWh. |
| CurrentScreen.Prepare | app/src/main/java/com/proyecto/consumohoy/datosprecios/ScreenPriceData.kt:142-223 | With a spot series, the estimate is always persisted; otherwise the store is unchanged. A series is on offer exactly when it is in the extended list and is not an estimate hidden by real PVPC values. The offer is the extended list, in order, less the estimate when real PVPC values exist. The default kind is chosen from the offer. |
| CurrentScreen.DefaultIsFirstShown | app/src/main/java/com/proyecto/consumohoy/datosprecios/ScreenPriceData.kt:180-207 | Without an estimate or a "pvpc" series on offer, the kind shown first is that of the first series of the extended list that stays on offer. |
| CurrentScreen.CacheNeverSelectable | app/src/main/java/com/proyecto/consumohoy/datosprecios/ScreenPriceData.kt:209-223 | With a spot series, the cache is never appended. When it is appended, no estimate is on offer, so it can never be selected. |
| CurrentScreen.Padded | app/src/main/java/com/proyecto/consumohoy/datosprecios/ScreenPriceData.kt:432-440 | The padded rows are the series' points plus a placeholder for hour 00 and for hour 01, each only when missing. |
| CurrentScreen.TimeView | app/src/main/java/com/proyecto/consumohoy/datosprecios/ScreenPriceData.kt:417-456 | The time view throws exactly when a date-time is too short to hold an hour. Otherwise it is the padded rows, sorted by hour field (24 when not a number). |
| CurrentScreen.TimeViewHasEarlyHours | app/src/main/java/com/proyecto/consumohoy/datosprecios/ScreenPriceData.kt:435-440 | The time view always has rows for hours 00 and 01. |
| CurrentScreen.TimeViewIsStable | app/src/main/java/com/proyecto/consumohoy/datosprecios/ScreenPriceData.kt:442-444 | Rows of the same hour keep their padded order. |
| CurrentScreen.View | app/src/main/java/com/proyecto/consumohoy/datosprecios/ScreenPriceData.kt:386-457 | Each order gives its own list: the padded time view, the cheapest-first or dearest-first permutation, or the chosen band's points in time order, of the selected series (of nothing without one). The value and band views never throw, and draw only on the selected series. |
| CurrentScreen.Header | app/src/main/java/com/proyecto/consumohoy/datosprecios/ScreenPriceData.kt:472-476 | The date header throws exactly when the first row's date-time cannot be read. |
| CurrentScreen.PlaceholderUnreadable | app/src/main/java/com/proyecto/consumohoy/datosprecios/ScreenPriceData.kt:423-429 | As written, a placeholder's date-time can never be read for display. |
| CurrentScreen.EmptyTimeViewThrows | app/src/main/java/com/proyecto/consumohoy/datosprecios/ScreenPriceData.kt:417-476 | With no series selected, the time view is the two placeholders and the header throws. |
| CurrentScreen.ReadablePlaceholderRenders | app/src/main/java/com/proyecto/consumohoy/datosprecios/ScreenPriceData.kt:423-429 | A placeholder carrying the feed's numeric offset reads as its hour of the day in the feed's zone, and its card takes the hour's band. |
| LegacyScreen.Prepare | app/src/main/java/com/example/consumohoy/datosprecios/ScreenPriceData.kt:102-173 | A series is on offer exactly when it is in the payload and is not an estimate hidden before 20:00. The offer is the payload, in order, less those estimates. The default kind is chosen from the offer. |
| LegacyScreen.DefaultIsFirstShown | app/src/main/java/com/example/consumohoy/datosprecios/ScreenPriceData.kt:107-173 | Without an estimate or a "pvpc" series on offer, the kind shown first is that of the first series of the payload that stays on offer. |
| LegacyScreen.EstimateShownFromEight | app/src/main/java/com/example/consumohoy/datosprecios/ScreenPriceData.kt:106-109 | Before 20:00 no estimate is on offer. From 20:00 the offer is the payload as received. |
| LegacyScreen.CacheOnlyWithoutSpot | app/src/main/java/com/example/consumohoy/datosprecios/ScreenPriceData.kt:111-156 | The cached estimate is appended exactly when the payload has neither an estimate nor a spot series. With a spot series, the synthesised estimate is appended instead. |
| LegacyScreen.TimeOrder | app/src/main/java/com/example/consumohoy/datosprecios/ScreenPriceData.kt:336-340 | With two or more points, the default view throws exactly when some date-time cannot be read. Otherwise it is a chronological permutation of the series. |
| LegacyScreen.View | app/src/main/java/com/example/consumohoy/datosprecios/ScreenPriceData.kt:305-341 | Each view is empty without a selection. With one, each order gives its own list of the selected series: the chronological order, the cheapest-first or dearest-first permutation, or the chosen band's points in time order. Only the time order can throw. |

## Left out

- **UI, network and platform.** Compose layout, dropdown state, navigation,
  Retrofit, Room, WorkManager set-up, Gson encoding and notifications are
  left out. Requests become inputs, and a notification is a `Notice` value.
- **Float arithmetic.** Prices are exact reals: `Float`/`Double` rounding is
  not modelled, and neither is the `==` comparison of rounded floats in
  `SpotPrice.Changed`.
- **Output formatting.** `%.1f`, `%.3f`, `HH:mm` and the date header's
  output text are left out; labels are `Clock` values.
- **Time zones.**
  - `Calendar.getInstance()` and `Date` convert the parsed instant to the
    device's zone. The model reads the hour, minute and sort order from
    the local fields of the text.
  - Bands.BandOf and LegacyScreen.TimeOrder therefore agree with the source
    only when the device zone matches the offset in the text, as it does for
    the REE feed read in Spain.
- **Parser leniency.**
  - Prices.ParseStamp checks each field against a fixed range only. It
    accepts days 29 to 31 in every month, so "2025-02-31T10:00:00.000+01:00"
    reads as day 31 of month 2.
  - `LocalDateTime.parse` with its default SMART resolver would clamp that
    day to 28 February. It would also accept hour 24 at minute 0 as
    midnight of the next day, which the model rejects.
  - Bands.DisplayStamp stands for `SimpleDateFormat`, which is lenient. It
    rolls out-of-range fields over (31 February becomes 3 March) and accepts
    trailing text and offsets up to 23:59. The model reads the fields as
    written and calls the rest unreadable.
- **Case mapping.** Text.Lower and Text.Upper map ASCII letters only.
  Kotlin's full Unicode case mapping is left out.
- **The 20:30 gate.** The worker's `before20_30` is computed, and nothing
  reads it. The screens' `isBefore(20:00)` is an hour comparison in the
  model.
- **The `lastUpdate ?:` default.** This fallback is dead, because the field
  is not nullable. Scheduler.Eligible and the
  other null-safe calls likewise assume the non-null fields of the entity
  classes.
- **Later slices of the drop strategies.** Scheduler.NearestStart,
  Scheduler.CheapestOfDayStart and Scheduler.AvoidPeakStart constrain only
  the first hour walked. As in the source, the walk continues over the
  unfiltered series, so later hours may leave the priority window or fall
  in the peak.
- **Rendering beyond the header.** A card whose date-time cannot be read is
  modelled as an exception (`Bands.CardBand`), but the Compose list that
  would raise it is not.
- **Unused payload fields.**
  - Prices.Series keeps only the kind, id, title, last update and points.
    The `description` attribute, and the earlier app's `total` and
    `totalPercentage`, are dropped when the payload is read.
  - The source builds its estimates with `attributes.copy(...)`, which
    copies these attributes from the spot series
    (app/src/main/java/com/example/consumohoy/firebase/PrecioWorker.kt:84-91,
    app/src/main/java/com/proyecto/consumohoy/datosprecios/ScreenPriceData.kt:152-165).
    Worker.Synthesise and Views.ScreenEstimate do not copy them, since no
    code reads them.
  - A point's `percentage` is carried but never interpreted.
- **Placeholders after year 9999.** CurrentScreen.TimeViewHasEarlyHours and
  CurrentScreen.EmptyTimeViewThrows require years up to 9999. Beyond that,
  `LocalDate.toString()` writes `+` and more digits, which moves the hour
  field.
- **Worker.DoWork: the two clock reads.** `LocalDate.now()` is read twice
  (PrecioWorker.kt:34 and :37), and both reads are inputs. The model does
  not tie the second read to the first: which dates a real clock gives is
  left out. The "force real PVPC" flag, and with it the real-PVPC table,
  holds only when the second read is the day after the first
  (Worker.ForceRevisionOnlyAcrossMidnight). Exceptions thrown after the
  request inside the worker are not modelled, since no reachable statement
  there throws on a completed payload.
- Text.ToIntOrNull: reads ASCII digits only. Kotlin's `toIntOrNull` also
  accepts any other Unicode decimal digit (through `Character.digit`), so a
  stamp whose hour is written in, say, Arabic-Indic digits has an hour in
  the app, where the model gives hour 0 (SpotPrice.HourText) or sort key 24
  (CurrentScreen.HourKey).
- Prices.ParsedStampShape: admits year 0000. The `yyyy` pattern is
  year-of-era, and the SMART resolver of `LocalDateTime.parse` rejects
  year-of-era 0, so the source fails to parse such a stamp where the model
  parses it.
- **Other workers and screens.** PrecioPvpcWorker, in the current app's
  firebase package, only fetches the PVPC series and posts notifications.
  It and the consumption screens, with their view-model, are not part of
  this model.

## Findings

| source | as written | input that shows it | evidently intended | confidence | as-written member | corrected member |
|---|---|---|---|---|---|---|
| app/src/main/java/com/proyecto/consumohoy/optimization/OptimizationScreen.kt:257 | The saving banner formats `%.1f%%` with `(ahorroEstimado, porcentajeAhorro)`, so the percentage shown is the saving in euros. | A saving of 6 € against the 60 € bill prints "6.0%". | Print the saving's share of the bill: `porcentajeAhorro`, 10.0 % here. | high; not executed | Savings.BannerAsWrittenMisstates | Savings.BannerFigureIsShareOfBill |
| app/src/main/java/com/proyecto/consumohoy/datosprecios/ScreenPriceData.kt:423-429 | The padding placeholders end in a literal `Z`. The header (lines 472-476) parses the first row with `SimpleDateFormat`'s `Z`, which reads only numeric offsets, so the header throws when a placeholder comes first. | No series selected (or one without hour 00), time order: the first row is `<day>T00:00:00.000Z`. | Placeholders carry the feed's numeric offset (`+01:00` or `+02:00` in Spain) in place of `Z`. On a device in the feed's zone, such a placeholder reads as its hour and takes that hour's band. | medium (depends on `SimpleDateFormat` rejecting a literal `Z` for pattern `Z`); not executed | CurrentScreen.EmptyTimeViewThrows | CurrentScreen.ReadablePlaceholderRenders |

The time view (CurrentScreen.TimeView) models the placeholders as written.
The corrected placeholder, CurrentScreen.ReadablePlaceholder, is stated
alongside it. The banner figure the model uses is Savings.BannerFigure.
