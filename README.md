# guess_my_gas prediction engine, in Dafny

This project models the prediction engine of the single-page GuessMyGas app in `src/App.tsx`. The app simulates fuel prices for 7-Eleven stores in Melbourne. The model covers five parts:

- **Price simulator** (`generatePrice`): a deterministic price for a base price, a variance and a date. It reads only the day of the month and the zero-based month.
- **Series builder** (`generateHistoricalData`): fifteen price points, for the week before the selected date, the selected date itself and the week after. The selected date's point is flagged as the target. An unknown fuel id falls back to the first catalog entry.
- **Prediction** (`handlePredict`): looks up the target, previous-day and next-day points in the series. It also builds the fuel comparison: every catalog entry priced on the selected date, stably sorted by ascending price. The result replaces the previous one wholesale.
- **Derived display values**: the trend arrow, the "Cheaper"/"Higher" labels of the neighbouring days, the cheapest and most-expensive cards, the ranks, and the placeholder "best time to fill up".
- **Price-alert settings**: an on/off flag, a threshold and a notification method. The settings have a toggle and setters, plus the status heading and description shown for them.

Modelling conventions:

- **Prices** are integers in thousandths of a dollar (1.95 is 1950). This matches the app's `toFixed(3)`.
- **Alert thresholds** are integers in cents, matching the slider's 0.01 step.
- **Dates** are integer day numbers, with day 0 at 1970-01-01.
  - `addDays` and `subDays` become addition.
  - `getDate()` and `getMonth()` come from a proleptic Gregorian days-to-civil conversion. The conversion is proved to be a bijection with its inverse on valid dates.
- **The sine term** `Math.sin(day * month * 0.5) * variance`, rounded to thousandths, is a parameter `sine` of type `SineOffset`.
  - `sine` is a function of `k = day * month` and the variance.
  - The model only knows that the term is bounded by the variance and is 0 when `k = 0`. This holds because `sin 0 = 0`.
- **`Date.now()`** is the parameter `now`.

Modules:

- `Wrappers` — `Option` for JavaScript's `undefined`, and `Array.prototype.find`.
- `Calendar` — day numbers and civil dates.
- `Catalog` — `FUEL_TYPES` and the fuel lookup.
- `Pricing` — `generatePrice`.
- `Series` — `generateHistoricalData`. This is a method with the source's `for` loop, proved against the function `History`.
- `Ranking` — the fuel comparison. The stable sort is an insertion sort, and a uniqueness lemma shows that every stable sort gives the same result.
- `Prediction` — `handlePredict`, the derived display values, and a class for the page state that prediction reads and writes.
- `Alerts` — the alert settings as a class, and the status text.

## Model

| member | source | states |
|---|---|---|
| Wrappers.Find | src/App.tsx:186-188 | `find` returns nothing exactly when no element matches; what it returns is an element of the array that matches |
| Wrappers.FindFirst | src/App.tsx:186-188 | `find` returns the first matching element: if element `i` matches and none before it does, that is the result |
| Calendar.DaysFromCivil | src/App.tsx:124-125 | definition: the day number of a civil date, the inverse of `CivilFromDays`; its properties are `CivilRoundTrip`, `DaysRoundTrip`, `NextDayInMonth` and `NextDayAcrossMonth` |
| Calendar.DaysInMonth | src/App.tsx:124 | every month has 28 to 31 days |
| Calendar.CivilFromDays | src/App.tsx:124-125 | the date of a day number is a valid civil date: month 1..12, day within that month's length in that year |
| Calendar.DayOfMonth | src/App.tsx:124 | `getDate()` lies in 1..31 |
| Calendar.MonthIndex | src/App.tsx:125 | `getMonth()` lies in 0..11 |
| Calendar.CivilRoundTrip | src/App.tsx:124-125 | converting a day number to its civil date and back gives the same day number |
| Calendar.NextDayInMonth | src/App.tsx:137 | within a month, `addDays(date, 1)` of day `d` is day `d + 1` of the same month |
| Calendar.NextDayAcrossMonth | src/App.tsx:137 | `addDays(date, 1)` of a month's last day is the first day of the next month, and of December 31 it is January 1 of the next year, leap years included |
| Calendar.MarchYearLength | src/App.tsx:137 | a year counted from March 1 has 366 days exactly when the February at its end is a leap February |
| Calendar.DaysRoundTrip | src/App.tsx:124-125 | converting a valid civil date to its day number and back gives the same date, so `getDate`/`getMonth` read back what a date was built from |
| Catalog.ResolveFuel | src/App.tsx:133 | definition: the catalog entry with the id, or `FUEL_TYPES[0]` when there is none; its properties are `ResolveFuelChoice` and `ResolveCatalogEntry` |
| Catalog.ResolveFuelChoice | src/App.tsx:133 | the fuel resolved for an id is a catalog entry: the entry with that id if there is one, otherwise `FUEL_TYPES[0]` |
| Catalog.CatalogIdsUnique | src/App.tsx:51-88 | no two catalog entries share an id |
| Catalog.ResolveCatalogEntry | src/App.tsx:133 | resolving a catalog entry's id gives back that entry |
| Pricing.TrendOffset | src/App.tsx:128 | the trend term `(day % 10) * 0.002` is an even number of thousandths in 0..18, and is 0 exactly on days 10, 20 and 30 |
| Pricing.GeneratePrice | src/App.tsx:123-130 | without the trend term the price lies within base ± variance; the whole price lies in [base − variance, base + variance + 0.018]; in January (month 0) the sine term vanishes and the price is base plus the trend term |
| Pricing.PriceDependsOnlyOnDayAndMonth | src/App.tsx:123-130 | two dates with the same day of month and the same month get the same price, so the price is deterministic |
| Pricing.NoVarianceNoNoise | src/App.tsx:127-129 | with zero variance the price is the base plus the trend term, in any month |
| Pricing.ScenarioMarch15 | src/App.tsx:123-130 | on 2024-03-15, if the rounded sine term for k = 30 is 0.098, Unleaded 91 costs 2.058 |
| Series.PointAt | src/App.tsx:137-144 | definition: the point for offset `i`, dated `selectedDate + i`, priced by `generatePrice` on that date, the target exactly when `i = 0`; its properties are `HistoryDates`, `HistoryTarget` and `HistoryPrices` |
| Series.History | src/App.tsx:133-146 | definition: the fifteen points for offsets −7..7 of the resolved fuel; its properties are `HistoryDates`, `HistoryTarget`, `HistoryPrices` and `UnknownFuelFallsBack` |
| Series.GenerateHistoricalData | src/App.tsx:132-148 | the loop over `i = -7..7` pushes exactly the series `History` (15 points); the loop invariant says the points pushed so far are those for offsets −7..i−1 |
| Series.HistoryDates | src/App.tsx:136-146 | 15 points; point `k` is dated `selectedDate + k − 7`; consecutive points are one day apart; dates strictly increase |
| Series.HistoryTarget | src/App.tsx:144 | a point is the target if and only if it is at index 7, and that point is dated on the selected date |
| Series.HistoryPrices | src/App.tsx:137-138 | every point's price is `generatePrice` of the resolved fuel on that point's own date |
| Series.UnknownFuelFallsBack | src/App.tsx:133 | an id missing from the catalog gives the same series as `FUEL_TYPES[0]`'s id |
| Series.ScenarioNewYear | src/App.tsx:136-146 | for 2024-01-01 the series runs from 2023-12-25 to 2024-01-08, with the target on 2024-01-01 |
| Ranking.PricedCatalog | src/App.tsx:190-192 | definition: every catalog entry with its `generatePrice` on the date, in catalog order; its properties are in `FuelComparisonsAreRanked` |
| Ranking.Insert | src/App.tsx:193 | definition: one step of the stable sort, placing an entry before the first entry whose price is not below its own; its properties are `InsertSorted`, `InsertPermutes` and `InsertWithPrice` |
| Ranking.SortByPrice | src/App.tsx:193 | definition: `sort((a, b) => a.price - b.price)` as an insertion sort; its properties are `SortByPriceSorted`, `SortByPricePermutes`, `SortByPriceStable` and `StableSortUnique` |
| Ranking.FuelComparisons | src/App.tsx:190-193 | definition: the sorted priced catalog; its properties are `FuelComparisonsAreRanked` and `FuelComparisonsUnique` |
| Ranking.Cheapest | src/App.tsx:557-560 | definition: the "Cheapest" card reads `fuelComparisons[0]`; its property is `CheapestAndMostExpensive` |
| Ranking.MostExpensive | src/App.tsx:568-571 | definition: the "Most Expensive" card reads the last entry; its property is `CheapestAndMostExpensive` |
| Ranking.Rank | src/App.tsx:590 | definition: the rank beside entry `index` is `index + 1`; its property is `RanksFollowPrice` |
| Ranking.InsertSorted | src/App.tsx:193 | inserting into a sorted list keeps it sorted and adds one entry |
| Ranking.InsertPermutes | src/App.tsx:193 | inserting adds exactly the inserted entry |
| Ranking.InsertWithPrice | src/App.tsx:193 | an inserted entry goes in front of the entries of its own price and leaves entries of other prices alone |
| Ranking.SortByPriceSorted | src/App.tsx:193 | the sort returns its input sorted by ascending price, with the same length |
| Ranking.SortByPricePermutes | src/App.tsx:193 | the sort returns a permutation of its input |
| Ranking.SortByPriceStable | src/App.tsx:193 | the sort is stable: for every price, the entries of that price keep their input order |
| Ranking.WithPriceBound | src/App.tsx:193 | a sorted list that holds an entry of price `p` starts at or below `p` |
| Ranking.StableSortUnique | src/App.tsx:193 | two sorted lists that hold, price by price, the same entries in the same order are equal, so a stable sort has only one possible result |
| Ranking.FuelComparisonsAreRanked | src/App.tsx:190-193 | the comparison has 4 entries; it is sorted by ascending price; it is a permutation of the priced catalog, so every catalog fuel appears with its `generatePrice` on the date and every entry is such a fuel; within each price it keeps catalog order |
| Ranking.FuelComparisonsUnique | src/App.tsx:190-193 | any sorted list that keeps the priced catalog's order within each price is the comparison, whatever sort algorithm produced it |
| Ranking.SortedExtremes | src/App.tsx:557-571 | in a sorted list that holds every catalog fuel at its price, the first entry is at most and the last entry is at least every catalog price |
| Ranking.CheapestAndMostExpensive | src/App.tsx:557-571 | the "Cheapest" card (first entry) and the "Most Expensive" card (last entry) are catalog fuels priced at most and at least every catalog fuel's price on the date |
| Ranking.RanksFollowPrice | src/App.tsx:578-590 | ranks run from 1 to 4, and an entry with a smaller rank never has a higher price |
| Ranking.JanuaryRanking | src/App.tsx:190-193 | in January the order is E10, Unleaded 91, Special Diesel, Premium 98, following the base prices |
| Prediction.Predict | src/App.tsx:184-202 | definition: the result `handlePredict` stores; its properties are `PredictionLookups`, `TargetPriceMatchesComparison`, `TrendOfPrediction`, `NeighbourLabelsOfPrediction` and `PanelDatesMatchPrices` |
| Prediction.HistoryLookups | src/App.tsx:186-188 | on a series for the selected date, the target lookup returns point 7, dated on that date, and the previous-day and next-day lookups return points 6 and 8, dated one day before and one day after |
| Prediction.PredictionLookups | src/App.tsx:185-188 | in every prediction result, `current`, `prev` and `next` are present and are series points 7, 6 and 8, dated on, before and after the selected date |
| Prediction.TargetPriceMatchesComparison | src/App.tsx:185-193 | for a catalog fuel, the predicted price is `generatePrice` on the selected date, and the comparison lists that fuel at that same price |
| Prediction.TrendDirection | src/App.tsx:392-406 | the arrow points up if and only if the current price is above the previous day's |
| Prediction.PriceChange | src/App.tsx:396-403 | the change printed beside the arrow is the current price less the previous day's: adding it to the previous price gives the current price, and it is positive exactly when the arrow points up |
| Prediction.TrendOfPrediction | src/App.tsx:185-187 | for a catalog fuel, a fresh prediction's arrow points up exactly when `generatePrice` rises from the day before to the selected day, and the printed change is the difference of those two prices (the arrow at line 392) |
| Prediction.NeighbourLabelsOfPrediction | src/App.tsx:503-534 | for a catalog fuel, the next-day card of a fresh prediction says "Cheaper" exactly when `generatePrice` is lower on the day after than on the selected day, and the previous-day card exactly when it was lower on the day before |
| Prediction.NeighbourLabelOf | src/App.tsx:503-508 | a neighbouring day is labelled "Cheaper" if and only if its price is below the current price, otherwise "Higher" (the same expression serves the next day's card at lines 534-539) |
| Prediction.PreviousLabelAgreesWithTrend | src/App.tsx:392 | the previous day says "Cheaper" exactly when the arrow points up; on a tie the arrow points down and the label says "Higher" |
| Prediction.OptimalFillUp | src/App.tsx:784-793 | the placeholder suggestion is two days after the date of the stored predicted point (the page reads the live date input instead; see Findings), around 6 AM, at exactly 0.08 below the predicted price |
| Prediction.FillUpOfPrediction | src/App.tsx:784-793 | for a catalog fuel, a fresh prediction suggests two days after the selected date, around 6 AM, at `generatePrice` of that fuel on the selected date less 0.08 |
| Prediction.OptimalFillUpIsPlaceholder | src/App.tsx:793 | the suggestion depends on nothing but the predicted point |
| Prediction.PanelDatesAsWritten | src/App.tsx:498-529 | the panel's dates as the page computes them come from the live date input: the selection, one day either side, and two days on for the fill-up |
| Prediction.PanelDatesOf | src/App.tsx:498-532 | the dates of the points whose prices the panel shows; the fill-up date is the suggestion's date |
| Prediction.PanelDatesGoStale | src/App.tsx:498 | after a prediction for day `d` and a date change to `d + 1`, the previous-day card is labelled `d` but shows the price of `d − 1` |
| Prediction.PanelDatesMatchPrices | src/App.tsx:498-532 | read from the result, every date on the panel is the date of the price shown beside it |
| Prediction.PredictionSession.constructor | src/App.tsx:172-176 | the page opens on `FUEL_TYPES[0]`, today's date and no result |
| Prediction.PredictionSession.SelectFuel | src/App.tsx:254 | clicking a fuel card selects that catalog entry and changes nothing else |
| Prediction.PredictionSession.SelectDate | src/App.tsx:297 | changing the date input sets the date and keeps the last result as it was |
| Prediction.PredictionSession.HandlePredict | src/App.tsx:184-202 | `handlePredict` replaces the result wholesale with the prediction for the current selection and leaves the selection alone; the new result's current price is `generatePrice` of the selected fuel on the selected date, and the comparison lists that fuel at that price |
| Alerts.MethodName | src/App.tsx:760 | definition: the method's name as the page prints it, "email" or "sms"; `DescriptionDeterminesSettings` shows the text tells the two apart |
| Alerts.DecimalString | src/App.tsx:760 | the numeral of a whole number is a non-empty string of digits |
| Alerts.DecimalRoundTrip | src/App.tsx:760 | reading back the numeral of `n` gives `n` |
| Alerts.DecimalNoLeadingZero | src/App.tsx:760 | the numeral of a positive number does not start with `0` |
| Alerts.FormatCents | src/App.tsx:760 | `toFixed(2)` of an amount in cents is the numeral of the whole dollars, a point, then the tens-of-cents digit and the cents digit |
| Alerts.FormatCentsInjective | src/App.tsx:760 | different amounts are written differently |
| Alerts.StatusTitle | src/App.tsx:756 | the heading is "Alerts Active" if and only if alerts are enabled, and "Alerts Disabled" if and only if they are not |
| Alerts.StatusDescription | src/App.tsx:759-761 | when disabled, the text is the configure prompt; when enabled, it starts with "You'll be notified via " followed by the method's name, and it ends with `toFixed(2)` of the threshold followed by "/litre" |
| Alerts.DescriptionDeterminesSettings | src/App.tsx:760 | two enabled descriptions are equal only if the method and the threshold are the same, so an enabled description determines both settings |
| Alerts.EnabledDescriptionIsNotPrompt | src/App.tsx:759-761 | an enabled description never equals the disabled prompt |
| Alerts.AlertSettings.constructor | src/App.tsx:180-182 | alerts start disabled, at 1.85, by email, and the description is the configure prompt |
| Alerts.AlertSettings.Toggle | src/App.tsx:694 | the switch flips the enabled flag, keeps the threshold and the method, and the heading flips with it |
| Alerts.AlertSettings.SetAlertPrice | src/App.tsx:708-714 | the slider sets a threshold in 1.50..2.50 and changes nothing else |
| Alerts.AlertSettings.SetAlertMethod | src/App.tsx:726-729 | a method button sets the method and changes nothing else |

## Left out

- `main.py` is not part of this model. It fetches from the 7-Eleven API, appends to a CSV file and stamps the time with `datetime.now()`. That is I/O with no computation.
- All rendering is left out: JSX, Tailwind class assembly (`cn`), `getThemeColors`, the recharts chart and its tooltip, and the icons.
- The `setTimeout` and `scrollIntoView` after a prediction are left out, because they are browser effects.
- date-fns display formatting (`'MMM dd'`, `'EEEE, MMM dd'`, `displayDate`, `fullDate`) is left out. Points carry their date values only.
- `Math.sin` and IEEE floating point are not computed. The sine term is the bounded parameter `sine`, and prices are exact thousandths.
- Pricing.GeneratePrice: rounds only the sine term, and so does not model a float sum of base and trend that lands half-way and rounds differently under `toFixed(3)`.
- Day numbers are unbounded. The range of a JavaScript `Date` (about ±100,000,000 days from 1970-01-01, up to +275760-09-13) is not modelled, and neither is the Invalid Date that `addDays` at line 137 would give within seven days of its end, which would make `format` at line 141 throw. The date input (lines 293-299) sets no `max`. So `PredictionLookups` holds for every day number, including ones past the end of that range.
- Time zones are not modelled. Dates are whole day numbers, so the local-time `Date` objects, `isSameDay`, and `new Date(e.target.value)` parsing the input as midnight UTC are all read as plain calendar days.
- The three "percent" labels are fixed text with no computation: "(0.8%)", "(-0.5%)" and "87%".
- The "Historical Accuracy" mock rows (lines 603-649) and the "Save $4.50" badge are also fixed text.
- `STORES`, the store selection and the time-of-day selection are left out. They are displayed and never feed a computation.
- `isAlertModalOpen` is left out. It only shows and hides the settings panel.
- The rule that the slider and the method buttons appear only while alerts are enabled is left out. It is UI gating; the setters model what each control does.
- Alerts have no "triggered" state. `src/App.tsx` never compares a price with the alert threshold: it stores the threshold and shows it in the status text. The model follows the code.
- Prediction.OptimalFillUp: dates the suggestion two days after the stored result's point. The page at line 784 uses `addDays(selectedDate, 2)` on the live date input, which goes stale after a date change; the model uses the corrected reading, and the Findings row covers the page's version (`PanelDatesAsWritten`, field `fillUp`).
- Prediction.PredictionSession.SelectDate: takes a valid day number only. `new Date(e.target.value)` at line 297 turns an empty or unparsable input into an Invalid Date; then every price is NaN, the neighbour lookups find nothing, and `format` at line 296 throws. A day number cannot represent an Invalid Date.
- Prediction.PriceChange: the `+` sign before a rise and the `toFixed(3)` of the change (lines 396-403) are display formatting; the model keeps the exact difference in thousandths.
- Alerts.AlertSettings.SetAlertPrice: takes the slider value as whole cents in 150..250. It does not model `Number(e.target.value)` parsing a string.

## Findings

| source | as written | input that shows it | evidently intended | confidence | as-written member | corrected member |
|---|---|---|---|---|---|---|
| src/App.tsx:498, 518, 529, 784 | the result panel labels its cards with dates computed from the live `selectedDate` (`subDays(selectedDate, 1)`, `addDays(selectedDate, 1)`, `addDays(selectedDate, 2)`), but shows prices from the stored `predictionResult`; the same pairing of live selection and stored result occurs at lines 380 and 577 (the headings format `selectedDate`) and at lines 583 and 588 (the comparison highlights the live `selectedFuel`), which the model does not cover beyond this row | predict for 2024-03-15, then pick 2024-03-16 without predicting again: the "previous day" card reads Mar 15 but shows the price of Mar 14 | each card's date is the date of the point whose price it shows, taken from the result | medium, not executed | Prediction.PanelDatesGoStale | Prediction.PanelDatesMatchPrices |
