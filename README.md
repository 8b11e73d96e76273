# Milano pricing engine, in Dafny

This project models the `PricingEngine` of the Milano short-let pricing bot
(`bot.py`). Given a calendar date, the stored events and the stored
competitor prices, the engine works out a suggested nightly price. It also
returns a rationale and a confidence score.

The engine computes:

- a base price by day of week, 55 on Friday and Saturday and 42 otherwise;
- an event factor, the multiplier of the highest-impact stored event whose
  range contains the date;
- a seasonal factor by month;
- a day-of-week factor, 1.15 on Friday and Saturday and 0.95 on Sunday;
- a market adjustment, 30% of the gap between the competitor average for
  the date and the base price;
- the composition `(base + adjustment) × event × season × day`, clamped to
  [35, 150] and rounded half to even;
- a confidence of 0.7, plus 0.2 with market data and 0.1 with an event;
- the ordered list of rationale factors.

`bot.py` is a single file. The six modules split the part of it modelled
here by concern: Python's `datetime` and `round`, the two queries, the
constants, the engine, and worked cases.

- `dates.dfy` (module `Dates`) models the calendar as Python's `datetime.date`
  sees it:
  - proleptic Gregorian ordinals (`toordinal`);
  - `weekday()`, with Monday as 0;
  - a proof that ordinal order is calendar order, which is what the SQL
    `BETWEEN` on dates compares.
- `rounding.dfy` (module `Rounding`) models Python's `round(x, 0)` and
  `round(x, 2)` as round half to even on exact reals.
- `store.dfy` (module `Store`) models the two tables as sequences of rows.
  The two queries become pure functions: the event lookup as an arg-max by
  impact, and the competitor average as the mean over selected rows.
- `config.dfy` (module `Config`) holds `PRICES_CONFIG`, the confidence
  constants and the nine seeded `EVENTS_2026` rows.
- `pricing.dfy` (module `Pricing`) holds the engine in two forms:
  - the decision as a function, `Price`;
  - `calculate_optimal_price` as an imperative method that appends to the
    factor list step by step and is proved equal to `Price`.
- `scenarios.dfy` (module `Scenarios`) works through dates of the seeded
  2026 calendar:
  - Friday 13 February, during the Olympics, where the price is clamped to
    150;
  - Monday 2 March, where competitor prices pull the price from 42 up to 49.

Monetary values and multipliers are exact reals. Weekday and month are
derived from the date rather than passed in.

## Model

| member | source | states |
|---|---|---|
| `Store.EventForDate` | bot.py:338-348 | The result, when present, is a stored event whose inclusive range contains the date, and no stored event containing the date has a higher impact score. It is absent exactly when no stored event contains the date. |
| `Store.EventForDateUniqueMaximum` | bot.py:338-348 | An event containing the date whose impact beats every other event containing the date is the one the lookup returns, whatever the table order. |
| `Store.CoversIsCalendarRange` | bot.py:343 | For valid dates, the ordinal range test is `start_date <= d <= end_date` in calendar order. |
| `Dates.Ordinal` | bot.py:343 | `date.toordinal()`, the date compared by `BETWEEN` (bot.py:343) and `date = %s` (bot.py:379): 0001-01-01 is day 1. |
| `Dates.OrdinalCountsDays` | bot.py:343 | The next calendar day, across month and year ends and leap days, has the next ordinal. With day 1 fixed, this makes `Ordinal` the day count of `toordinal()`. |
| `Dates.Weekday` | bot.py:365 | `date.weekday()`, which sets both the day factor (bot.py:365) and the base price (bot.py:393), always lies in 0..6. |
| `Dates.WeekdayOfNextDay` | bot.py:393 | The weekday advances by one, cyclically, from each calendar day to the next. With one known weekday, for example Friday 13 February 2026 in `Scenarios`, this makes `Weekday` Python's `weekday()`. |
| `Dates.OrdinalOrderIsCalendarOrder` | bot.py:343 | Ordinals of valid dates compare as the dates do: less exactly when earlier, and equal exactly when the same date. |
| `Store.ObservedPrices` | bot.py:377-379 | The selected prices are all positive. A price is selected exactly when it comes from a row for the date that is available and priced above 0. The selection is empty exactly when no such row exists. |
| `Store.ObservedPricesAppend` | bot.py:377-379 | Selecting from a table with rows appended selects the old rows' prices, then the new rows' prices. |
| `Store.MarketAverage` | bot.py:374-386 | The average is present exactly when some row for the date is available and positively priced, and it is then strictly positive. So the truthiness test on it is the presence test. |
| `Store.MarketAverageWithinObservedRange` | bot.py:374-386 | If every selected price lies in [lo, hi], so does the average. |
| `Config.SeededEventsRaisePrices` | bot.py:47-120 | Every seeded event has an impact score from 1 to 10 and a multiplier above 1. |
| `Config.SeededEventsAreIntervals` | bot.py:47-120 | Every seeded event spans valid dates, and its end is not before its start. |
| `Pricing.BasePrice` | bot.py:393-397 | The base is 55 exactly on Friday and Saturday, and 42 on every other day, Sunday included. |
| `Pricing.SeasonMultiplier` | bot.py:350-361 | The table is total over months and takes only the values 1.2, 1.1, 1.0 and 0.95. It is 1.2 exactly in June to August and below 1 exactly in December to February. Within 1..12 it is above 1 exactly from April to October, leaving 1.0 for March and November. |
| `Pricing.DowMultiplier` | bot.py:363-372 | The factor is 1.15, 0.95 or 1.0. It is above 1 exactly on Friday and Saturday, and below 1 exactly on Sunday. |
| `Pricing.WeekendAgreement` | bot.py:393-397 | The weekend base rate goes with the weekend surcharge, and Sunday, the only discounted day, keeps the weekday base. |
| `Pricing.MarketAdjustment` | bot.py:429-436 | The adjustment is 0 without market data. With market data, the base plus the adjustment is the 70/30 blend of base and average, so it lies between the two. |
| `Pricing.Clamp` | bot.py:442-445 | The result lies in [35, 150]. It is the identity inside the range, and 35 or 150 beyond each end. |
| `Pricing.SuggestedPrice` | bot.py:442-448 | The clamped and rounded price is an integer in [35, 150]. Within the range it is within 1/2 of the calculated price. |
| `Pricing.SuggestedPriceIsMonotone` | bot.py:442-448 | A higher calculated price never yields a lower suggested price. |
| `Rounding.RoundHalfEven` | bot.py:448 | `round(x, 0)` is within 1/2 of `x`, and on an exact tie it is even. |
| `Rounding.RoundHalfEvenIsUnique` | bot.py:448 | Those two conditions determine the integer, so they specify `round(x, 0)` completely. |
| `Rounding.RoundStaysWithinIntegerBounds` | bot.py:459 | Rounding a value between two integers stays between them, so the clamp bounds survive the final rounding. |
| `Rounding.RoundIsMonotone` | bot.py:459 | Rounding preserves order. |
| `Rounding.RoundCents` | bot.py:435 | `round(x, 2)` is within 0.005 of `x` and a whole number of hundredths. |
| `Pricing.Confidence` | bot.py:451-455 | Confidence is one of 0.7, 0.8, 0.9 and 1.0, and never above 1. It is 0.7 exactly without either signal, 1.0 exactly with both, and at least 0.9 with market data. It equals 0.7, plus 0.2 with market data, plus 0.1 with an event, so `round(confidence, 2)` changes none of these sums. |
| `Pricing.Rationale` | bot.py:399-436 | The factor list is in the order event, season, day, market, with at most one entry of each kind, so at most 4. Each kind appears exactly when its condition holds: an event matched, season ≠ 1, day ≠ 1, market data present. Each entry carries its values: the event entry the matched event's name and multiplier, the season entry the season multiplier, the day entry the day's Italian abbreviation and its multiplier, and the market entry the average and the adjustment. |
| `Pricing.Price` | bot.py:388-466 | The decision as a whole: <br>• the suggested price is in [35, 150] and equals `reasoning.final`; <br>• the base follows the weekend rule; <br>• event name and multiplier are present together, exactly when a stored event contains the date, and they come from a maximal-impact one; <br>• the market average is present exactly when a qualifying row exists, and is then positive; <br>• without it there is no adjustment; <br>• confidence is 0.7 plus the two bonuses; <br>• the rationale is ordered, with at most 4 entries. |
| `Pricing.CalculateOptimalPrice` | bot.py:388-466 | Building the factor list by appending and reassigning the event multiplier, adjustment and confidence step by step yields exactly the decision `Price` describes. |
| `Pricing.PriceIsComposedFromReportedFactors` | bot.py:429-448 | The suggested price and `reasoning['calculated']` follow from the reported fields alone: base, market average (adjustment 0 without one), event multiplier (1.0 without an event), and the season and day multipliers of the date's month and weekday. |
| `Pricing.LargerEventMultiplierNeverLowersPrice` | bot.py:439-448 | With everything else fixed, a larger event multiplier never lowers the suggested price, for any two multipliers. |
| `Pricing.Composed` | bot.py:439 | The composition returns the adjusted base when all three multipliers are 1, and base × season × day when there is no adjustment and the event multiplier is 1. It is positive when the adjusted base and every multiplier are positive, and at least the adjusted base when every multiplier is at least 1. |
| `Pricing.PriceWithoutSignals` | bot.py:405-455 | With no event containing the date and no market data, confidence is 0.7. The price is base × season × day, clamped and rounded, and the rationale names only season and day. |
| `Scenarios.OlympicsChosenOnFebruaryThirteenth` | bot.py:47-120 | On 13 February 2026 the Olympics and LINEAPELLE both apply, and the lookup over the seeded table returns the Olympics. |
| `Scenarios.OlympicFridayIsClampedToMaximum` | bot.py:388-466 | On Friday 13 February 2026 with no market data, 55 × 2.8 × 0.95 × 1.15 = 168.245 is clamped to 150, with confidence 0.8. |
| `Scenarios.OlympicFridayRationale` | bot.py:399-427 | That day's rationale is event, season 0.95, day "Ven" 1.15, in that order. |
| `Scenarios.MarchSecondSelection` | bot.py:377-379 | Of six competitor rows around Monday 2 March 2026, only the available, positively priced rows for that date (60 and 70) are selected. |
| `Scenarios.MarchSecondAverage` | bot.py:374-386 | Their average is 65. |
| `Scenarios.MarketPullsWeekdayPriceUp` | bot.py:429-459 | On that Monday, 42 + (65 − 42) × 0.3 = 48.9 is suggested as 49, with confidence 0.9, adjustment 6.9 and a single market entry. |

## Left out

- The `Database` class (bot.py:152-253): connection handling, schema creation and seeding are persistence plumbing. The two queries are pure functions over in-memory row sequences, and connection failures are not modelled.
- `AirbnbScraper` (bot.py:256-329) is not part of this model: it does network I/O and produces random mock prices.
- `MilanoExpressBot` and `main` (bot.py:469-693) are not part of this model: Telegram handlers, message formatting and the event loop are presentation.
- Environment-variable configuration and logging are not modelled.
- IEEE-754 floats are not modelled: multipliers, the 0.3 weight, averages and confidence are exact reals. For example, in floats 0.7 + 0.2 + 0.1 is just below 1.0, and `round(…, 2)` restores 1.0. The model adds exactly.
- `Store.EventForDate`: `ORDER BY impact_score DESC LIMIT 1` leaves the choice among equal scores to the database. The model takes the first such row in table order, and every contract about it is stated up to ties.
- NULL `impact_score` or `multiplier` columns are not modelled. PostgreSQL sorts NULLs first under `DESC`, but the seeded rows always supply both.
- `Store.MarketAverage`: `AVG` over `DECIMAL` is modelled as the exact mean. Database decimal precision is not modelled.
- `Pricing.Rationale`: the source renders each factor as a formatted string, for example `f"{market_avg:.0f}"` and `f"{market_adj:+.0f}"`. The model keeps the values the strings are made from, not their text.
- `Pricing.Price`: `round(final_price, 0)` returns a float in Python when the calculated price lies strictly inside [35, 150]. When the clamp binds, `min` and `max` return the integer bound and the result is the int 35 or 150. The model gives the suggested price and `reasoning['final']` as integers of the same value in both cases.
- Python's `date.month` and `date.weekday()` are computed from the modelled calendar. Dates outside years 1..9999 cannot be built in Python, and are not excluded here.
- The event store declares no UNIQUE constraint, so the `ON CONFLICT DO NOTHING` seeding is not idempotent. No deduplication contract is modelled. The lookup contracts hold whatever duplicates the table holds.
- The code has no event classifier and no event-ingestion pipeline, so neither is modelled.
- Confidence has no explicit cap, but its value never exceeds 1.0 (`Pricing.Confidence`).
- The event categories are the seeded Italian tags (`olimpiadi`, `paralimpiadi`, `fiera`, `moda`).
