/** Worked cases over the seeded 2026 calendar. */
module Scenarios {
  import opened Dates
  import opened Store
  import opened Rounding
  import opened Config
  import opened Pricing

  const FEBRUARY_13: CalendarDate := CalendarDate(2026, 2, 13)

  lemma FebruaryThirteenthIsFriday()
    ensures Ordinal(FEBRUARY_13) == 739660
    ensures Weekday(FEBRUARY_13) == 4
  {
    assert DaysBeforeYear(2026) == 739616;
  }

  /** The Winter Olympics and LINEAPELLE both cover Friday 13 February 2026;
      the lookup returns the Olympics (impact 10), since the only other seeded
      event with impact 10, the Salone del Mobile, is in April. */
  lemma OlympicsChosenOnFebruaryThirteenth()
    ensures Covers(LINEAPELLE, FEBRUARY_13)
    ensures EventForDate(EVENTS_2026, FEBRUARY_13) == Some(OLYMPICS)
  {
    var d := FEBRUARY_13;
    FebruaryThirteenthIsFriday();
    assert Covers(OLYMPICS, d) && Covers(LINEAPELLE, d);
    assert !Covers(SALONE_DEL_MOBILE, d);
    TopImpactEvents();
    EventForDateUniqueMaximum(EVENTS_2026, d, OLYMPICS);
  }

  /** Only the Olympics and the Salone del Mobile reach impact 10. */
  lemma TopImpactEvents()
    ensures forall x :: x in EVENTS_2026 && x != OLYMPICS && x != SALONE_DEL_MOBILE ==> x.impact < OLYMPICS.impact
  {
  }

  /** On that Friday, 55 x 2.8 x 0.95 x 1.15 = 168.245 is clamped to the
      maximum of 150; with an event and no market data, confidence is 0.8. */
  lemma OlympicFridayIsClampedToMaximum()
    ensures Price(Tables(EVENTS_2026, []), FEBRUARY_13).eventName
            == Some("Olimpiadi Invernali Milano-Cortina")
    ensures Price(Tables(EVENTS_2026, []), FEBRUARY_13).suggestedPrice == 150
    ensures Price(Tables(EVENTS_2026, []), FEBRUARY_13).confidence == 0.8
  {
    FebruaryThirteenthIsFriday();
    OlympicsChosenOnFebruaryThirteenth();
    assert MarketAverage([], FEBRUARY_13) == None;
    assert Composed(55, 0.0, 2.8, 0.95, 1.15) == 168.245;
  }

  lemma ThreeEntries(a: Factor, b: Factor, c: Factor)
    ensures [a] + [b] + [c] + [] == [a, b, c]
  {
  }

  /** The rationale for that Friday names the event, the winter season and
      the weekend day, in that order, and no market entry. */
  lemma OlympicFridayRationale()
    ensures Price(Tables(EVENTS_2026, []), FEBRUARY_13).reasoning.factors
            == [EventFactor("Olimpiadi Invernali Milano-Cortina", 2.8), SeasonFactor(0.95), DayFactor("Ven", 1.15)]
  {
    var d := FEBRUARY_13;
    FebruaryThirteenthIsFriday();
    OlympicsChosenOnFebruaryThirteenth();
    var olympics := Some(OLYMPICS);
    var expected := [EventFactor("Olimpiadi Invernali Milano-Cortina", 2.8), SeasonFactor(0.95), DayFactor("Ven", 1.15)];
    assert Price(Tables(EVENTS_2026, []), d).reasoning.factors == Rationale(olympics, 0.95, 4, 1.15, None, 0.0) by {
      assert MarketAverage([], d) == None;
      assert SeasonMultiplier(2) == 0.95 && DowMultiplier(4) == 1.15;
    }
    assert Rationale(olympics, 0.95, 4, 1.15, None, 0.0) == [expected[0]] + [expected[1]] + [expected[2]] + [] by {
      assert EventEntry(olympics) == [expected[0]];
      assert SeasonEntry(0.95) == [expected[1]];
      assert DayEntry(4, 1.15) == [expected[2]];
      assert MarketEntry(None, 0.0) == [];
    }
    ThreeEntries(expected[0], expected[1], expected[2]);
  }

  const MARCH_2: CalendarDate := CalendarDate(2026, 3, 2)

  /** Competitor rows around Monday 2 March 2026: of the five rows for the
      day, only the available, positively priced ones (60 and 70) count. */
  const PRICED_60: PriceRow := PriceRow(1, MARCH_2, Some(60.0), true)
  const PRICED_70: PriceRow := PriceRow(2, MARCH_2, Some(70.0), true)
  const UNPRICED: PriceRow := PriceRow(3, MARCH_2, None, true)
  const ZERO_PRICED: PriceRow := PriceRow(4, MARCH_2, Some(0.0), true)
  const UNAVAILABLE: PriceRow := PriceRow(5, MARCH_2, Some(90.0), false)
  const NEXT_DAY: PriceRow := PriceRow(1, CalendarDate(2026, 3, 3), Some(100.0), true)

  const MARCH_HISTORY: seq<PriceRow> := [PRICED_60, PRICED_70, UNPRICED, ZERO_PRICED, UNAVAILABLE, NEXT_DAY]

  lemma MarchSecondIsMonday()
    ensures Weekday(MARCH_2) == 0
  {
    assert DaysBeforeYear(2026) == 739616;
  }

  /** The selection of a single row. */
  lemma ObservedSingle(row: PriceRow, d: CalendarDate)
    ensures ObservedPrices([row], d) == if Observed(row, d) then [row.price.value] else []
  {
    assert [row][1..] == [];
  }

  const MARCH_KEPT: seq<PriceRow> := [PRICED_60] + [PRICED_70]
  const MARCH_DROPPED: seq<PriceRow> := [UNPRICED] + [ZERO_PRICED] + ([UNAVAILABLE] + [NEXT_DAY])

  lemma MarchKeptRows()
    ensures ObservedPrices(MARCH_KEPT, MARCH_2) == [60.0, 70.0]
  {
    ObservedPricesAppend([PRICED_60], [PRICED_70], MARCH_2);
    ObservedSingle(PRICED_60, MARCH_2);
    ObservedSingle(PRICED_70, MARCH_2);
  }

  lemma MarchDroppedRows()
    ensures ObservedPrices(MARCH_DROPPED, MARCH_2) == []
  {
    var d := MARCH_2;
    assert ObservedPrices([UNPRICED] + [ZERO_PRICED], d) == [] by {
      ObservedPricesAppend([UNPRICED], [ZERO_PRICED], d);
      ObservedSingle(UNPRICED, d);
      ObservedSingle(ZERO_PRICED, d);
    }
    assert ObservedPrices([UNAVAILABLE] + [NEXT_DAY], d) == [] by {
      ObservedPricesAppend([UNAVAILABLE], [NEXT_DAY], d);
      ObservedSingle(UNAVAILABLE, d);
      ObservedSingle(NEXT_DAY, d);
    }
    ObservedPricesAppend([UNPRICED] + [ZERO_PRICED], [UNAVAILABLE] + [NEXT_DAY], d);
  }

  lemma MarchSecondSelection()
    ensures ObservedPrices(MARCH_HISTORY, MARCH_2) == [60.0, 70.0]
  {
    assert MARCH_HISTORY == MARCH_KEPT + MARCH_DROPPED;
    ObservedPricesAppend(MARCH_KEPT, MARCH_DROPPED, MARCH_2);
    MarchKeptRows();
    MarchDroppedRows();
  }

  lemma MarchSecondAverage()
    ensures MarketAverage(MARCH_HISTORY, MARCH_2) == Some(65.0)
  {
    MarchSecondSelection();
    assert Sum([60.0, 70.0]) == 130.0;
  }

  /** With no event and a neutral season and day, the price is the weekday
      base pulled 30% of the way to the average: 42 + (65 - 42) x 0.3 = 48.9,
      suggested as 49 with confidence 0.9 and a single market entry. */
  lemma MarketPullsWeekdayPriceUp()
    ensures Price(Tables([], MARCH_HISTORY), MARCH_2).suggestedPrice == 49
    ensures Price(Tables([], MARCH_HISTORY), MARCH_2).confidence == 0.9
    ensures Price(Tables([], MARCH_HISTORY), MARCH_2).reasoning.marketAdjustment == Some(6.9)
    ensures Price(Tables([], MARCH_HISTORY), MARCH_2).reasoning.factors == [MarketFactor(65.0, 6.9)]
  {
    MarchSecondSuggestion();
    MarchSecondReasoning();
  }

  lemma MarchSecondSuggestion()
    ensures Price(Tables([], MARCH_HISTORY), MARCH_2).suggestedPrice == 49
    ensures Price(Tables([], MARCH_HISTORY), MARCH_2).confidence == 0.9
  {
    MarchSecondIsMonday();
    MarchSecondAverage();
    assert MarketAdjustment(Some(65.0), 42) == 6.9;
    assert Composed(42, 6.9, 1.0, 1.0, 1.0) == 48.9;
  }

  lemma MarchSecondReasoning()
    ensures Price(Tables([], MARCH_HISTORY), MARCH_2).reasoning.marketAdjustment == Some(6.9)
    ensures Price(Tables([], MARCH_HISTORY), MARCH_2).reasoning.factors == [MarketFactor(65.0, 6.9)]
  {
    MarchSecondIsMonday();
    MarchSecondAverage();
    assert MarketAdjustment(Some(65.0), 42) == 6.9;
    assert Rationale(None, 1.0, 0, 1.0, Some(65.0), 6.9) == [] + [] + [] + [MarketFactor(65.0, 6.9)];
  }
}
