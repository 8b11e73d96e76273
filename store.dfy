/** The two tables the pricing engine reads, as in-memory sequences of rows,
    and the two queries it runs on them (bot.py:338-348 and bot.py:374-386). */
module Store {
  import opened Dates

  datatype Option<T> = None | Some(value: T)

  /** A row of the `events` table. */
  datatype Event = Event(
    name: string,
    start: CalendarDate,
    end: CalendarDate,
    category: string,
    impact: int,
    multiplier: real)

  /** A row of the `price_history` table; `price` is a nullable DECIMAL. */
  datatype PriceRow = PriceRow(
    competitorId: int,
    date: CalendarDate,
    price: Option<real>,
    available: bool)

  /** `%s BETWEEN start_date AND end_date`: both ends inclusive. */
  predicate Covers(e: Event, d: CalendarDate) {
    Ordinal(e.start) <= Ordinal(d) <= Ordinal(e.end)
  }

  /** For valid dates, the ordinal test is the calendar test. */
  lemma {:induction false} CoversIsCalendarRange(e: Event, d: CalendarDate)
    requires Valid(e.start) && Valid(e.end) && Valid(d)
    ensures Covers(e, d) <==> !Before(d, e.start) && !Before(e.end, d)
  {
    OrdinalOrderIsCalendarOrder(d, e.start);
    OrdinalOrderIsCalendarOrder(e.end, d);
  }

  /** `get_event_for_date`: an event covering `d` with the highest impact score.
      SQL leaves the choice among equal scores open; this model takes the
      first such row in table order. */
  function EventForDate(events: seq<Event>, d: CalendarDate): (r: Option<Event>)
    ensures r.Some? ==> r.value in events && Covers(r.value, d)
    ensures r.Some? ==> forall e :: e in events && Covers(e, d) ==> e.impact <= r.value.impact
    ensures r.None? <==> forall e :: e in events ==> !Covers(e, d)
  {
    if events == [] then None
    else
      var rest := EventForDate(events[1..], d);
      var e := events[0];
      assert forall x :: x in events ==> x == e || x in events[1..];
      if Covers(e, d) && (rest.None? || rest.value.impact <= e.impact) then Some(e)
      else rest
  }

  /** The rows `WHERE date = %s AND available = true AND price > 0` selects;
      a NULL price fails `price > 0`. */
  predicate Observed(row: PriceRow, d: CalendarDate) {
    row.date == d && row.available && row.price.Some? && row.price.value > 0.0
  }

  /** The prices of the selected rows, in table order. */
  function ObservedPrices(history: seq<PriceRow>, d: CalendarDate): (ps: seq<real>)
    ensures |ps| <= |history|
    ensures forall i :: 0 <= i < |ps| ==> ps[i] > 0.0
    ensures forall row :: row in history && Observed(row, d) ==> row.price.value in ps
    ensures forall p :: p in ps ==> exists row :: row in history && Observed(row, d) && row.price.value == p
    ensures ps == [] <==> forall row :: row in history ==> !Observed(row, d)
  {
    if history == [] then []
    else
      var rest := ObservedPrices(history[1..], d);
      assert forall x :: x in history ==> x == history[0] || x in history[1..];
      if Observed(history[0], d) then [history[0].price.value] + rest else rest
  }

  /** Selecting from a table that has grown by appended rows selects the
      old rows' prices first, then the new rows'. */
  lemma {:induction false} ObservedPricesAppend(a: seq<PriceRow>, b: seq<PriceRow>, d: CalendarDate)
    ensures ObservedPrices(a + b, d) == ObservedPrices(a, d) + ObservedPrices(b, d)
  {
    if a == [] {
      assert a + b == b;
    } else {
      var ab := a + b;
      assert ab[0] == a[0] && ab[1..] == a[1..] + b;
      ObservedPricesAppend(a[1..], b, d);
    }
  }

  /** Among the events covering `d`, one whose impact beats every other is
      the one the lookup returns. */
  lemma {:induction false} EventForDateUniqueMaximum(events: seq<Event>, d: CalendarDate, e: Event)
    requires e in events && Covers(e, d)
    requires forall x :: x in events && Covers(x, d) && x != e ==> x.impact < e.impact
    ensures EventForDate(events, d) == Some(e)
  {
    var r := EventForDate(events, d);
    assert r.Some? && r.value in events && Covers(r.value, d);
    assert e.impact <= r.value.impact;
  }

  function Sum(ps: seq<real>): real {
    if ps == [] then 0.0 else ps[0] + Sum(ps[1..])
  }

  /** A sum of positive terms is positive. */
  lemma {:induction false} SumPositive(ps: seq<real>)
    requires ps != []
    requires forall i :: 0 <= i < |ps| ==> ps[i] > 0.0
    ensures Sum(ps) > 0.0
  {
    if |ps| > 1 {
      SumPositive(ps[1..]);
    }
  }

  /** Each term at least `lo` and at most `hi` bounds the sum by `n * lo` and `n * hi`. */
  lemma {:induction false} SumBetween(ps: seq<real>, lo: real, hi: real)
    requires forall i :: 0 <= i < |ps| ==> lo <= ps[i] <= hi
    ensures |ps| as real * lo <= Sum(ps) <= |ps| as real * hi
  {
    if ps != [] {
      SumBetween(ps[1..], lo, hi);
    }
  }

  lemma QuotientBetween(s: real, n: real, lo: real, hi: real)
    requires n > 0.0 && n * lo <= s <= n * hi
    ensures lo <= s / n <= hi
  {
    assert s / n * n == s;
  }

  /** `get_market_average`: `AVG(price)` over the selected rows, or no value
      when there are none (`AVG` of no rows is NULL). The source's further
      truthiness test on the average (bot.py:384) never fails, because the
      average of positive prices is positive. */
  function MarketAverage(history: seq<PriceRow>, d: CalendarDate): (r: Option<real>)
    ensures r.Some? <==> exists row :: row in history && Observed(row, d)
    ensures r.Some? ==> r.value > 0.0
  {
    var ps := ObservedPrices(history, d);
    if ps == [] then None
    else
      SumPositive(ps);
      Some(Sum(ps) / |ps| as real)
  }

  /** Every selected price lies in [lo, hi], so their average does too. */
  lemma MeanBetween(ps: seq<real>, lo: real, hi: real)
    requires ps != []
    requires forall i :: 0 <= i < |ps| ==> lo <= ps[i] <= hi
    ensures lo <= Sum(ps) / |ps| as real <= hi
  {
    SumBetween(ps, lo, hi);
    QuotientBetween(Sum(ps), |ps| as real, lo, hi);
  }

  lemma {:induction false} MarketAverageWithinObservedRange(history: seq<PriceRow>, d: CalendarDate, lo: real, hi: real)
    requires forall row :: row in history && Observed(row, d) ==> lo <= row.price.value <= hi
    ensures MarketAverage(history, d).Some? ==> lo <= MarketAverage(history, d).value <= hi
  {
    var ps := ObservedPrices(history, d);
    if ps != [] {
      forall i | 0 <= i < |ps| ensures lo <= ps[i] <= hi {
        assert ps[i] in ps;
      }
      MeanBetween(ps, lo, hi);
    }
  }
}
