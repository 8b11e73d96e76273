/** The fixed pricing configuration and the seeded 2026 event calendar
    (`PRICES_CONFIG`, bot.py:37-44, and `EVENTS_2026`, bot.py:47-120). */
module Config {
  import opened Dates
  import opened Store

  const BASE_WEEKDAY: int := 42       // Monday to Thursday, and Sunday
  const BASE_WEEKEND: int := 55       // Friday and Saturday
  const MIN_PRICE: int := 35
  const MAX_PRICE: int := 150
  const WEEKEND_MULTIPLIER: real := 1.15
  const SUNDAY_DISCOUNT: real := 0.95

  /** Weight of the gap to the competitor average (bot.py:433). */
  const MARKET_WEIGHT: real := 0.3

  /** Confidence before any bonus, and the two bonuses (bot.py:451-455). */
  const BASE_CONFIDENCE: real := 0.7
  const MARKET_BONUS: real := 0.2
  const EVENT_BONUS: real := 0.1

  /** Italian day abbreviations indexed by `weekday()` (bot.py:426). */
  const DAY_NAMES: seq<string> := ["Lun", "Mar", "Mer", "Gio", "Ven", "Sab", "Dom"]

  const OLYMPICS: Event :=
    Event("Olimpiadi Invernali Milano-Cortina", CalendarDate(2026, 2, 6), CalendarDate(2026, 2, 22), "olimpiadi", 10, 2.8)
  const PARALYMPICS: Event :=
    Event("Paralimpiadi Invernali", CalendarDate(2026, 3, 6), CalendarDate(2026, 3, 15), "paralimpiadi", 8, 2.0)
  const SALONE_DEL_MOBILE: Event :=
    Event("Salone del Mobile Milano", CalendarDate(2026, 4, 21), CalendarDate(2026, 4, 26), "fiera", 10, 2.3)
  const FASHION_WEEK_FW: Event :=
    Event("Milano Fashion Week Uomo FW", CalendarDate(2026, 1, 16), CalendarDate(2026, 1, 20), "moda", 7, 1.4)
  const FASHION_WEEK_SS: Event :=
    Event("Milano Fashion Week Uomo SS", CalendarDate(2026, 6, 19), CalendarDate(2026, 6, 23), "moda", 7, 1.4)
  const HOMI: Event :=
    Event("HOMI Milano", CalendarDate(2026, 1, 22), CalendarDate(2026, 1, 25), "fiera", 5, 1.2)
  const MICAM: Event :=
    Event("MICAM Milano", CalendarDate(2026, 2, 22), CalendarDate(2026, 2, 24), "fiera", 6, 1.3)
  const LINEAPELLE: Event :=
    Event("LINEAPELLE", CalendarDate(2026, 2, 11), CalendarDate(2026, 2, 13), "fiera", 5, 1.2)
  const TUTTOFOOD: Event :=
    Event("TUTTOFOOD", CalendarDate(2026, 5, 11), CalendarDate(2026, 5, 14), "fiera", 6, 1.4)

  /** The rows `init_schema` inserts into `events`, in insertion order. */
  const EVENTS_2026: seq<Event> := [
    OLYMPICS, PARALYMPICS, SALONE_DEL_MOBILE, FASHION_WEEK_FW, FASHION_WEEK_SS,
    HOMI, MICAM, LINEAPELLE, TUTTOFOOD
  ]

  /** Every seeded event raises the price, with an impact score from 1 to 10. */
  lemma SeededEventsRaisePrices()
    ensures forall e :: e in EVENTS_2026 ==> 1 <= e.impact <= 10 && e.multiplier > 1.0
  {
  }

  /** Every seeded event is a non-empty interval of valid dates. */
  lemma SeededEventsAreIntervals()
    ensures forall i :: 0 <= i < |EVENTS_2026| ==>
      Valid(EVENTS_2026[i].start) && Valid(EVENTS_2026[i].end) && !Before(EVENTS_2026[i].end, EVENTS_2026[i].start)
  {
    forall i | 0 <= i < |EVENTS_2026|
      ensures Valid(EVENTS_2026[i].start) && Valid(EVENTS_2026[i].end)
      ensures !Before(EVENTS_2026[i].end, EVENTS_2026[i].start)
    {
      var e := EVENTS_2026[i];
      assert e.start.year == 2026 && e.end.year == 2026;
    }
  }
}
