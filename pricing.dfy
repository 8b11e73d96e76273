/** `PricingEngine` (bot.py:332-466): from a date and the stored events and
    competitor prices to a clamped, rounded nightly price with its rationale
    and a confidence score. */
module Pricing {
  import opened Dates
  import opened Store
  import opened Rounding
  import opened Config

  /** One entry of `reasoning['factors']`. The source renders each as a
      string; the model keeps the values the string is made from. */
  datatype Factor =
    | EventFactor(name: string, multiplier: real)
    | SeasonFactor(multiplier: real)
    | DayFactor(dayName: string, multiplier: real)
    | MarketFactor(average: real, adjustment: real)

  /** `reasoning['event']`. */
  datatype EventNote = EventNote(name: string, multiplier: real)

  /** The `reasoning` dictionary; an absent key is `None`. */
  datatype Reasoning = Reasoning(
    basePrice: int,
    factors: seq<Factor>,
    event: Option<EventNote>,
    seasonMultiplier: real,
    dowMultiplier: real,
    marketAvg: Option<real>,
    marketAdjustment: Option<real>,
    calculated: real,
    final: int)

  /** The dictionary `calculate_optimal_price` returns. */
  datatype Decision = Decision(
    date: CalendarDate,
    suggestedPrice: int,
    basePrice: int,
    marketAvg: Option<real>,
    eventMultiplier: Option<real>,
    eventName: Option<string>,
    reasoning: Reasoning,
    confidence: real)

  /** The stored state the engine reads. */
  datatype Tables = Tables(events: seq<Event>, history: seq<PriceRow>)

  /** Base price (bot.py:393-397): the weekend rate on Friday and Saturday
      only; Sunday starts from the weekday rate. */
  function BasePrice(dow: int): (p: int)
    ensures p == BASE_WEEKEND <==> dow == 4 || dow == 5
    ensures p == BASE_WEEKDAY <==> !(dow == 4 || dow == 5)
  {
    if dow == 4 || dow == 5 then BASE_WEEKEND else BASE_WEEKDAY
  }

  /** `get_season_multiplier` (bot.py:350-361). */
  function SeasonMultiplier(month: int): (m: real)
    ensures m == 1.2 || m == 1.1 || m == 1.0 || m == 0.95
    ensures 1 <= month <= 12 ==> (m > 1.0 <==> 4 <= month <= 10)
    ensures m == 1.2 <==> month == 6 || month == 7 || month == 8
    ensures m < 1.0 <==> month == 12 || month == 1 || month == 2
    ensures !(1 <= month <= 12) ==> m == 1.0
  {
    if month in {6, 7, 8} then 1.2
    else if month in {4, 5, 9, 10} then 1.1
    else if month in {12, 1, 2} then 0.95
    else 1.0
  }

  /** `get_dow_multiplier` (bot.py:363-372). */
  function DowMultiplier(dow: int): (m: real)
    ensures m > 1.0 <==> dow == 4 || dow == 5
    ensures m < 1.0 <==> dow == 6
    ensures m == WEEKEND_MULTIPLIER || m == SUNDAY_DISCOUNT || m == 1.0
  {
    if dow in {4, 5} then WEEKEND_MULTIPLIER
    else if dow == 6 then SUNDAY_DISCOUNT
    else 1.0
  }

  /** Market adjustment (bot.py:431-433): 30% of the way from the base price
      to the competitor average, and nothing without market data. */
  function MarketAdjustment(avg: Option<real>, base: int): (adj: real)
    ensures avg.None? ==> adj == 0.0
    ensures avg.Some? ==> base as real + adj == (1.0 - MARKET_WEIGHT) * base as real + MARKET_WEIGHT * avg.value
    ensures avg.Some? && avg.value >= base as real ==> base as real <= base as real + adj <= avg.value
    ensures avg.Some? && avg.value <= base as real ==> avg.value <= base as real + adj <= base as real
  {
    if avg.Some? then (avg.value - base as real) * MARKET_WEIGHT else 0.0
  }

  /** `max(MIN_PRICE, min(MAX_PRICE, x))` (bot.py:442-445). */
  function Clamp(x: real): (c: real)
    ensures MIN_PRICE as real <= c <= MAX_PRICE as real
    ensures MIN_PRICE as real <= x <= MAX_PRICE as real ==> c == x
    ensures x < MIN_PRICE as real ==> c == MIN_PRICE as real
    ensures x > MAX_PRICE as real ==> c == MAX_PRICE as real
  {
    var capped := if x < MAX_PRICE as real then x else MAX_PRICE as real;
    if capped > MIN_PRICE as real then capped else MIN_PRICE as real
  }

  /** The suggested price (bot.py:442-445, 459): the clamped price rounded to
      a whole unit; rounding cannot leave the integer bounds. */
  function SuggestedPrice(calculated: real): (p: int)
    ensures MIN_PRICE <= p <= MAX_PRICE
    ensures MIN_PRICE as real <= calculated <= MAX_PRICE as real ==>
              calculated - 0.5 <= p as real <= calculated + 0.5
  {
    var clamped := Clamp(calculated);
    RoundStaysWithinIntegerBounds(clamped, MIN_PRICE, MAX_PRICE);
    RoundHalfEven(clamped)
  }

  /** Confidence (bot.py:451-455, 465): the base, plus a bonus for market data
      and one for a matched event, rounded to hundredths. */
  function Confidence(hasMarket: bool, hasEvent: bool): (c: real)
    ensures c == 0.7 || c == 0.8 || c == 0.9 || c == 1.0
    ensures c <= 1.0
    ensures c == 0.7 <==> !hasMarket && !hasEvent
    ensures c == 1.0 <==> hasMarket && hasEvent
    ensures hasMarket ==> c >= 0.9
    ensures c == BASE_CONFIDENCE + (if hasMarket then MARKET_BONUS else 0.0) + (if hasEvent then EVENT_BONUS else 0.0)
  {
    var raw := BASE_CONFIDENCE
      + (if hasMarket then MARKET_BONUS else 0.0)
      + (if hasEvent then EVENT_BONUS else 0.0);
    RoundCents(raw)
  }

  /** Position of a factor kind in the order the engine evaluates them. */
  function Rank(f: Factor): nat {
    match f
    case EventFactor(_, _) => 0
    case SeasonFactor(_) => 1
    case DayFactor(_, _) => 2
    case MarketFactor(_, _) => 3
  }

  /** Strictly increasing rank: at most one entry per kind, kinds in order. */
  predicate InEvaluationOrder(fs: seq<Factor>) {
    forall i, j :: 0 <= i < j < |fs| ==> Rank(fs[i]) < Rank(fs[j])
  }

  /** At most one entry, all of kind `k`. */
  predicate OfKind(xs: seq<Factor>, k: nat) {
    |xs| <= 1 && forall i :: 0 <= i < |xs| ==> Rank(xs[i]) == k
  }

  function EventEntry(event: Option<Event>): seq<Factor> {
    if event.Some? then [EventFactor(event.value.name, event.value.multiplier)] else []
  }

  function SeasonEntry(season: real): seq<Factor> {
    if season != 1.0 then [SeasonFactor(season)] else []
  }

  function DayEntry(dow: int, dowMult: real): seq<Factor>
    requires 0 <= dow <= 6
  {
    if dowMult != 1.0 then [DayFactor(DAY_NAMES[dow], dowMult)] else []
  }

  function MarketEntry(market: Option<real>, adj: real): seq<Factor> {
    if market.Some? then [MarketFactor(market.value, adj)] else []
  }

  /** Where each entry of `e + s + w + m` comes from. */
  lemma LayoutAt(e: seq<Factor>, s: seq<Factor>, w: seq<Factor>, m: seq<Factor>, i: int)
    requires 0 <= i < |e + s + w + m|
    ensures i < |e| ==> (e + s + w + m)[i] == e[i]
    ensures |e| <= i < |e + s| ==> (e + s + w + m)[i] == s[i - |e|]
    ensures |e + s| <= i < |e + s + w| ==> (e + s + w + m)[i] == w[i - |e + s|]
    ensures |e + s + w| <= i ==> (e + s + w + m)[i] == m[i - |e + s + w|]
  {
  }

  /** The rank of each entry of the concatenation, by position. */
  lemma LayoutRank(e: seq<Factor>, s: seq<Factor>, w: seq<Factor>, m: seq<Factor>, i: int)
    requires OfKind(e, 0) && OfKind(s, 1) && OfKind(w, 2) && OfKind(m, 3)
    requires 0 <= i < |e + s + w + m|
    ensures Rank((e + s + w + m)[i]) == (if i < |e| then 0 else if i < |e + s| then 1 else if i < |e + s + w| then 2 else 3)
  {
    LayoutAt(e, s, w, m, i);
    if i < |e| {
      assert Rank(e[i]) == 0;
    } else if i < |e + s| {
      assert Rank(s[i - |e|]) == 1;
    } else if i < |e + s + w| {
      assert Rank(w[i - |e + s|]) == 2;
    } else {
      assert Rank(m[i - |e + s + w|]) == 3;
    }
  }

  /** Kinds in rank order, at most one of each. */
  lemma LayoutOrder(e: seq<Factor>, s: seq<Factor>, w: seq<Factor>, m: seq<Factor>)
    requires OfKind(e, 0) && OfKind(s, 1) && OfKind(w, 2) && OfKind(m, 3)
    ensures InEvaluationOrder(e + s + w + m) && |e + s + w + m| <= 4
  {
    var fs := e + s + w + m;
    forall i, j | 0 <= i < j < |fs|
      ensures Rank(fs[i]) < Rank(fs[j])
    {
      LayoutRank(e, s, w, m, i);
      LayoutRank(e, s, w, m, j);
    }
  }

  /** An entry of kind `k` is the entry the `k`-th list contributes. */
  lemma LayoutValues(e: seq<Factor>, s: seq<Factor>, w: seq<Factor>, m: seq<Factor>)
    requires OfKind(e, 0) && OfKind(s, 1) && OfKind(w, 2) && OfKind(m, 3)
    ensures forall i :: 0 <= i < |e + s + w + m| && Rank((e + s + w + m)[i]) == 0 ==> e != [] && (e + s + w + m)[i] == e[0]
    ensures forall i :: 0 <= i < |e + s + w + m| && Rank((e + s + w + m)[i]) == 1 ==> s != [] && (e + s + w + m)[i] == s[0]
    ensures forall i :: 0 <= i < |e + s + w + m| && Rank((e + s + w + m)[i]) == 2 ==> w != [] && (e + s + w + m)[i] == w[0]
    ensures forall i :: 0 <= i < |e + s + w + m| && Rank((e + s + w + m)[i]) == 3 ==> m != [] && (e + s + w + m)[i] == m[0]
  {
    forall i | 0 <= i < |e + s + w + m|
      ensures Rank((e + s + w + m)[i]) == 0 ==> e != [] && (e + s + w + m)[i] == e[0]
      ensures Rank((e + s + w + m)[i]) == 1 ==> s != [] && (e + s + w + m)[i] == s[0]
      ensures Rank((e + s + w + m)[i]) == 2 ==> w != [] && (e + s + w + m)[i] == w[0]
      ensures Rank((e + s + w + m)[i]) == 3 ==> m != [] && (e + s + w + m)[i] == m[0]
    {
      LayoutAt(e, s, w, m, i);
      LayoutRank(e, s, w, m, i);
    }
  }

  /** Each non-empty list's entry appears in the concatenation. */
  lemma LayoutWitnesses(e: seq<Factor>, s: seq<Factor>, w: seq<Factor>, m: seq<Factor>)
    ensures e != [] ==> |e + s + w + m| > 0 && (e + s + w + m)[0] == e[0]
    ensures s != [] ==> |e| < |e + s + w + m| && (e + s + w + m)[|e|] == s[0]
    ensures w != [] ==> |e + s| < |e + s + w + m| && (e + s + w + m)[|e + s|] == w[0]
    ensures m != [] ==> |e + s + w| < |e + s + w + m| && (e + s + w + m)[|e + s + w|] == m[0]
  {
  }

  /** `reasoning['factors']` (bot.py:399-436): one entry for each factor that
      is not the identity, in the order event, season, day of week, market. */
  function Rationale(event: Option<Event>, season: real, dow: int, dowMult: real,
                     market: Option<real>, adj: real): (fs: seq<Factor>)
    requires 0 <= dow <= 6
    ensures InEvaluationOrder(fs) && |fs| <= 4
    ensures (exists i :: 0 <= i < |fs| && fs[i].EventFactor?) <==> event.Some?
    ensures (exists i :: 0 <= i < |fs| && fs[i].SeasonFactor?) <==> season != 1.0
    ensures (exists i :: 0 <= i < |fs| && fs[i].DayFactor?) <==> dowMult != 1.0
    ensures (exists i :: 0 <= i < |fs| && fs[i].MarketFactor?) <==> market.Some?
    ensures forall i :: 0 <= i < |fs| && fs[i].EventFactor? ==>
              event.Some? && fs[i] == EventFactor(event.value.name, event.value.multiplier)
    ensures forall i :: 0 <= i < |fs| && fs[i].MarketFactor? ==>
              market.Some? && fs[i] == MarketFactor(market.value, adj)
    ensures forall i :: 0 <= i < |fs| && fs[i].SeasonFactor? ==> fs[i] == SeasonFactor(season)
    ensures forall i :: 0 <= i < |fs| && fs[i].DayFactor? ==> fs[i] == DayFactor(DAY_NAMES[dow], dowMult)
  {
    var e := EventEntry(event);
    var s := SeasonEntry(season);
    var w := DayEntry(dow, dowMult);
    var m := MarketEntry(market, adj);
    assert OfKind(e, 0) && OfKind(s, 1) && OfKind(w, 2) && OfKind(m, 3);
    LayoutOrder(e, s, w, m);
    EntriesPresent(event, season, dow, dowMult, market, adj);
    EntriesValues(event, season, dow, dowMult, market, adj);
    e + s + w + m
  }

  /** Each entry of the rationale is there exactly when its factor applies. */
  lemma EntriesPresent(event: Option<Event>, season: real, dow: int, dowMult: real,
                       market: Option<real>, adj: real)
    requires 0 <= dow <= 6
    ensures var fs := EventEntry(event) + SeasonEntry(season) + DayEntry(dow, dowMult) + MarketEntry(market, adj);
      && ((exists i :: 0 <= i < |fs| && fs[i].EventFactor?) <==> event.Some?)
      && ((exists i :: 0 <= i < |fs| && fs[i].SeasonFactor?) <==> season != 1.0)
      && ((exists i :: 0 <= i < |fs| && fs[i].DayFactor?) <==> dowMult != 1.0)
      && ((exists i :: 0 <= i < |fs| && fs[i].MarketFactor?) <==> market.Some?)
  {
    var e := EventEntry(event);
    var s := SeasonEntry(season);
    var w := DayEntry(dow, dowMult);
    var m := MarketEntry(market, adj);
    assert OfKind(e, 0) && OfKind(s, 1) && OfKind(w, 2) && OfKind(m, 3);
    LayoutValues(e, s, w, m);
    LayoutWitnesses(e, s, w, m);
  }

  /** Each entry of the rationale carries its factor's values. */
  lemma EntriesValues(event: Option<Event>, season: real, dow: int, dowMult: real,
                      market: Option<real>, adj: real)
    requires 0 <= dow <= 6
    ensures var fs := EventEntry(event) + SeasonEntry(season) + DayEntry(dow, dowMult) + MarketEntry(market, adj);
      && (forall i :: 0 <= i < |fs| && fs[i].EventFactor? ==>
            event.Some? && fs[i] == EventFactor(event.value.name, event.value.multiplier))
      && (forall i :: 0 <= i < |fs| && fs[i].MarketFactor? ==>
            market.Some? && fs[i] == MarketFactor(market.value, adj))
      && (forall i :: 0 <= i < |fs| && fs[i].SeasonFactor? ==> fs[i] == SeasonFactor(season))
      && (forall i :: 0 <= i < |fs| && fs[i].DayFactor? ==> fs[i] == DayFactor(DAY_NAMES[dow], dowMult))
  {
    var e := EventEntry(event);
    var s := SeasonEntry(season);
    var w := DayEntry(dow, dowMult);
    var m := MarketEntry(market, adj);
    assert OfKind(e, 0) && OfKind(s, 1) && OfKind(w, 2) && OfKind(m, 3);
    LayoutValues(e, s, w, m);
  }

  /** Composition (bot.py:439): the base price moved by the market
      adjustment, then scaled by the three factors. */
  function Composed(base: int, adj: real, eventMult: real, season: real, dowMult: real): (c: real)
    ensures eventMult == 1.0 && season == 1.0 && dowMult == 1.0 ==> c == base as real + adj
    ensures adj == 0.0 && eventMult == 1.0 ==> c == base as real * season * dowMult
    ensures base as real + adj > 0.0 && eventMult > 0.0 && season > 0.0 && dowMult > 0.0 ==> c > 0.0
    ensures base as real + adj > 0.0 && eventMult >= 1.0 && season >= 1.0 && dowMult >= 1.0 ==> c >= base as real + adj
  {
    Scaling(base, adj, eventMult, season, dowMult);
    (base as real + adj) * eventMult * season * dowMult
  }

  /** The three facts about scaling the moved base: unit event factor and no
      adjustment leave base times season times day; positive factors keep a
      positive amount positive; factors of at least one do not shrink it. */
  lemma Scaling(base: int, adj: real, e: real, s: real, w: real)
    ensures adj == 0.0 && e == 1.0 ==> (base as real + adj) * e * s * w == base as real * s * w
    ensures base as real + adj > 0.0 && e > 0.0 && s > 0.0 && w > 0.0 ==> (base as real + adj) * e * s * w > 0.0
    ensures base as real + adj > 0.0 && e >= 1.0 && s >= 1.0 && w >= 1.0 ==> (base as real + adj) * e * s * w >= base as real + adj
  {
    var x := base as real + adj;
    if adj == 0.0 && e == 1.0 {
      assert x * e == base as real;
    }
    if x > 0.0 && e > 0.0 && s > 0.0 && w > 0.0 {
      assert x * e > 0.0;
      assert x * e * s > 0.0;
    }
    if x > 0.0 && e >= 1.0 && s >= 1.0 && w >= 1.0 {
      assert x * e >= x;
      assert x * e * s >= x * e;
      assert x * e * s * w >= x * e * s;
    }
  }

  /** `calculate_optimal_price` (bot.py:388-466) as a value. */
  function Price(t: Tables, d: CalendarDate): (r: Decision)
    ensures MIN_PRICE <= r.suggestedPrice <= MAX_PRICE
    ensures r.reasoning.final == r.suggestedPrice
    ensures r.basePrice == (if Weekday(d) == 4 || Weekday(d) == 5 then BASE_WEEKEND else BASE_WEEKDAY)
    ensures r.eventName.Some? <==> r.eventMultiplier.Some?
    ensures r.eventName.Some? <==> exists e :: e in t.events && Covers(e, d)
    ensures r.eventName.Some? ==>
              (exists e :: e in t.events && Covers(e, d)
                 && e.name == r.eventName.value && e.multiplier == r.eventMultiplier.value
                 && forall e' :: e' in t.events && Covers(e', d) ==> e'.impact <= e.impact)
    ensures r.marketAvg.Some? <==> exists row :: row in t.history && Observed(row, d)
    ensures r.marketAvg.Some? ==> r.marketAvg.value > 0.0
    ensures r.marketAvg.None? ==> r.reasoning.marketAdjustment.None?
    ensures r.confidence == BASE_CONFIDENCE
              + (if r.marketAvg.Some? then MARKET_BONUS else 0.0)
              + (if r.eventName.Some? then EVENT_BONUS else 0.0)
    ensures InEvaluationOrder(r.reasoning.factors) && |r.reasoning.factors| <= 4
  {
    var dow := Weekday(d);
    var base := BasePrice(dow);
    var event := EventForDate(t.events, d);
    var eventMult := if event.Some? then event.value.multiplier else 1.0;
    var season := SeasonMultiplier(d.month);
    var dowMult := DowMultiplier(dow);
    var market := MarketAverage(t.history, d);
    var adj := MarketAdjustment(market, base);
    var calculated := Composed(base, adj, eventMult, season, dowMult);
    var suggested := SuggestedPrice(calculated);
    Decision(
      d,
      suggested,
      base,
      market,
      if event.Some? then Some(eventMult) else None,
      if event.Some? then Some(event.value.name) else None,
      Reasoning(
        base,
        Rationale(event, season, dow, dowMult, market, adj),
        if event.Some? then Some(EventNote(event.value.name, eventMult)) else None,
        season,
        dowMult,
        market,
        if market.Some? then Some(RoundCents(adj)) else None,
        RoundCents(calculated),
        suggested),
      Confidence(market.Some?, event.Some?))
  }

  /** `calculate_optimal_price` step by step: the factor list is appended to
      as each factor is evaluated, and the event multiplier, the market
      adjustment and the confidence are reassigned as in the source. */
  method CalculateOptimalPrice(t: Tables, d: CalendarDate) returns (r: Decision)
    ensures r == Price(t, d)
  {
    var dow := Weekday(d);
    var basePrice: int;
    if dow == 4 || dow == 5 {
      basePrice := BASE_WEEKEND;
    } else {
      basePrice := BASE_WEEKDAY;
    }
    var factors: seq<Factor> := [];

    // 1. events
    var event := EventForDate(t.events, d);
    var eventMult: real;
    var eventNote: Option<EventNote> := None;
    if event.Some? {
      eventMult := event.value.multiplier;
      eventNote := Some(EventNote(event.value.name, eventMult));
      factors := factors + [EventFactor(event.value.name, eventMult)];
    } else {
      eventMult := 1.0;
    }
    assert factors == EventEntry(event);

    // 2. season
    var seasonMult := SeasonMultiplier(d.month);
    if seasonMult != 1.0 {
      factors := factors + [SeasonFactor(seasonMult)];
    }
    assert factors == EventEntry(event) + SeasonEntry(seasonMult);

    // 3. day of week
    var dowMult := DowMultiplier(dow);
    if dowMult != 1.0 {
      factors := factors + [DayFactor(DAY_NAMES[dow], dowMult)];
    }
    assert factors == EventEntry(event) + SeasonEntry(seasonMult) + DayEntry(dow, dowMult);

    // 4. market average
    var marketAvg := MarketAverage(t.history, d);
    var marketAdj := 0.0;
    var roundedAdj: Option<real> := None;
    if marketAvg.Some? {
      marketAdj := (marketAvg.value - basePrice as real) * MARKET_WEIGHT;
      roundedAdj := Some(RoundCents(marketAdj));
      factors := factors + [MarketFactor(marketAvg.value, marketAdj)];
    }
    assert factors == EventEntry(event) + SeasonEntry(seasonMult) + DayEntry(dow, dowMult)
                      + MarketEntry(marketAvg, marketAdj);

    var calculatedPrice := Composed(basePrice, marketAdj, eventMult, seasonMult, dowMult);
    var finalPrice := Clamp(calculatedPrice);
    var suggested := RoundHalfEven(finalPrice);

    var confidence := BASE_CONFIDENCE;
    if marketAvg.Some? {
      confidence := confidence + MARKET_BONUS;
    }
    if event.Some? {
      confidence := confidence + EVENT_BONUS;
    }

    assert basePrice == BasePrice(dow);
    assert marketAdj == MarketAdjustment(marketAvg, basePrice);
    assert factors == Rationale(event, seasonMult, dow, dowMult, marketAvg, marketAdj);
    assert suggested == SuggestedPrice(calculatedPrice);
    assert RoundCents(confidence) == Confidence(marketAvg.Some?, event.Some?);
    r := Decision(
      d,
      suggested,
      basePrice,
      marketAvg,
      if event.Some? then Some(eventMult) else None,
      if event.Some? then Some(event.value.name) else None,
      Reasoning(basePrice, factors, eventNote, seasonMult, dowMult, marketAvg, roundedAdj,
                RoundCents(calculatedPrice), suggested),
      RoundCents(confidence));
  }

  /** Clamping and rounding never reverse the order of two calculated prices. */
  lemma SuggestedPriceIsMonotone(x: real, y: real)
    requires x <= y
    ensures SuggestedPrice(x) <= SuggestedPrice(y)
  {
    RoundIsMonotone(Clamp(x), Clamp(y));
  }

  /** Between two events, the one with the larger multiplier never yields a
      lower suggested price, all else equal: the adjusted base is positive
      and the other factors are positive. */
  lemma {:induction false} LargerEventMultiplierNeverLowersPrice(
    base: int, market: Option<real>, season: real, dowMult: real, m1: real, m2: real)
    requires base == BASE_WEEKDAY || base == BASE_WEEKEND
    requires market.Some? ==> market.value > 0.0
    requires season > 0.0 && dowMult > 0.0
    requires m1 <= m2
    ensures SuggestedPrice(Composed(base, MarketAdjustment(market, base), m1, season, dowMult))
         <= SuggestedPrice(Composed(base, MarketAdjustment(market, base), m2, season, dowMult))
  {
    var adj := MarketAdjustment(market, base);
    var adjusted := base as real + adj;
    assert adjusted > 0.0;
    var k := season * dowMult;
    assert k > 0.0;
    var x1 := adjusted * m1;
    var x2 := adjusted * m2;
    assert x1 <= x2;
    assert x1 * k <= x2 * k;
    assert Composed(base, adj, m1, season, dowMult) == x1 * k;
    assert Composed(base, adj, m2, season, dowMult) == x2 * k;
    SuggestedPriceIsMonotone(Composed(base, adj, m1, season, dowMult), Composed(base, adj, m2, season, dowMult));
  }

  /** With neither a covering event nor market data for the date, the price
      rests on the base, season and day of week alone, confidence is the base
      value, and the rationale names only season and day of week. */
  lemma {:induction false} PriceWithoutSignals(t: Tables, d: CalendarDate)
    requires forall e :: e in t.events ==> !Covers(e, d)
    requires forall row :: row in t.history ==> !Observed(row, d)
    ensures Price(t, d).confidence == BASE_CONFIDENCE
    ensures Price(t, d).eventName.None? && Price(t, d).marketAvg.None?
    ensures Price(t, d).suggestedPrice
         == SuggestedPrice(BasePrice(Weekday(d)) as real * SeasonMultiplier(d.month) * DowMultiplier(Weekday(d)))
    ensures forall f :: f in Price(t, d).reasoning.factors ==> f.SeasonFactor? || f.DayFactor?
  {
    assert EventForDate(t.events, d).None?;
    assert MarketAverage(t.history, d).None?;
    assert Price(t, d).suggestedPrice
        == SuggestedPrice(Composed(BasePrice(Weekday(d)), 0.0, 1.0, SeasonMultiplier(d.month), DowMultiplier(Weekday(d))));
    assert Price(t, d).reasoning.factors
        == Rationale(None, SeasonMultiplier(d.month), Weekday(d), DowMultiplier(Weekday(d)), None, 0.0);
    OnlyCalendarEntries(SeasonMultiplier(d.month), Weekday(d), DowMultiplier(Weekday(d)));
  }

  /** Without an event or market data the rationale holds calendar entries only. */
  lemma OnlyCalendarEntries(season: real, dow: int, dowMult: real)
    requires 0 <= dow <= 6
    ensures forall f :: f in Rationale(None, season, dow, dowMult, None, 0.0) ==> f.SeasonFactor? || f.DayFactor?
  {
    var fs := Rationale(None, season, dow, dowMult, None, 0.0);
    forall f | f in fs
      ensures f.SeasonFactor? || f.DayFactor?
    {
      var i :| 0 <= i < |fs| && fs[i] == f;
    }
  }

  /** The base price and the day-of-week factor agree on what a weekend is:
      the weekend rate goes with the weekend surcharge, and Sunday, the only
      discounted day, keeps the weekday rate. */
  lemma WeekendAgreement(dow: int)
    requires 0 <= dow <= 6
    ensures BasePrice(dow) == BASE_WEEKEND <==> DowMultiplier(dow) > 1.0
    ensures DowMultiplier(dow) < 1.0 ==> BasePrice(dow) == BASE_WEEKDAY
  {
  }

  /** The suggested price and the `calculated` field follow from the fields
      the decision reports: the base price, the market average (adjustment 0
      without one), the event multiplier (1.0 without an event), and the
      season and day-of-week multipliers of the date. */
  lemma PriceIsComposedFromReportedFactors(t: Tables, d: CalendarDate)
    ensures Price(t, d).reasoning.seasonMultiplier == SeasonMultiplier(d.month)
    ensures Price(t, d).reasoning.dowMultiplier == DowMultiplier(Weekday(d))
    ensures
      var r := Price(t, d);
      var m := if r.eventMultiplier.Some? then r.eventMultiplier.value else 1.0;
      var adj := MarketAdjustment(r.marketAvg, r.basePrice);
      var calculated := Composed(r.basePrice, adj, m, r.reasoning.seasonMultiplier, r.reasoning.dowMultiplier);
      r.suggestedPrice == SuggestedPrice(calculated) && r.reasoning.calculated == RoundCents(calculated)
        && (r.marketAvg.Some? ==> r.reasoning.marketAdjustment == Some(RoundCents(adj)))
  {
    var r := Price(t, d);
    var base := BasePrice(Weekday(d));
    var event := EventForDate(t.events, d);
    var market := MarketAverage(t.history, d);
    var eventMult := if event.Some? then event.value.multiplier else 1.0;
    assert r.basePrice == base && r.marketAvg == market;
    assert r.eventMultiplier.Some? <==> event.Some?;
    assert r.eventMultiplier.Some? ==> r.eventMultiplier.value == eventMult;
    var adj := MarketAdjustment(market, base);
    var calculated := Composed(base, adj, eventMult, SeasonMultiplier(d.month), DowMultiplier(Weekday(d)));
    assert r.suggestedPrice == SuggestedPrice(calculated);
    assert r.reasoning.calculated == RoundCents(calculated);
  }
}
