/**
 * `handlePredict` and the values the result panel derives from its
 * result: the trend indicator, the neighbouring-day labels and the
 * placeholder "best time to fill up".
 */
module Prediction {
  import opened Wrappers
  import opened Catalog
  import opened Pricing
  import opened Series
  import opened Ranking

  /** The object `handlePredict` stores in `predictionResult`. */
  datatype PredictionResult = PredictionResult(
    history: seq<PricePoint>,
    current: Option<PricePoint>,
    prev: Option<PricePoint>,
    next: Option<PricePoint>,
    fuelComparisons: seq<FuelComparison>,
    timestamp: int)

  /** `h => h.isTarget` */
  function IsTargetPoint(h: PricePoint): bool {
    h.isTarget
  }

  /** `h => isSameDay(h.date, day)` */
  function OnDay(day: int): PricePoint -> bool {
    (h: PricePoint) => h.date == day
  }

  /**
   * The result of `handlePredict` for the selected date and fuel; `now` is
   * the value of `Date.now()`.
   */
  function Predict(sine: SineOffset, selectedDate: int, selectedFuel: FuelType, now: int): PredictionResult {
    var history := History(sine, selectedDate, selectedFuel.id);
    PredictionResult(
      history,
      Find(history, IsTargetPoint),
      Find(history, OnDay(selectedDate - 1)),
      Find(history, OnDay(selectedDate + 1)),
      FuelComparisons(sine, selectedDate),
      now)
  }

  /**
   * The three lookups always succeed: the current point is the target at
   * index 7, dated on the selected date, and the previous-day and next-day
   * points are those at indices 6 and 8.
   */
  lemma PredictionLookups(sine: SineOffset, selectedDate: int, selectedFuel: FuelType, now: int)
    ensures var r := Predict(sine, selectedDate, selectedFuel, now);
      && |r.history| == WindowSize
      && r.current == Some(r.history[HalfWindow]) && r.current.value.date == selectedDate
      && r.prev == Some(r.history[HalfWindow - 1]) && r.prev.value.date == selectedDate - 1
      && r.next == Some(r.history[HalfWindow + 1]) && r.next.value.date == selectedDate + 1
  {
    HistoryLookups(History(sine, selectedDate, selectedFuel.id), sine, selectedDate, selectedFuel.id);
  }

  /** The three lookups of `handlePredict` on a series for the selected date. */
  lemma HistoryLookups(h: seq<PricePoint>, sine: SineOffset, selectedDate: int, fuelTypeId: string)
    requires h == History(sine, selectedDate, fuelTypeId)
    ensures |h| == WindowSize
    ensures Find(h, IsTargetPoint) == Some(h[HalfWindow]) && h[HalfWindow].date == selectedDate
    ensures Find(h, OnDay(selectedDate - 1)) == Some(h[HalfWindow - 1]) && h[HalfWindow - 1].date == selectedDate - 1
    ensures Find(h, OnDay(selectedDate + 1)) == Some(h[HalfWindow + 1]) && h[HalfWindow + 1].date == selectedDate + 1
  {
    HistoryDates(sine, selectedDate, fuelTypeId);
    HistoryTarget(sine, selectedDate, fuelTypeId);
    FindFirst(h, IsTargetPoint, HalfWindow);
    FindFirst(h, OnDay(selectedDate - 1), HalfWindow - 1);
    FindFirst(h, OnDay(selectedDate + 1), HalfWindow + 1);
  }

  /**
   * For a fuel of the catalog, the predicted price is the price the
   * comparison lists for that fuel: both are `generatePrice` on the
   * selected date.
   */
  lemma TargetPriceMatchesComparison(sine: SineOffset, selectedDate: int, selectedFuel: FuelType, now: int)
    requires selectedFuel in FuelTypes
    ensures var r := Predict(sine, selectedDate, selectedFuel, now);
      && r.current.Some?
      && r.current.value.price == GeneratePrice(sine, selectedFuel.basePrice, selectedFuel.variance, selectedDate)
      && FuelComparison(selectedFuel, r.current.value.price) in r.fuelComparisons
      && forall e :: e in r.fuelComparisons && e.fuel == selectedFuel ==> e.price == r.current.value.price
  {
    PredictionLookups(sine, selectedDate, selectedFuel, now);
    HistoryPrices(sine, selectedDate, selectedFuel.id);
    ResolveCatalogEntry(selectedFuel);
    FuelComparisonsAreRanked(sine, selectedDate);
  }

  /** The trend arrow beside the predicted price. */
  datatype Direction = Up | Down

  /** The label of a neighbouring day's card. */
  datatype NeighbourLabel = Cheaper | Higher

  /** `current.price > prev.price`: the arrow points up, otherwise down. */
  function TrendDirection(r: PredictionResult): (d: Direction)
    requires r.current.Some? && r.prev.Some?
    ensures d == Up <==> r.current.value.price > r.prev.value.price
  {
    if r.current.value.price > r.prev.value.price then Up else Down
  }

  /** `neighbour.price < current.price`: the neighbour is "Cheaper", otherwise "Higher". */
  function NeighbourLabelOf(neighbour: PricePoint, current: PricePoint): (l: NeighbourLabel)
    ensures l == Cheaper <==> neighbour.price < current.price
  {
    if neighbour.price < current.price then Cheaper else Higher
  }

  /**
   * The previous-day card says "Cheaper" exactly when the trend arrow
   * points up; on a tie the arrow points down and the card says "Higher".
   */
  lemma PreviousLabelAgreesWithTrend(r: PredictionResult)
    requires r.current.Some? && r.prev.Some?
    ensures NeighbourLabelOf(r.prev.value, r.current.value) == Cheaper <==> TrendDirection(r) == Up
    ensures r.prev.value.price == r.current.value.price ==>
      TrendDirection(r) == Down && NeighbourLabelOf(r.prev.value, r.current.value) == Higher
  {
  }

  /**
   * The change printed beside the arrow, `current.price - prev.price`, in
   * thousandths: positive exactly when the arrow points up.
   */
  function PriceChange(r: PredictionResult): (delta: int)
    requires r.current.Some? && r.prev.Some?
    ensures r.prev.value.price + delta == r.current.value.price
    ensures delta > 0 <==> TrendDirection(r) == Up
  {
    r.current.value.price - r.prev.value.price
  }

  /**
   * For a fuel of the catalog, the arrow of a fresh prediction points up
   * exactly when `generatePrice` rises from the day before to the selected
   * day, and the change is the difference of those two prices.
   */
  lemma TrendOfPrediction(sine: SineOffset, d: int, fuel: FuelType, now: int)
    requires fuel in FuelTypes
    ensures var r := Predict(sine, d, fuel, now);
      var today := GeneratePrice(sine, fuel.basePrice, fuel.variance, d);
      var yesterday := GeneratePrice(sine, fuel.basePrice, fuel.variance, d - 1);
      && r.current.Some? && r.prev.Some?
      && (TrendDirection(r) == Up <==> today > yesterday)
      && PriceChange(r) == today - yesterday
  {
    PanelDatesMatchPrices(sine, d, fuel, now);
  }

  /**
   * For a fuel of the catalog, the next-day card of a fresh prediction says
   * "Cheaper" exactly when `generatePrice` falls from the selected day to
   * the day after, and the previous-day card exactly when it rose from the
   * day before.
   */
  lemma NeighbourLabelsOfPrediction(sine: SineOffset, d: int, fuel: FuelType, now: int)
    requires fuel in FuelTypes
    ensures var r := Predict(sine, d, fuel, now);
      var today := GeneratePrice(sine, fuel.basePrice, fuel.variance, d);
      && r.current.Some? && r.prev.Some? && r.next.Some?
      && (NeighbourLabelOf(r.next.value, r.current.value) == Cheaper <==>
          GeneratePrice(sine, fuel.basePrice, fuel.variance, d + 1) < today)
      && (NeighbourLabelOf(r.prev.value, r.current.value) == Cheaper <==>
          GeneratePrice(sine, fuel.basePrice, fuel.variance, d - 1) < today)
  {
    PanelDatesMatchPrices(sine, d, fuel, now);
  }

  /** The "Optimal Fill-Up Time" card. */
  datatype FillUpSuggestion = FillUpSuggestion(date: int, hour: nat, price: int)

  /** Placeholder saving of the suggested fill-up, in thousandths. */
  const PlaceholderSaving: int := 80

  /**
   * The placeholder suggestion: two days after the predicted date, around
   * 6 AM, at the predicted price less 0.08.
   */
  function OptimalFillUp(r: PredictionResult): (s: FillUpSuggestion)
    requires r.current.Some?
    ensures s.price < r.current.value.price && r.current.value.price - s.price == PlaceholderSaving
    ensures s.date == r.current.value.date + 2 && s.hour == 6
  {
    FillUpSuggestion(r.current.value.date + 2, 6, r.current.value.price - PlaceholderSaving)
  }

  /**
   * The suggestion depends on nothing but the predicted point: not on the
   * rest of the series, the neighbours or the comparison.
   */
  lemma OptimalFillUpIsPlaceholder(r1: PredictionResult, r2: PredictionResult)
    requires r1.current.Some? && r2.current.Some? && r1.current == r2.current
    ensures OptimalFillUp(r1) == OptimalFillUp(r2)
  {
  }

  /**
   * For a fuel of the catalog, a fresh prediction suggests filling up two
   * days after the selected date at `generatePrice` on that date less 0.08.
   */
  lemma FillUpOfPrediction(sine: SineOffset, d: int, fuel: FuelType, now: int)
    requires fuel in FuelTypes
    ensures var r := Predict(sine, d, fuel, now);
      && r.current.Some?
      && OptimalFillUp(r) == FillUpSuggestion(d + 2, 6, GeneratePrice(sine, fuel.basePrice, fuel.variance, d) - PlaceholderSaving)
  {
    PanelDatesMatchPrices(sine, d, fuel, now);
  }

  /** The dates the result panel names: the selected day, its neighbours and the fill-up day. */
  datatype PanelDates = PanelDates(selected: int, previous: int, next: int, fillUp: int)

  /**
   * As the page computes them: from the live `selectedDate`
   * (`subDays(selectedDate, 1)`, `addDays(selectedDate, 2)`, ...), not
   * from the stored result, although the prices beside them come from the
   * result.
   */
  function PanelDatesAsWritten(selectedDate: int): (p: PanelDates)
    ensures p.previous == p.selected - 1 && p.next == p.selected + 1 && p.fillUp == p.selected + 2
    ensures p.selected == selectedDate
  {
    PanelDates(selectedDate, selectedDate - 1, selectedDate + 1, selectedDate + 2)
  }

  /** The dates of the points whose prices the panel shows. */
  function PanelDatesOf(r: PredictionResult): (p: PanelDates)
    requires r.current.Some? && r.prev.Some? && r.next.Some?
    ensures p.fillUp == OptimalFillUp(r).date
  {
    PanelDates(r.current.value.date, r.prev.value.date, r.next.value.date, r.current.value.date + 2)
  }

  /**
   * After a prediction for day `d`, a change of the date input to `d + 1`
   * (which keeps the stored result) makes the page name dates
   * one day off: the previous-day card is labelled `d` but shows the price
   * of `d - 1`.
   */
  lemma PanelDatesGoStale(sine: SineOffset, d: int, fuel: FuelType, now: int)
    ensures var r := Predict(sine, d, fuel, now);
      && r.prev.Some? && r.current.Some? && r.next.Some?
      && PanelDatesAsWritten(d + 1).previous == d
      && r.prev.value.date == d - 1
      && PanelDatesAsWritten(d + 1) != PanelDatesOf(r)
  {
    PredictionLookups(sine, d, fuel, now);
  }

  /**
   * Read from the result, each date the panel names is the date of the
   * price shown beside it, whatever the date input holds later.
   */
  lemma PanelDatesMatchPrices(sine: SineOffset, d: int, fuel: FuelType, now: int)
    requires fuel in FuelTypes
    ensures var r := Predict(sine, d, fuel, now);
      && r.prev.Some? && r.current.Some? && r.next.Some?
      && PanelDatesOf(r) == PanelDates(d, d - 1, d + 1, d + 2)
      && r.current.value.price == GeneratePrice(sine, fuel.basePrice, fuel.variance, PanelDatesOf(r).selected)
      && r.prev.value.price == GeneratePrice(sine, fuel.basePrice, fuel.variance, PanelDatesOf(r).previous)
      && r.next.value.price == GeneratePrice(sine, fuel.basePrice, fuel.variance, PanelDatesOf(r).next)
  {
    PredictionLookups(sine, d, fuel, now);
    HistoryPrices(sine, d, fuel.id);
    ResolveCatalogEntry(fuel);
  }

  /**
   * The state of the page that prediction reads and writes: the selected
   * fuel and date, and the result of the last prediction.
   */
  class PredictionSession {
    var selectedFuel: FuelType
    var selectedDate: int
    var predictionResult: Option<PredictionResult>

    /** The selected fuel is always a catalog entry. */
    ghost predicate Valid()
      reads this
    {
      selectedFuel in FuelTypes
    }

    /** The page opens on the first fuel, today's date and no result. */
    constructor (today: int)
      ensures Valid()
      ensures selectedFuel == FuelTypes[0] && selectedDate == today && predictionResult == None
    {
      selectedFuel := FuelTypes[0];
      selectedDate := today;
      predictionResult := None;
    }

    /** A click on a fuel card (the cards are the catalog entries). */
    method SelectFuel(f: FuelType)
      requires Valid() && f in FuelTypes
      modifies this
      ensures Valid()
      ensures selectedFuel == f && selectedDate == old(selectedDate) && predictionResult == old(predictionResult)
    {
      selectedFuel := f;
    }

    /** A change of the date input; the last result is kept as it is. */
    method SelectDate(d: int)
      requires Valid()
      modifies this
      ensures Valid()
      ensures selectedDate == d && selectedFuel == old(selectedFuel) && predictionResult == old(predictionResult)
    {
      selectedDate := d;
    }

    /** `handlePredict`: the new result replaces the old one wholesale. */
    method HandlePredict(sine: SineOffset, now: int)
      requires Valid()
      modifies this
      ensures Valid()
      ensures selectedFuel == old(selectedFuel) && selectedDate == old(selectedDate)
      ensures predictionResult == Some(Predict(sine, selectedDate, selectedFuel, now))
      ensures var r := predictionResult.value;
        && r.current.Some?
        && r.current.value.price == GeneratePrice(sine, selectedFuel.basePrice, selectedFuel.variance, selectedDate)
        && FuelComparison(selectedFuel, r.current.value.price) in r.fuelComparisons
    {
      var date := selectedDate;
      var history := GenerateHistoricalData(sine, date, selectedFuel.id);
      var targetDay := Find(history, IsTargetPoint);
      var prevDay := Find(history, OnDay(date - 1));
      var nextDay := Find(history, OnDay(date + 1));
      var comparisons := FuelComparisons(sine, date);
      predictionResult := Some(PredictionResult(history, targetDay, prevDay, nextDay, comparisons, now));
      TargetPriceMatchesComparison(sine, date, selectedFuel, now);
    }
  }
}
