/**
 * The series builder `generateHistoricalData`: 15 simulated price points
 * for the week before, the day of and the week after the selected date.
 */
module Series {
  import opened Calendar
  import opened Catalog
  import opened Pricing

  /** Days on each side of the selected date. */
  const HalfWindow: nat := 7
  /** Points in a series. */
  const WindowSize: nat := 2 * HalfWindow + 1

  /** One point of the series; its display labels are formatting of `date`. */
  datatype PricePoint = PricePoint(date: int, price: int, isTarget: bool)

  /** The point for `selectedDate + offset`, priced with `fuel`'s base price and variance. */
  function PointAt(sine: SineOffset, fuel: FuelType, selectedDate: int, offset: int): PricePoint {
    var date := selectedDate + offset;
    PricePoint(date, GeneratePrice(sine, fuel.basePrice, fuel.variance, date), offset == 0)
  }

  /** The series `generateHistoricalData(selectedDate, fuelTypeId)` returns. */
  function History(sine: SineOffset, selectedDate: int, fuelTypeId: string): seq<PricePoint> {
    var fuel := ResolveFuel(fuelTypeId);
    seq(WindowSize, k => PointAt(sine, fuel, selectedDate, k - HalfWindow))
  }

  lemma HistoryAt(sine: SineOffset, selectedDate: int, fuelTypeId: string, k: int)
    requires 0 <= k < WindowSize
    ensures var h := History(sine, selectedDate, fuelTypeId);
      |h| == WindowSize && h[k] == PointAt(sine, ResolveFuel(fuelTypeId), selectedDate, k - HalfWindow)
  {
  }

  /** The points for offsets -7..7 of the resolved fuel, in order, are the series. */
  lemma HistoryOfPoints(sine: SineOffset, selectedDate: int, fuelTypeId: string, data: seq<PricePoint>)
    requires |data| == WindowSize
    requires forall k :: 0 <= k < |data| ==> data[k] == PointAt(sine, ResolveFuel(fuelTypeId), selectedDate, k - HalfWindow)
    ensures data == History(sine, selectedDate, fuelTypeId)
  {
    forall k | 0 <= k < WindowSize
      ensures data[k] == History(sine, selectedDate, fuelTypeId)[k]
    {
      HistoryAt(sine, selectedDate, fuelTypeId, k);
    }
  }

  /**
   * `generateHistoricalData`: resolve the fuel (first catalog entry when
   * the id is unknown), then push one point for each offset -7..7.
   */
  method GenerateHistoricalData(sine: SineOffset, selectedDate: int, fuelTypeId: string) returns (data: seq<PricePoint>)
    ensures data == History(sine, selectedDate, fuelTypeId)
    ensures |data| == WindowSize
  {
    var fuel := ResolveFuel(fuelTypeId);
    data := [];
    var i := -(HalfWindow as int);
    while i <= HalfWindow
      invariant -(HalfWindow as int) <= i <= HalfWindow + 1
      invariant |data| == i + HalfWindow
      invariant forall k :: 0 <= k < |data| ==> data[k] == PointAt(sine, fuel, selectedDate, k - HalfWindow)
    {
      data := data + [PointAt(sine, fuel, selectedDate, i)];
      i := i + 1;
    }
    HistoryOfPoints(sine, selectedDate, fuelTypeId, data);
  }

  /** The series has 15 points dated selectedDate - 7 .. selectedDate + 7, one day apart. */
  lemma HistoryDates(sine: SineOffset, selectedDate: int, fuelTypeId: string)
    ensures var h := History(sine, selectedDate, fuelTypeId);
      && |h| == WindowSize
      && (forall k :: 0 <= k < |h| ==> h[k].date == selectedDate + k - HalfWindow)
      && (forall k :: 0 < k < |h| ==> h[k].date == h[k - 1].date + 1)
      && (forall j, k :: 0 <= j < k < |h| ==> h[j].date < h[k].date)
  {
    forall k | 0 <= k < WindowSize {
      HistoryAt(sine, selectedDate, fuelTypeId, k);
    }
  }

  /** Exactly one point is the target: the one at index 7, dated on the selected date. */
  lemma HistoryTarget(sine: SineOffset, selectedDate: int, fuelTypeId: string)
    ensures var h := History(sine, selectedDate, fuelTypeId);
      && (forall k :: 0 <= k < |h| ==> (h[k].isTarget <==> k == HalfWindow))
      && h[HalfWindow].date == selectedDate
  {
    forall k | 0 <= k < WindowSize {
      HistoryAt(sine, selectedDate, fuelTypeId, k);
    }
  }

  /** Every point is priced by `generatePrice` on its own date with the resolved fuel. */
  lemma HistoryPrices(sine: SineOffset, selectedDate: int, fuelTypeId: string)
    ensures var h := History(sine, selectedDate, fuelTypeId);
      var fuel := ResolveFuel(fuelTypeId);
      forall k :: 0 <= k < |h| ==> h[k].price == GeneratePrice(sine, fuel.basePrice, fuel.variance, h[k].date)
  {
    forall k | 0 <= k < WindowSize {
      HistoryAt(sine, selectedDate, fuelTypeId, k);
    }
  }

  /** An id that is not in the catalog gives the series of the first catalog entry. */
  lemma UnknownFuelFallsBack(sine: SineOffset, selectedDate: int, fuelTypeId: string)
    requires !InCatalog(fuelTypeId)
    ensures History(sine, selectedDate, fuelTypeId) == History(sine, selectedDate, FuelTypes[0].id)
  {
    ResolveCatalogEntry(FuelTypes[0]);
  }

  /**
   * 2024-01-01: the series runs from 2023-12-25 to 2024-01-08 and the
   * target is 2024-01-01 (each of these is the civil date of its day
   * number, by `DaysRoundTrip`).
   */
  lemma ScenarioNewYear(sine: SineOffset, fuelTypeId: string)
    ensures var h := History(sine, DaysFromCivil(2024, 1, 1), fuelTypeId);
      && h[0].date == DaysFromCivil(2023, 12, 25)
      && h[HalfWindow].date == DaysFromCivil(2024, 1, 1) && h[HalfWindow].isTarget
      && h[WindowSize - 1].date == DaysFromCivil(2024, 1, 8)
  {
    var z := DaysFromCivil(2024, 1, 1);
    assert DaysFromCivil(2023, 12, 25) == z - 7;
    assert DaysFromCivil(2024, 1, 8) == z + 7;
    HistoryAt(sine, z, fuelTypeId, 0);
    HistoryAt(sine, z, fuelTypeId, HalfWindow);
    HistoryAt(sine, z, fuelTypeId, WindowSize - 1);
  }
}
