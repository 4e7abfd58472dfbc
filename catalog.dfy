/**
 * The fixed fuel catalog (Melbourne, 7-Eleven). Prices are integer
 * thousandths of a dollar per litre: 1.95 is 1950.
 */
module Catalog {
  import opened Wrappers

  /** A fuel product; its icon and colour theme are presentation only. */
  datatype FuelType = FuelType(id: string, name: string, octane: string, basePrice: int, variance: nat)

  /** `FUEL_TYPES`, in catalog order. */
  const FuelTypes: seq<FuelType> := [
    FuelType("u91", "Unleaded 91", "91 RON", 1950, 150),
    FuelType("p98", "Premium 98", "98 RON", 2250, 180),
    FuelType("diesel", "Special Diesel", "CN 50+", 2100, 200),
    FuelType("e10", "E10 Unleaded", "94 RON (10% Ethanol)", 1910, 120)
  ]

  predicate InCatalog(id: string) {
    exists i :: 0 <= i < |FuelTypes| && FuelTypes[i].id == id
  }

  /**
   * `FUEL_TYPES.find(f => f.id === fuelTypeId) || FUEL_TYPES[0]`: the
   * catalog entry with the given id, or the first entry when there is none.
   */
  function ResolveFuel(id: string): FuelType {
    match Find(FuelTypes, (g: FuelType) => g.id == id)
    case Some(g) => g
    case None => FuelTypes[0]
  }

  /** The resolved fuel is a catalog entry: the one with the id if there is one, else the first. */
  lemma ResolveFuelChoice(id: string)
    ensures ResolveFuel(id) in FuelTypes
    ensures InCatalog(id) ==> ResolveFuel(id).id == id
    ensures !InCatalog(id) ==> ResolveFuel(id) == FuelTypes[0]
  {
  }

  /** No two catalog entries share an id. */
  lemma CatalogIdsUnique()
    ensures forall i, j :: 0 <= i < j < |FuelTypes| ==> FuelTypes[i].id != FuelTypes[j].id
  {
  }

  /** Resolving the id of a catalog entry gives back that entry. */
  lemma ResolveCatalogEntry(f: FuelType)
    requires f in FuelTypes
    ensures ResolveFuel(f.id) == f
  {
    CatalogIdsUnique();
    var i :| 0 <= i < |FuelTypes| && FuelTypes[i] == f;
    FindFirst(FuelTypes, (g: FuelType) => g.id == f.id, i);
  }
}
