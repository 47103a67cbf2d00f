/**
 * The key-value store of services/mockApi.ts: eight keys, each holding a
 * whole collection. A key never written reads as its seed (two plots and
 * four crop prices; every other collection starts empty). Every save or
 * delete reads one collection, transforms it and writes it back; no
 * operation touches any other key, so nothing cascades.
 */
module Store {
  import opened Wrappers
  import opened Folds
  import opened Types
  import Collection

  /** A key of the store: never written, or holding the last collection written to it. */
  datatype Slot<T> = Unwritten | Written(list: seq<T>)

  /** `get(key, initial)`: the stored list, or the seed when the key was never written. */
  function Read<T>(slot: Slot<T>, seed: seq<T>): (r: seq<T>)
    ensures slot.Unwritten? ==> r == seed
    ensures slot.Written? ==> r == slot.list
  {
    match slot
    case Unwritten => seed
    case Written(list) => list
  }

  const SeedPlots: seq<Plot> := [
    Entity(1, PlotData("Talhão Norte", 50.0, "Soja", "24/25")),
    Entity(2, PlotData("Talhão Sul", 120.0, "Milho", "24/25"))
  ]

  const SeedPrices: seq<CropPrice> := [
    CropPrice("Soja", 125.50),
    CropPrice("Milho", 58.00),
    CropPrice("Trigo", 85.00),
    CropPrice("Algodão", 140.00)
  ]

  datatype Store = Store(
    machines: Slot<Machine>,
    plots: Slot<Plot>,
    prices: Slot<CropPrice>,
    inputs: Slot<InputItem>,
    applications: Slot<InputApplication>,
    production: Slot<HarvestLoad>,
    usage: Slot<MachineryUsage>,
    fuel: Slot<FuelRefill>)

  /** A browser that has never saved anything. */
  const Fresh: Store := Store(Unwritten, Unwritten, Unwritten, Unwritten,
                              Unwritten, Unwritten, Unwritten, Unwritten)

  function Machines(s: Store): seq<Machine> { Read(s.machines, []) }
  function Plots(s: Store): seq<Plot> { Read(s.plots, SeedPlots) }
  function CropPrices(s: Store): seq<CropPrice> { Read(s.prices, SeedPrices) }
  function Inputs(s: Store): seq<InputItem> { Read(s.inputs, []) }
  function Applications(s: Store): seq<InputApplication> { Read(s.applications, []) }
  function Production(s: Store): seq<HarvestLoad> { Read(s.production, []) }
  function Usage(s: Store): seq<MachineryUsage> { Read(s.usage, []) }
  function Fuel(s: Store): seq<FuelRefill> { Read(s.fuel, []) }

  /** Which key an operation writes. */
  datatype Key = MachinesKey | PlotsKey | PricesKey | InputsKey
               | ApplicationsKey | ProductionKey | UsageKey | FuelKey

  /** Every key other than `k` holds the same in `s` and `t`. */
  predicate SameExcept(s: Store, t: Store, k: Key) {
    && (k != MachinesKey ==> t.machines == s.machines)
    && (k != PlotsKey ==> t.plots == s.plots)
    && (k != PricesKey ==> t.prices == s.prices)
    && (k != InputsKey ==> t.inputs == s.inputs)
    && (k != ApplicationsKey ==> t.applications == s.applications)
    && (k != ProductionKey ==> t.production == s.production)
    && (k != UsageKey ==> t.usage == s.usage)
    && (k != FuelKey ==> t.fuel == s.fuel)
  }

  function SaveMachine(s: Store, data: MachineData, id: Option<nat>): (t: Store)
    ensures SameExcept(s, t, MachinesKey)
    ensures t.machines.Written?
    ensures Machines(t) == Collection.Save(Machines(s), data, id)
  {
    s.(machines := Written(Collection.Save(Machines(s), data, id)))
  }

  function DeleteMachine(s: Store, id: nat): (t: Store)
    ensures SameExcept(s, t, MachinesKey)
    ensures t.machines.Written?
    ensures Machines(t) == Collection.Delete(Machines(s), id)
  {
    s.(machines := Written(Collection.Delete(Machines(s), id)))
  }

  function SavePlot(s: Store, data: PlotData, id: Option<nat>): (t: Store)
    ensures SameExcept(s, t, PlotsKey)
    ensures t.plots.Written?
    ensures Plots(t) == Collection.Save(Plots(s), data, id)
  {
    s.(plots := Written(Collection.Save(Plots(s), data, id)))
  }

  /** Deleting a plot rewrites only the plots key: its loads, usage and applications survive. */
  function DeletePlot(s: Store, id: nat): (t: Store)
    ensures SameExcept(s, t, PlotsKey)
    ensures t.plots.Written?
    ensures Plots(t) == Collection.Delete(Plots(s), id)
    ensures Production(t) == Production(s) && Usage(t) == Usage(s)
    ensures Applications(t) == Applications(s)
  {
    s.(plots := Written(Collection.Delete(Plots(s), id)))
  }

  function SaveInput(s: Store, data: InputData, id: Option<nat>): (t: Store)
    ensures SameExcept(s, t, InputsKey)
    ensures t.inputs.Written?
    ensures Inputs(t) == Collection.Save(Inputs(s), data, id)
  {
    s.(inputs := Written(Collection.Save(Inputs(s), data, id)))
  }

  function DeleteInput(s: Store, id: nat): (t: Store)
    ensures SameExcept(s, t, InputsKey)
    ensures t.inputs.Written?
    ensures Inputs(t) == Collection.Delete(Inputs(s), id)
  {
    s.(inputs := Written(Collection.Delete(Inputs(s), id)))
  }

  /** Recording or deleting an application never touches the inputs key, so stock never moves. */
  function SaveApplication(s: Store, data: ApplicationData, id: Option<nat>): (t: Store)
    ensures SameExcept(s, t, ApplicationsKey)
    ensures t.applications.Written?
    ensures Applications(t) == Collection.Save(Applications(s), data, id)
    ensures Inputs(t) == Inputs(s)
  {
    s.(applications := Written(Collection.Save(Applications(s), data, id)))
  }

  function DeleteApplication(s: Store, id: nat): (t: Store)
    ensures SameExcept(s, t, ApplicationsKey)
    ensures t.applications.Written?
    ensures Applications(t) == Collection.Delete(Applications(s), id)
    ensures Inputs(t) == Inputs(s)
  {
    s.(applications := Written(Collection.Delete(Applications(s), id)))
  }

  function SaveHarvestLoad(s: Store, data: LoadData, id: Option<nat>): (t: Store)
    ensures SameExcept(s, t, ProductionKey)
    ensures t.production.Written?
    ensures Production(t) == Collection.Save(Production(s), data, id)
  {
    s.(production := Written(Collection.Save(Production(s), data, id)))
  }

  function DeleteHarvestLoad(s: Store, id: nat): (t: Store)
    ensures SameExcept(s, t, ProductionKey)
    ensures t.production.Written?
    ensures Production(t) == Collection.Delete(Production(s), id)
  {
    s.(production := Written(Collection.Delete(Production(s), id)))
  }

  function SaveUsage(s: Store, data: UsageData, id: Option<nat>): (t: Store)
    ensures SameExcept(s, t, UsageKey)
    ensures t.usage.Written?
    ensures Usage(t) == Collection.Save(Usage(s), data, id)
  {
    s.(usage := Written(Collection.Save(Usage(s), data, id)))
  }

  function DeleteUsage(s: Store, id: nat): (t: Store)
    ensures SameExcept(s, t, UsageKey)
    ensures t.usage.Written?
    ensures Usage(t) == Collection.Delete(Usage(s), id)
  {
    s.(usage := Written(Collection.Delete(Usage(s), id)))
  }

  function SaveFuel(s: Store, data: RefillData, id: Option<nat>): (t: Store)
    ensures SameExcept(s, t, FuelKey)
    ensures t.fuel.Written?
    ensures Fuel(t) == Collection.Save(Fuel(s), data, id)
  {
    s.(fuel := Written(Collection.Save(Fuel(s), data, id)))
  }

  function DeleteFuel(s: Store, id: nat): (t: Store)
    ensures SameExcept(s, t, FuelKey)
    ensures t.fuel.Written?
    ensures Fuel(t) == Collection.Delete(Fuel(s), id)
  {
    s.(fuel := Written(Collection.Delete(Fuel(s), id)))
  }

  // ----- Crop prices: keyed on the crop_type text -----

  /** `list.findIndex(p => p.crop_type === crop)`. */
  function PriceIndex(list: seq<CropPrice>, crop: string): (r: int)
    ensures -1 <= r < |list|
    ensures r == -1 <==> forall i :: 0 <= i < |list| ==> list[i].cropType != crop
    ensures 0 <= r ==> list[r].cropType == crop
                       && forall i :: 0 <= i < r ==> list[i].cropType != crop
  {
    FindIndex(list, (p: CropPrice) => p.cropType == crop)
  }

  /** `cropPrices.find(p => p.crop_type === crop)?.price_per_bag`: the price of the first entry for the crop. */
  function PriceOf(list: seq<CropPrice>, crop: string): (r: Option<real>)
    ensures r.None? <==> forall i :: 0 <= i < |list| ==> list[i].cropType != crop
    ensures r.Some? ==> exists i :: 0 <= i < |list| && list[i] == CropPrice(crop, r.value)
                                 && forall j :: 0 <= j < i ==> list[j].cropType != crop
  {
    var i := PriceIndex(list, crop);
    if i == -1 then None else Some(list[i].pricePerBag)
  }

  /** No two entries share a crop. */
  predicate UniqueCrops(list: seq<CropPrice>) {
    forall i, j :: 0 <= i < j < |list| ==> list[i].cropType != list[j].cropType
  }

  /** `saveCropPrice`: replace the first entry for the same crop, otherwise append. */
  function UpsertPrice(list: seq<CropPrice>, price: CropPrice): (r: seq<CropPrice>)
    ensures PriceIndex(list, price.cropType) == -1 ==> r == list + [price]
    ensures PriceIndex(list, price.cropType) >= 0 ==>
      |r| == |list| && r[PriceIndex(list, price.cropType)] == price &&
      forall i :: 0 <= i < |list| && i != PriceIndex(list, price.cropType) ==> r[i] == list[i]
  {
    var i := PriceIndex(list, price.cropType);
    if i != -1 then list[i := price] else list + [price]
  }

  function SaveCropPrice(s: Store, price: CropPrice): (t: Store)
    ensures SameExcept(s, t, PricesKey)
    ensures t.prices.Written?
    ensures CropPrices(t) == UpsertPrice(CropPrices(s), price)
  {
    s.(prices := Written(UpsertPrice(CropPrices(s), price)))
  }

  /** After saving a price, looking the crop up finds that price. */
  lemma UpsertThenLookup(list: seq<CropPrice>, price: CropPrice)
    ensures PriceOf(UpsertPrice(list, price), price.cropType) == Some(price.pricePerBag)
  {
    var r := UpsertPrice(list, price);
    var i := PriceIndex(list, price.cropType);
    if i == -1 {
      assert r[|list|] == price;
      assert PriceIndex(r, price.cropType) == |list|;
    } else {
      assert PriceIndex(r, price.cropType) == i;
    }
  }

  /** Saving a price leaves every other crop's lookup as it was. */
  lemma UpsertKeepsOtherCrops(list: seq<CropPrice>, price: CropPrice, crop: string)
    requires crop != price.cropType
    ensures PriceOf(UpsertPrice(list, price), crop) == PriceOf(list, crop)
  {
    var r := UpsertPrice(list, price);
    var j := PriceIndex(list, crop);
    if j == -1 {
      assert forall i :: 0 <= i < |r| ==> r[i].cropType != crop by {
        forall i | 0 <= i < |r| ensures r[i].cropType != crop {
          if i < |list| && r[i] != price {
            assert r[i] == list[i];
          }
        }
      }
    } else {
      assert PriceIndex(r, crop) == j by {
        forall i | 0 <= i <= j ensures r[i].cropType == list[i].cropType || r[i] == price {
        }
      }
    }
  }

  /** Saving keeps the crop keys unique. */
  lemma UpsertKeepsUniqueCrops(list: seq<CropPrice>, price: CropPrice)
    requires UniqueCrops(list)
    ensures UniqueCrops(UpsertPrice(list, price))
  {
  }

  /** Saving the same price twice is saving it once. */
  lemma UpsertIdempotent(list: seq<CropPrice>, price: CropPrice)
    ensures UpsertPrice(UpsertPrice(list, price), price) == UpsertPrice(list, price)
  {
    var r := UpsertPrice(list, price);
    var i := PriceIndex(list, price.cropType);
    if i == -1 {
      assert r[|list|] == price;
      assert forall k :: 0 <= k < |list| ==> r[k] == list[k];
      assert PriceIndex(r, price.cropType) == |list|;
    } else {
      assert PriceIndex(r, price.cropType) == i;
    }
  }

  /** A fresh store reads as the seeds: two plots of 50 ha (Soja) and 120 ha (Milho), four prices, nothing else. */
  lemma FreshStoreReadsSeeds()
    ensures |Plots(Fresh)| == 2
    ensures Plots(Fresh)[0].data.areaHectares == 50.0 && Plots(Fresh)[0].data.cropType == "Soja"
    ensures Plots(Fresh)[1].data.areaHectares == 120.0 && Plots(Fresh)[1].data.cropType == "Milho"
    ensures Collection.UniqueIds(Plots(Fresh))
    ensures |CropPrices(Fresh)| == 4 && UniqueCrops(CropPrices(Fresh))
    ensures PriceOf(CropPrices(Fresh), "Soja") == Some(125.50)
    ensures PriceOf(CropPrices(Fresh), "Milho") == Some(58.00)
    ensures Machines(Fresh) == [] && Inputs(Fresh) == [] && Applications(Fresh) == []
    ensures Production(Fresh) == [] && Usage(Fresh) == [] && Fuel(Fresh) == []
  {
  }

  /**
   * A written key reads back what was written, never its seed again: the
   * first plot saved goes after the two seed plots with the id 3, the first
   * machine gets the id 1, and a plot list emptied by deletes stays empty
   * (the stored text "[]" is not empty, so `get` parses it).
   */
  lemma WritesReadBack(p: PlotData, m: MachineData)
    ensures Plots(SavePlot(Fresh, p, None)) == SeedPlots + [Entity(3, p)]
    ensures Machines(SaveMachine(Fresh, m, None)) == [Entity(1, m)]
    ensures Plots(DeletePlot(Fresh, 1)) == [SeedPlots[1]]
    ensures Plots(DeletePlot(DeletePlot(Fresh, 1), 2)) == []
  {
    assert Collection.MaxId(SeedPlots[..1]) == 1;
    assert Collection.MaxId(SeedPlots) == 2;
    assert SeedPlots[..1] == [SeedPlots[0]];
  }
}
