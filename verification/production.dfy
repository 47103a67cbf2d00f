/**
 * The production page (components/ProductionPage.tsx): the harvest-load
 * record its form builds, with the moisture discount applied to the value
 * but not to the stored weight, and the totals on its cards.
 */
module ProductionPage {
  import opened Wrappers
  import opened Folds
  import opened Types
  import opened Moisture
  import Collection
  import Store

  /** The load form; `pricePerBag` is `None` when left empty or not a number. */
  datatype LoadForm = LoadForm(
    date: string, plotId: int, weightKg: real, moisturePercent: real,
    pricePerBag: Option<real>, destination: string, truckPlate: string)

  /**
   * What `handleSubmit` saves: nothing when the plot does not resolve;
   * otherwise the gross weight and the moisture as entered, the price (0
   * when missing) and the value of the corrected bags at that price.
   */
  function BuildLoad(plots: seq<Plot>, form: LoadForm): (r: Option<LoadData>)
    ensures r.None? <==> Collection.FindById(plots, form.plotId).None?
    ensures r.Some? ==>
      && r.value.plotId == form.plotId
      && r.value.plotName == Collection.FindById(plots, form.plotId).value.data.name
      && r.value.weightKg == form.weightKg
      && r.value.moisturePercent == form.moisturePercent
      && r.value.pricePerBag == form.pricePerBag.GetOr(0.0)
      && r.value.totalValue * BagKg
         == form.weightKg * Factor(form.moisturePercent) * form.pricePerBag.GetOr(0.0)
    ensures r.Some? && form.pricePerBag.None? ==> r.value.totalValue == 0.0
  {
    match Collection.FindById(plots, form.plotId)
    case None => None
    case Some(plot) =>
      var price := form.pricePerBag.GetOr(0.0);
      Some(LoadData(form.date, plot.id, plot.data.name, form.weightKg, form.moisturePercent,
                    price, NetBags(form.weightKg, form.moisturePercent) * price,
                    form.destination, form.truckPlate))
  }

  /** Submitting the load form against the store: an unresolved plot writes nothing. */
  function SubmitLoad(s: Store.Store, form: LoadForm, editing: Option<nat>): (t: Store.Store)
    ensures BuildLoad(Store.Plots(s), form).None? ==> t == s
    ensures BuildLoad(Store.Plots(s), form).Some? ==>
      && Store.SameExcept(s, t, Store.ProductionKey)
      && Store.Production(t)
         == Collection.Save(Store.Production(s), BuildLoad(Store.Plots(s), form).value, editing)
  {
    match BuildLoad(Store.Plots(s), form)
    case None => s
    case Some(load) => Store.SaveHarvestLoad(s, load, editing)
  }

  /** The gross-volume card: Σ `weight_kg`, uncorrected. */
  function TotalWeight(loads: seq<HarvestLoad>): real {
    Sum(loads, LoadWeight)
  }

  /** The revenue card: Σ `total_value`. */
  function TotalFinancial(loads: seq<HarvestLoad>): real {
    Sum(loads, LoadValue)
  }

  /** The gross-bags card: total weight in 60 kg bags. */
  function GrossBags(loads: seq<HarvestLoad>): (r: real)
    ensures r * BagKg == TotalWeight(loads)
  {
    TotalWeight(loads) / BagKg
  }

  /** A new load raises the cards by exactly its own weight and value. */
  lemma InsertRaisesTotals(loads: seq<HarvestLoad>, data: LoadData)
    ensures TotalWeight(Collection.Insert(loads, data)) == TotalWeight(loads) + data.weightKg
    ensures TotalFinancial(Collection.Insert(loads, data)) == TotalFinancial(loads) + data.totalValue
  {
    var r := Collection.Insert(loads, data);
    assert r[..|r| - 1] == loads;
  }

  /** The cards do not depend on the order of the loads. */
  lemma TotalsPermutation(a: seq<HarvestLoad>, b: seq<HarvestLoad>)
    requires multiset(a) == multiset(b)
    ensures TotalWeight(a) == TotalWeight(b) && TotalFinancial(a) == TotalFinancial(b)
  {
    SumPermutation(a, b, LoadWeight);
    SumPermutation(a, b, LoadValue);
  }
}
