/**
 * The financial dashboard (components/Dashboard.tsx): the fleet's diesel
 * cost per machine hour, the per-crop financials joined from plots, input
 * applications, machine usage, harvest loads and crop prices, the chart
 * rows derived from them, and the global totals.
 */
module Dashboard {
  import opened Wrappers
  import opened Folds
  import opened Types
  import opened Moisture
  import opened Crops
  import Collection
  import Store
  import PlotsPage
  import MachineryPage
  import ProductionPage

  // ----- The fleet's diesel rate -----

  /** Σ `hours_used` over every usage record. */
  function TotalHours(usage: seq<MachineryUsage>): real {
    Sum(usage, HoursUsed)
  }

  /** `fuelCostPerHour`: the fleet's fuel cost spread over all hours worked, or 0 without hours. */
  function FuelCostPerHour(fuel: seq<FuelRefill>, usage: seq<MachineryUsage>): (r: real)
    ensures TotalHours(usage) > 0.0 ==> TotalHours(usage) * r == MachineryPage.FleetFuelCost(fuel)
    ensures TotalHours(usage) <= 0.0 ==> r == 0.0
  {
    var hours := TotalHours(usage);
    if hours > 0.0 then MachineryPage.FleetFuelCost(fuel) / hours else 0.0
  }

  // ----- The accumulator of `cropFinancials` -----

  /** The running totals of one crop. */
  datatype Totals = Totals(area: real, bags: real, inputCost: real, machineHours: real, revenue: real)

  const Zero: Totals := Totals(0.0, 0.0, 0.0, 0.0, 0.0)

  function Plus(a: Totals, b: Totals): Totals {
    Totals(a.area + b.area, a.bags + b.bags, a.inputCost + b.inputCost,
           a.machineHours + b.machineHours, a.revenue + b.revenue)
  }

  /** One property of the accumulator object: a crop key and its totals. */
  datatype Bucket = Bucket(crop: string, totals: Totals)

  function BucketCrop(b: Bucket): string { b.crop }

  function Keys(bs: seq<Bucket>): seq<string> {
    KeysOf(bs, BucketCrop)
  }

  /** `acc[crop]`: the totals under key `k`, if the key exists. */
  function Find(bs: seq<Bucket>, k: string): (r: Option<Totals>)
    ensures r.None? <==> k !in Keys(bs)
  {
    var i := IndexOf(Keys(bs), k);
    if i == -1 then None else Some(bs[i].totals)
  }

  /** `acc[crop].x += d.x` for every field `x`. */
  function AddTo(bs: seq<Bucket>, k: string, d: Totals): (r: seq<Bucket>)
    ensures |r| == |bs|
    ensures forall i :: 0 <= i < |bs| ==>
      r[i] == if bs[i].crop == k then Bucket(k, Plus(bs[i].totals, d)) else bs[i]
  {
    seq(|bs|, i requires 0 <= i < |bs| =>
      if bs[i].crop == k then Bucket(k, Plus(bs[i].totals, d)) else bs[i])
  }

  /** `if (!acc[crop]) acc[crop] = { area: 0, ... }`: a new key goes last. */
  function Touch(bs: seq<Bucket>, k: string): seq<Bucket> {
    if k in Keys(bs) then bs else bs + [Bucket(k, Zero)]
  }

  lemma FindAddTo(bs: seq<Bucket>, k0: string, d: Totals, k: string)
    ensures Keys(AddTo(bs, k0, d)) == Keys(bs)
    ensures Find(AddTo(bs, k0, d), k)
         == if k == k0 && k in Keys(bs) then Some(Plus(Find(bs, k).value, d)) else Find(bs, k)
  {
    assert Keys(AddTo(bs, k0, d)) == Keys(bs);
  }

  lemma FindTouch(bs: seq<Bucket>, k0: string, k: string)
    ensures Keys(Touch(bs, k0)) == if k0 in Keys(bs) then Keys(bs) else Keys(bs) + [k0]
    ensures Find(Touch(bs, k0), k) == if k == k0 && k !in Keys(bs) then Some(Zero) else Find(bs, k)
  {
    if k0 !in Keys(bs) {
      var t := bs + [Bucket(k0, Zero)];
      assert Keys(t) == Keys(bs) + [k0];
      IndexOfSnoc(Keys(bs), k0, k);
    }
  }

  // ----- The plot phase: `plots.reduce(...)` -----

  /** Σ `total_application_cost` of the applications on one plot. */
  function PlotInputCost(apps: seq<InputApplication>, plotId: int): real {
    Sum(Select(apps, ApplicationPlot, plotId), ApplicationCost)
  }

  /** Σ `hours_used` of the usage records on one plot. */
  function PlotHours(usage: seq<MachineryUsage>, plotId: int): real {
    Sum(Select(usage, UsagePlot, plotId), HoursUsed)
  }

  /** What one plot adds to its crop: its area, its applications' cost and its machine hours. */
  function PlotShare(p: Plot, apps: seq<InputApplication>, usage: seq<MachineryUsage>): Totals {
    Totals(p.data.areaHectares, 0.0, PlotInputCost(apps, p.id), PlotHours(usage, p.id), 0.0)
  }

  /** The buckets after the plot phase, plot by plot in list order. */
  function PlotPhase(plots: seq<Plot>, apps: seq<InputApplication>, usage: seq<MachineryUsage>): seq<Bucket>
    decreases |plots|
  {
    if |plots| == 0 then []
    else
      var p := plots[|plots| - 1];
      var k := PlotCrop(p);
      AddTo(Touch(PlotPhase(plots[..|plots| - 1], apps, usage), k), k, PlotShare(p, apps, usage))
  }

  // ----- The load phase: `prodData.forEach(...)` -----

  /** `plot?.crop_type || 'Indefinido'` for the load's plot. */
  function LoadCrop(plots: seq<Plot>, l: HarvestLoad): string {
    match Collection.FindById(plots, l.data.plotId)
    case None => Undefined
    case Some(p) => PlotCrop(p)
  }

  /**
   * A load's revenue under crop `crop`: its stored value when it was priced,
   * otherwise its net bags at that crop's listed price (0 without one).
   */
  function LoadRevenue(prices: seq<CropPrice>, crop: string, l: HarvestLoad): real {
    if l.data.pricePerBag > 0.0 then l.data.totalValue
    else PlotsPage.LoadNetBags(l) * Store.PriceOf(prices, crop).GetOr(0.0)
  }

  /**
   * A load goes to the bucket of its plot, which the plot phase has opened;
   * a load whose plot does not exist goes to 'Indefinido'.
   */
  lemma LoadCropKnown(plots: seq<Plot>, l: HarvestLoad)
    ensures l.data.plotId in Collection.Ids(plots) ==> LoadCrop(plots, l) in SeenKeys(plots)
    ensures l.data.plotId !in Collection.Ids(plots) ==> LoadCrop(plots, l) == Undefined
  {
    var found := Collection.FindById(plots, l.data.plotId);
    if l.data.plotId in Collection.Ids(plots) {
      var j :| 0 <= j < |plots| && Collection.Ids(plots)[j] == l.data.plotId;
      assert found.Some?;
      var i :| 0 <= i < |plots| && plots[i] == found.value;
      PlotCropSeen(plots, i);
    } else {
      forall i | 0 <= i < |plots| ensures plots[i].id != l.data.plotId {
        assert Collection.Ids(plots)[i] == plots[i].id;
      }
    }
  }

  /** What one load adds to its crop: its net bags and its revenue. */
  function LoadShare(prices: seq<CropPrice>, crop: string, l: HarvestLoad): Totals {
    Totals(0.0, PlotsPage.LoadNetBags(l), 0.0, 0.0, LoadRevenue(prices, crop, l))
  }

  /** The buckets `bs` after the load phase; a load whose crop has no bucket is skipped. */
  function LoadPhase(bs: seq<Bucket>, plots: seq<Plot>, loads: seq<HarvestLoad>,
                     prices: seq<CropPrice>): seq<Bucket>
    decreases |loads|
  {
    if |loads| == 0 then bs
    else
      var acc := LoadPhase(bs, plots, loads[..|loads| - 1], prices);
      var l := loads[|loads| - 1];
      var k := LoadCrop(plots, l);
      if k in Keys(acc) then AddTo(acc, k, LoadShare(prices, k, l)) else acc
  }

  /** `cropFinancials` once both phases have run. */
  function CropFinancials(plots: seq<Plot>, apps: seq<InputApplication>, usage: seq<MachineryUsage>,
                          loads: seq<HarvestLoad>, prices: seq<CropPrice>): seq<Bucket>
  {
    LoadPhase(PlotPhase(plots, apps, usage), plots, loads, prices)
  }

  // ----- An independent description of each crop's totals -----

  /** The shares of the plots whose bucket is `k`, added up. */
  function PlotTotals(plots: seq<Plot>, apps: seq<InputApplication>, usage: seq<MachineryUsage>,
                      k: string): Totals
    decreases |plots|
  {
    if |plots| == 0 then Zero
    else
      var p := plots[|plots| - 1];
      var prev := PlotTotals(plots[..|plots| - 1], apps, usage, k);
      if PlotCrop(p) == k then Plus(prev, PlotShare(p, apps, usage)) else prev
  }

  /** The shares of the loads whose crop is `k`, added up. */
  function LoadTotals(plots: seq<Plot>, loads: seq<HarvestLoad>, prices: seq<CropPrice>,
                      k: string): Totals
    decreases |loads|
  {
    if |loads| == 0 then Zero
    else
      var l := loads[|loads| - 1];
      var prev := LoadTotals(plots, loads[..|loads| - 1], prices, k);
      if LoadCrop(plots, l) == k then Plus(prev, LoadShare(prices, k, l)) else prev
  }

  lemma {:induction false} PlotTotalsUnseen(plots: seq<Plot>, apps: seq<InputApplication>,
                                            usage: seq<MachineryUsage>, k: string)
    requires k !in SeenKeys(plots)
    ensures PlotTotals(plots, apps, usage, k) == Zero
    decreases |plots|
  {
    if |plots| > 0 {
      PlotTotalsUnseen(plots[..|plots| - 1], apps, usage, k);
    }
  }

  /** The plot phase opens one bucket per crop key, in first-seen order, holding that crop's plots' shares. */
  lemma {:induction false} PlotPhaseSpec(plots: seq<Plot>, apps: seq<InputApplication>,
                                         usage: seq<MachineryUsage>)
    ensures Keys(PlotPhase(plots, apps, usage)) == SeenKeys(plots)
    ensures forall k :: Find(PlotPhase(plots, apps, usage), k)
                     == if k in SeenKeys(plots) then Some(PlotTotals(plots, apps, usage, k)) else None
    decreases |plots|
  {
    if |plots| > 0 {
      var P := plots[..|plots| - 1];
      var p := plots[|plots| - 1];
      var k0 := PlotCrop(p);
      var d := PlotShare(p, apps, usage);
      PlotPhaseSpec(P, apps, usage);
      var bs := PlotPhase(P, apps, usage);
      var t := Touch(bs, k0);
      forall k ensures Find(PlotPhase(plots, apps, usage), k)
                    == if k in SeenKeys(plots) then Some(PlotTotals(plots, apps, usage, k)) else None
      {
        FindTouch(bs, k0, k);
        FindAddTo(t, k0, d, k);
        if k == k0 && k0 !in SeenKeys(P) {
          PlotTotalsUnseen(P, apps, usage, k0);
        }
      }
      FindTouch(bs, k0, k0);
      FindAddTo(t, k0, d, k0);
    }
  }

  lemma {:induction false} LoadPhaseKeys(bs: seq<Bucket>, plots: seq<Plot>, loads: seq<HarvestLoad>,
                                         prices: seq<CropPrice>)
    ensures Keys(LoadPhase(bs, plots, loads, prices)) == Keys(bs)
    decreases |loads|
  {
    if |loads| > 0 {
      var L := loads[..|loads| - 1];
      var l := loads[|loads| - 1];
      var kl := LoadCrop(plots, l);
      LoadPhaseKeys(bs, plots, L, prices);
      FindAddTo(LoadPhase(bs, plots, L, prices), kl, LoadShare(prices, kl, l), kl);
    }
  }

  /** One step of the load phase, seen through `Find`. */
  lemma FindLoadStep(acc: seq<Bucket>, kl: string, d: Totals, k: string)
    ensures Keys(if kl in Keys(acc) then AddTo(acc, kl, d) else acc) == Keys(acc)
    ensures Find(if kl in Keys(acc) then AddTo(acc, kl, d) else acc, k)
         == if k == kl && k in Keys(acc) then Some(Plus(Find(acc, k).value, d)) else Find(acc, k)
  {
    FindAddTo(acc, kl, d, k);
  }

  /** The induction step of `LoadPhaseAt`, with the phase and the totals held abstract. */
  lemma LoadStepCombine(bs: seq<Bucket>, acc: seq<Bucket>, next: seq<Bucket>, kl: string, d: Totals,
                        prev: Totals, total: Totals, k: string)
    requires Keys(acc) == Keys(bs)
    requires Find(acc, k) == if k in Keys(bs) then Some(Plus(Find(bs, k).value, prev)) else None
    requires Find(next, k) == if k == kl && k in Keys(acc) then Some(Plus(Find(acc, k).value, d)) else Find(acc, k)
    requires total == if kl == k then Plus(prev, d) else prev
    ensures Find(next, k) == if k in Keys(bs) then Some(Plus(Find(bs, k).value, total)) else None
  {
    if k in Keys(bs) && k == kl {
      var f := Find(bs, k).value;
      assert Plus(Plus(f, prev), d) == Plus(f, Plus(prev, d));
    }
  }

  lemma {:induction false} LoadPhaseAt(bs: seq<Bucket>, plots: seq<Plot>, loads: seq<HarvestLoad>,
                                       prices: seq<CropPrice>, k: string)
    ensures Find(LoadPhase(bs, plots, loads, prices), k)
         == if k in Keys(bs) then Some(Plus(Find(bs, k).value, LoadTotals(plots, loads, prices, k)))
            else None
    decreases |loads|
  {
    if |loads| > 0 {
      var L := loads[..|loads| - 1];
      var l := loads[|loads| - 1];
      var kl := LoadCrop(plots, l);
      var acc := LoadPhase(bs, plots, L, prices);
      var d := LoadShare(prices, kl, l);
      var prev := LoadTotals(plots, L, prices, k);
      assert LoadPhase(bs, plots, loads, prices) == if kl in Keys(acc) then AddTo(acc, kl, d) else acc;
      assert LoadTotals(plots, loads, prices, k) == if kl == k then Plus(prev, d) else prev;
      FindLoadStep(acc, kl, d, k);
      LoadPhaseAt(bs, plots, L, prices, k);
      LoadPhaseKeys(bs, plots, L, prices);
      LoadStepCombine(bs, acc, LoadPhase(bs, plots, loads, prices), kl, d, prev,
                      LoadTotals(plots, loads, prices, k), k);
    }
  }

  /** The load phase adds to each existing bucket the shares of the loads of that crop, and opens none. */
  lemma LoadPhaseSpec(bs: seq<Bucket>, plots: seq<Plot>, loads: seq<HarvestLoad>, prices: seq<CropPrice>)
    ensures Keys(LoadPhase(bs, plots, loads, prices)) == Keys(bs)
    ensures forall k :: Find(LoadPhase(bs, plots, loads, prices), k)
                     == if k in Keys(bs) then Some(Plus(Find(bs, k).value, LoadTotals(plots, loads, prices, k)))
                        else None
  {
    LoadPhaseKeys(bs, plots, loads, prices);
    forall k ensures Find(LoadPhase(bs, plots, loads, prices), k)
                  == if k in Keys(bs) then Some(Plus(Find(bs, k).value, LoadTotals(plots, loads, prices, k)))
                     else None
    {
      LoadPhaseAt(bs, plots, loads, prices, k);
    }
  }

  /**
   * The per-crop financials against the independent description: one bucket
   * per crop key of the plots, each key once and in first-seen order, whose
   * totals are its plots' shares plus its loads' shares.
   */
  lemma CropFinancialsSpec(plots: seq<Plot>, apps: seq<InputApplication>, usage: seq<MachineryUsage>,
                           loads: seq<HarvestLoad>, prices: seq<CropPrice>)
    ensures Keys(CropFinancials(plots, apps, usage, loads, prices)) == SeenKeys(plots)
    ensures Unique(Keys(CropFinancials(plots, apps, usage, loads, prices)))
    ensures forall k :: Find(CropFinancials(plots, apps, usage, loads, prices), k)
                     == if k in SeenKeys(plots)
                        then Some(Plus(PlotTotals(plots, apps, usage, k), LoadTotals(plots, loads, prices, k)))
                        else None
  {
    PlotPhaseSpec(plots, apps, usage);
    LoadPhaseSpec(PlotPhase(plots, apps, usage), plots, loads, prices);
    SeenKeysSpec(plots);
  }

  // ----- Records that reference no plot -----

  /** The plot phase reads applications only through the plots' ids. */
  lemma {:induction false} PlotPhaseSkipsApplication(plots: seq<Plot>, before: seq<InputApplication>,
                                                     a: InputApplication, after: seq<InputApplication>,
                                                     usage: seq<MachineryUsage>)
    requires forall i :: 0 <= i < |plots| ==> plots[i].id != a.data.plotId
    ensures PlotPhase(plots, before + [a] + after, usage) == PlotPhase(plots, before + after, usage)
    decreases |plots|
  {
    if |plots| > 0 {
      var p := plots[|plots| - 1];
      PlotPhaseSkipsApplication(plots[..|plots| - 1], before, a, after, usage);
      SelectSkips(before, a, after, ApplicationPlot, p.id);
    }
  }

  /** The plot phase reads usage records only through the plots' ids. */
  lemma {:induction false} PlotPhaseSkipsUsage(plots: seq<Plot>, apps: seq<InputApplication>,
                                               before: seq<MachineryUsage>, u: MachineryUsage,
                                               after: seq<MachineryUsage>)
    requires forall i :: 0 <= i < |plots| ==> plots[i].id != u.data.plotId
    ensures PlotPhase(plots, apps, before + [u] + after) == PlotPhase(plots, apps, before + after)
    decreases |plots|
  {
    if |plots| > 0 {
      var p := plots[|plots| - 1];
      PlotPhaseSkipsUsage(plots[..|plots| - 1], apps, before, u, after);
      SelectSkips(before, u, after, UsagePlot, p.id);
    }
  }

  /** An application whose plot does not exist, wherever it stands in the list, changes no bucket. */
  lemma OrphanApplicationIgnored(plots: seq<Plot>, before: seq<InputApplication>, a: InputApplication,
                                 after: seq<InputApplication>, usage: seq<MachineryUsage>,
                                 loads: seq<HarvestLoad>, prices: seq<CropPrice>)
    requires a.data.plotId !in Collection.Ids(plots)
    ensures CropFinancials(plots, before + [a] + after, usage, loads, prices)
         == CropFinancials(plots, before + after, usage, loads, prices)
  {
    forall i | 0 <= i < |plots| ensures plots[i].id != a.data.plotId {
      assert Collection.Ids(plots)[i] == plots[i].id;
    }
    PlotPhaseSkipsApplication(plots, before, a, after, usage);
  }

  /** A usage record whose plot does not exist, wherever it stands in the list, changes no bucket. */
  lemma OrphanUsageIgnored(plots: seq<Plot>, apps: seq<InputApplication>, before: seq<MachineryUsage>,
                           u: MachineryUsage, after: seq<MachineryUsage>,
                           loads: seq<HarvestLoad>, prices: seq<CropPrice>)
    requires u.data.plotId !in Collection.Ids(plots)
    ensures CropFinancials(plots, apps, before + [u] + after, loads, prices)
         == CropFinancials(plots, apps, before + after, loads, prices)
  {
    forall i | 0 <= i < |plots| ensures plots[i].id != u.data.plotId {
      assert Collection.Ids(plots)[i] == plots[i].id;
    }
    PlotPhaseSkipsUsage(plots, apps, before, u, after);
  }

  /**
   * A load whose plot does not exist goes to 'Indefinido': it is dropped
   * when no plot opened that bucket, and otherwise added to it.
   */
  lemma OrphanLoad(plots: seq<Plot>, apps: seq<InputApplication>, usage: seq<MachineryUsage>,
                   loads: seq<HarvestLoad>, prices: seq<CropPrice>, l: HarvestLoad)
    requires l.data.plotId !in Collection.Ids(plots)
    ensures Undefined !in SeenKeys(plots) ==>
      CropFinancials(plots, apps, usage, loads + [l], prices)
      == CropFinancials(plots, apps, usage, loads, prices)
    ensures Undefined in SeenKeys(plots) ==>
      && Find(CropFinancials(plots, apps, usage, loads, prices), Undefined).Some?
      && Find(CropFinancials(plots, apps, usage, loads + [l], prices), Undefined)
      == Some(Plus(Find(CropFinancials(plots, apps, usage, loads, prices), Undefined).value,
                   LoadShare(prices, Undefined, l)))
  {
    var bs := PlotPhase(plots, apps, usage);
    assert (loads + [l])[..|loads|] == loads;
    forall i | 0 <= i < |plots| ensures plots[i].id != l.data.plotId {
      assert Collection.Ids(plots)[i] == plots[i].id;
    }
    PlotPhaseSpec(plots, apps, usage);
    LoadPhaseSpec(bs, plots, loads, prices);
    FindAddTo(LoadPhase(bs, plots, loads, prices), Undefined, LoadShare(prices, Undefined, l), Undefined);
  }

  // ----- A load's revenue against the production page's stored value -----

  /**
   * For a load saved by the production form, the dashboard's revenue is its
   * moisture-corrected bags at the price typed in when one was typed in, and
   * at the crop's listed price (0 without one) otherwise: the two copies of
   * the correction rule agree.
   */
  lemma RevenueOfSubmittedLoad(plots: seq<Plot>, form: ProductionPage.LoadForm, id: nat,
                               prices: seq<CropPrice>, crop: string)
    requires ProductionPage.BuildLoad(plots, form).Some?
    ensures var l := Entity(id, ProductionPage.BuildLoad(plots, form).value);
      && (form.pricePerBag.Some? && form.pricePerBag.value > 0.0 ==>
            LoadRevenue(prices, crop, l) == PlotsPage.LoadNetBags(l) * form.pricePerBag.value)
      && (form.pricePerBag.None? || form.pricePerBag.value <= 0.0 ==>
            LoadRevenue(prices, crop, l)
            == PlotsPage.LoadNetBags(l) * Store.PriceOf(prices, crop).GetOr(0.0))
  {
    var data := ProductionPage.BuildLoad(plots, form).value;
    CopiesAgree(data.weightKg, data.moisturePercent);
    var bags := NetBags(data.weightKg, data.moisturePercent);
    assert bags * BagKg == NetWeight(data.weightKg, data.moisturePercent);
    if form.pricePerBag.Some? && form.pricePerBag.value > 0.0 {
      var p := form.pricePerBag.value;
      assert data.totalValue * BagKg == (bags * p) * BagKg;
    }
  }

  // ----- Sums over the buckets -----

  /** Σ of one field of the totals over the buckets. */
  function SumField(bs: seq<Bucket>, g: Totals -> real): real
    decreases |bs|
  {
    if |bs| == 0 then 0.0 else SumField(bs[..|bs| - 1], g) + g(bs[|bs| - 1].totals)
  }

  /** `g` reads a field of the totals: it maps `Plus` to `+` and `Zero` to 0. */
  ghost predicate Additive(g: Totals -> real) {
    && (forall a, b :: g(Plus(a, b)) == g(a) + g(b))
    && g(Zero) == 0.0
  }

  /** `g` reads a field that no load adds to. */
  ghost predicate BlindToLoads(g: Totals -> real) {
    forall bags, revenue :: g(Totals(0.0, bags, 0.0, 0.0, revenue)) == 0.0
  }

  function AreaOf(t: Totals): real { t.area }
  function InputCostOf(t: Totals): real { t.inputCost }
  function HoursOf(t: Totals): real { t.machineHours }
  function PlotArea(p: Plot): real { p.data.areaHectares }

  lemma {:induction false} AddToAbsent(bs: seq<Bucket>, k: string, d: Totals)
    requires k !in Keys(bs)
    ensures AddTo(bs, k, d) == bs
  {
    assert forall i :: 0 <= i < |bs| ==> bs[i].crop != k by {
      forall i | 0 <= i < |bs| ensures bs[i].crop != k {
        assert Keys(bs)[i] == bs[i].crop;
      }
    }
  }

  /** With unique keys, adding `d` under `k` raises the field's sum by `g(d)` when `k` exists. */
  lemma {:induction false} SumFieldAddTo(bs: seq<Bucket>, k: string, d: Totals, g: Totals -> real)
    requires Additive(g)
    requires Unique(Keys(bs))
    ensures SumField(AddTo(bs, k, d), g) == SumField(bs, g) + (if k in Keys(bs) then g(d) else 0.0)
    decreases |bs|
  {
    if |bs| > 0 {
      var n := |bs|;
      var bs' := bs[..n - 1];
      var b := bs[n - 1];
      var r := AddTo(bs, k, d);
      assert r[..n - 1] == AddTo(bs', k, d);
      assert Keys(bs) == Keys(bs') + [b.crop];
      if b.crop == k {
        assert k !in Keys(bs');
        AddToAbsent(bs', k, d);
        assert g(Plus(b.totals, d)) == g(b.totals) + g(d);
      } else {
        assert Unique(Keys(bs'));
        SumFieldAddTo(bs', k, d, g);
      }
    }
  }

  lemma SumFieldTouch(bs: seq<Bucket>, k: string, g: Totals -> real)
    requires Additive(g)
    ensures SumField(Touch(bs, k), g) == SumField(bs, g)
  {
    if k !in Keys(bs) {
      assert (bs + [Bucket(k, Zero)])[..|bs|] == bs;
    }
  }

  /** The plots' shares read through `g`, added up. */
  function SumShares(plots: seq<Plot>, apps: seq<InputApplication>, usage: seq<MachineryUsage>,
                     g: Totals -> real): real
    decreases |plots|
  {
    if |plots| == 0 then 0.0
    else SumShares(plots[..|plots| - 1], apps, usage, g) + g(PlotShare(plots[|plots| - 1], apps, usage))
  }

  /** The plot phase's keys are the crops in first-seen order, each once. */
  lemma PlotPhaseKeys(plots: seq<Plot>, apps: seq<InputApplication>, usage: seq<MachineryUsage>)
    ensures Keys(PlotPhase(plots, apps, usage)) == SeenKeys(plots)
    ensures Unique(Keys(PlotPhase(plots, apps, usage)))
  {
    PlotPhaseSpec(plots, apps, usage);
    SeenKeysSpec(plots);
  }

  /** The plot phase loses and duplicates no share: each plot's share lands in exactly one bucket. */
  lemma {:induction false} PlotPhaseSum(plots: seq<Plot>, apps: seq<InputApplication>,
                                        usage: seq<MachineryUsage>, g: Totals -> real)
    requires Additive(g)
    ensures SumField(PlotPhase(plots, apps, usage), g) == SumShares(plots, apps, usage, g)
    decreases |plots|
  {
    if |plots| > 0 {
      var P := plots[..|plots| - 1];
      var k := PlotCrop(plots[|plots| - 1]);
      var bs := PlotPhase(P, apps, usage);
      PlotPhaseSum(P, apps, usage, g);
      PlotPhaseKeys(P, apps, usage);
      FindTouch(bs, k, k);
      assert Unique(Keys(Touch(bs, k)));
      SumFieldTouch(bs, k, g);
      SumFieldAddTo(Touch(bs, k), k, PlotShare(plots[|plots| - 1], apps, usage), g);
    }
  }

  /** The load phase leaves a field untouched when no load adds to it. */
  lemma {:induction false} LoadPhaseKeepsField(bs: seq<Bucket>, plots: seq<Plot>, loads: seq<HarvestLoad>,
                                               prices: seq<CropPrice>, g: Totals -> real)
    requires Additive(g) && BlindToLoads(g)
    requires Unique(Keys(bs))
    ensures SumField(LoadPhase(bs, plots, loads, prices), g) == SumField(bs, g)
    decreases |loads|
  {
    if |loads| > 0 {
      var L := loads[..|loads| - 1];
      var l := loads[|loads| - 1];
      var k := LoadCrop(plots, l);
      LoadPhaseKeepsField(bs, plots, L, prices, g);
      LoadPhaseSpec(bs, plots, L, prices);
      var acc := LoadPhase(bs, plots, L, prices);
      if k in Keys(acc) {
        SumFieldAddTo(acc, k, LoadShare(prices, k, l), g);
      }
    }
  }

  /** No load adds area, input cost or hours. */
  lemma {:induction false} LoadTotalsBlind(plots: seq<Plot>, loads: seq<HarvestLoad>, prices: seq<CropPrice>,
                                           k: string)
    ensures LoadTotals(plots, loads, prices, k).area == 0.0
    ensures LoadTotals(plots, loads, prices, k).inputCost == 0.0
    ensures LoadTotals(plots, loads, prices, k).machineHours == 0.0
    decreases |loads|
  {
    if |loads| > 0 {
      LoadTotalsBlind(plots, loads[..|loads| - 1], prices, k);
    }
  }

  /** The load phase leaves every bucket's area, input cost and hours as the plot phase left them. */
  lemma LoadPhaseKeepsPlotFields(bs: seq<Bucket>, plots: seq<Plot>, loads: seq<HarvestLoad>,
                                 prices: seq<CropPrice>, k: string)
    ensures k in Keys(bs) <==> Find(LoadPhase(bs, plots, loads, prices), k).Some?
    ensures k in Keys(bs) ==>
      var before := Find(bs, k).value;
      var after := Find(LoadPhase(bs, plots, loads, prices), k).value;
      && after.area == before.area
      && after.inputCost == before.inputCost
      && after.machineHours == before.machineHours
  {
    LoadPhaseAt(bs, plots, loads, prices, k);
    LoadTotalsBlind(plots, loads, prices, k);
  }

  lemma {:induction false} SharesArea(plots: seq<Plot>, apps: seq<InputApplication>, usage: seq<MachineryUsage>)
    ensures SumShares(plots, apps, usage, AreaOf) == Sum(plots, PlotArea)
    decreases |plots|
  {
    if |plots| > 0 {
      SharesArea(plots[..|plots| - 1], apps, usage);
    }
  }

  lemma {:induction false} SharesInputCost(plots: seq<Plot>, apps: seq<InputApplication>,
                                           usage: seq<MachineryUsage>)
    ensures SumShares(plots, apps, usage, InputCostOf)
         == Collection.SumPerEntity(plots, apps, ApplicationPlot, ApplicationCost)
    decreases |plots|
  {
    if |plots| > 0 {
      SharesInputCost(plots[..|plots| - 1], apps, usage);
    }
  }

  lemma {:induction false} SharesHours(plots: seq<Plot>, apps: seq<InputApplication>,
                                       usage: seq<MachineryUsage>)
    ensures SumShares(plots, apps, usage, HoursOf)
         == Collection.SumPerEntity(plots, usage, UsagePlot, HoursUsed)
    decreases |plots|
  {
    if |plots| > 0 {
      SharesHours(plots[..|plots| - 1], apps, usage);
    }
  }

  /** Every plot adds its area to exactly one bucket: the buckets' areas add up to the total area. */
  lemma BucketsCoverArea(plots: seq<Plot>, apps: seq<InputApplication>, usage: seq<MachineryUsage>,
                         loads: seq<HarvestLoad>, prices: seq<CropPrice>)
    ensures SumField(CropFinancials(plots, apps, usage, loads, prices), AreaOf) == Sum(plots, PlotArea)
  {
    PlotPhaseSpec(plots, apps, usage);
    SeenKeysSpec(plots);
    PlotPhaseSum(plots, apps, usage, AreaOf);
    LoadPhaseKeepsField(PlotPhase(plots, apps, usage), plots, loads, prices, AreaOf);
    SharesArea(plots, apps, usage);
  }

  /**
   * With unique plot ids and every application naming an existing plot, the
   * buckets' input costs add up to the cost of all applications.
   */
  lemma BucketsCoverApplications(plots: seq<Plot>, apps: seq<InputApplication>, usage: seq<MachineryUsage>,
                                 loads: seq<HarvestLoad>, prices: seq<CropPrice>)
    requires Collection.UniqueIds(plots)
    requires forall a :: a in apps ==> a.data.plotId in Collection.Ids(plots)
    ensures SumField(CropFinancials(plots, apps, usage, loads, prices), InputCostOf) == Sum(apps, ApplicationCost)
  {
    PlotPhaseSpec(plots, apps, usage);
    SeenKeysSpec(plots);
    PlotPhaseSum(plots, apps, usage, InputCostOf);
    LoadPhaseKeepsField(PlotPhase(plots, apps, usage), plots, loads, prices, InputCostOf);
    SharesInputCost(plots, apps, usage);
    Collection.SumPerEntityTotal(plots, apps, ApplicationPlot, ApplicationCost);
  }

  /**
   * With unique plot ids and every usage record naming an existing plot, the
   * buckets' machine hours add up to the fleet's total hours.
   */
  lemma BucketsCoverUsage(plots: seq<Plot>, apps: seq<InputApplication>, usage: seq<MachineryUsage>,
                          loads: seq<HarvestLoad>, prices: seq<CropPrice>)
    requires Collection.UniqueIds(plots)
    requires forall u :: u in usage ==> u.data.plotId in Collection.Ids(plots)
    ensures SumField(CropFinancials(plots, apps, usage, loads, prices), HoursOf) == TotalHours(usage)
  {
    PlotPhaseSpec(plots, apps, usage);
    SeenKeysSpec(plots);
    PlotPhaseSum(plots, apps, usage, HoursOf);
    LoadPhaseKeepsField(PlotPhase(plots, apps, usage), plots, loads, prices, HoursOf);
    SharesHours(plots, apps, usage);
    Collection.SumPerEntityTotal(plots, usage, UsagePlot, HoursUsed);
  }

  // ----- `chartData` and the global totals -----

  /** One row of the chart; exact values, before display rounding. */
  datatype ChartRow = ChartRow(name: string, cost: real, revenue: real, profit: real,
                               area: real, productivity: real, profitPerHa: real)

  /**
   * The row of one bucket at diesel rate `rate`: machine hours are costed at
   * the rate, and the per-hectare figures are 0 for a crop without area.
   */
  function Row(b: Bucket, rate: real): (r: ChartRow)
    ensures r.name == b.crop && r.revenue == b.totals.revenue && r.area == b.totals.area
    ensures r.cost == b.totals.inputCost + b.totals.machineHours * rate
    ensures r.profit == r.revenue - r.cost
    ensures b.totals.area > 0.0 ==>
      r.productivity * b.totals.area == b.totals.bags && r.profitPerHa * b.totals.area == r.profit
    ensures b.totals.area <= 0.0 ==> r.productivity == 0.0 && r.profitPerHa == 0.0
  {
    var t := b.totals;
    var cost := t.inputCost + t.machineHours * rate;
    var profit := t.revenue - cost;
    ChartRow(b.crop, cost, t.revenue, profit, t.area,
             PlotsPage.Productivity(t.bags, t.area), PlotsPage.Productivity(profit, t.area))
  }

  /** `chartData`: one row per bucket, in key order. */
  function ChartData(bs: seq<Bucket>, rate: real): (r: seq<ChartRow>)
    ensures |r| == |bs|
    ensures forall i :: 0 <= i < |bs| ==> r[i] == Row(bs[i], rate)
  {
    seq(|bs|, i requires 0 <= i < |bs| => Row(bs[i], rate))
  }

  function RowCost(r: ChartRow): real { r.cost }
  function RowRevenue(r: ChartRow): real { r.revenue }
  function RowProfit(r: ChartRow): real { r.profit }

  function GlobalRevenue(rows: seq<ChartRow>): real { Sum(rows, RowRevenue) }
  function GlobalCost(rows: seq<ChartRow>): real { Sum(rows, RowCost) }
  function GlobalProfit(rows: seq<ChartRow>): real { GlobalRevenue(rows) - GlobalCost(rows) }

  /** With no hours worked anywhere, no diesel is charged: each row's cost is its input cost. */
  lemma NoHoursNoFuelCharge(bs: seq<Bucket>, fuel: seq<FuelRefill>, usage: seq<MachineryUsage>)
    requires TotalHours(usage) <= 0.0
    ensures forall i :: 0 <= i < |bs| ==>
              ChartData(bs, FuelCostPerHour(fuel, usage))[i].cost == bs[i].totals.inputCost
  {
  }

  /** The global profit is also the sum of the rows' profits. */
  lemma {:induction false} GlobalProfitIsSumOfProfits(bs: seq<Bucket>, rate: real)
    ensures Sum(ChartData(bs, rate), RowProfit) == GlobalProfit(ChartData(bs, rate))
    decreases |bs|
  {
    if |bs| > 0 {
      var rows := ChartData(bs, rate);
      assert rows[..|rows| - 1] == ChartData(bs[..|bs| - 1], rate);
      GlobalProfitIsSumOfProfits(bs[..|bs| - 1], rate);
    }
  }

  /** The arithmetic of one step of `GlobalCostSplits`: hours charged at a rate distribute over a sum. */
  lemma CostStep(cost: real, cost': real, input: real, input': real, rowInput: real,
                 hours: real, hours': real, rowHours: real, rate: real)
    requires cost == cost' + (rowInput + rowHours * rate)
    requires cost' == input' + hours' * rate
    requires input == input' + rowInput
    requires hours == hours' + rowHours
    ensures cost == input + hours * rate
  {
    assert (hours' + rowHours) * rate == hours' * rate + rowHours * rate;
  }

  /** Rows costed at `rate` from the buckets add up to the buckets' input cost plus their hours at the rate. */
  lemma {:induction false} CostsSplit(rows: seq<ChartRow>, bs: seq<Bucket>, rate: real)
    requires |rows| == |bs|
    requires forall i :: 0 <= i < |bs| ==>
      rows[i].cost == bs[i].totals.inputCost + bs[i].totals.machineHours * rate
    ensures Sum(rows, RowCost) == SumField(bs, InputCostOf) + SumField(bs, HoursOf) * rate
    decreases |bs|
  {
    if |bs| > 0 {
      var n := |bs|;
      var t := bs[n - 1].totals;
      CostsSplit(rows[..n - 1], bs[..n - 1], rate);
      CostStep(Sum(rows, RowCost), Sum(rows[..n - 1], RowCost),
               SumField(bs, InputCostOf), SumField(bs[..n - 1], InputCostOf), t.inputCost,
               SumField(bs, HoursOf), SumField(bs[..n - 1], HoursOf), t.machineHours, rate);
    }
  }

  /** The chart's total cost is the buckets' input cost plus their hours at the rate. */
  lemma GlobalCostSplits(bs: seq<Bucket>, rate: real)
    ensures GlobalCost(ChartData(bs, rate)) == SumField(bs, InputCostOf) + SumField(bs, HoursOf) * rate
  {
    CostsSplit(ChartData(bs, rate), bs, rate);
  }

  /** Charging the buckets' hours at a rate that spreads `fleet` over all hours charges `fleet` in full. */
  lemma ChargedAtRate(bs: seq<Bucket>, hours: real, rate: real, fleet: real)
    requires SumField(bs, HoursOf) == hours
    requires hours > 0.0 ==> hours * rate == fleet
    requires hours <= 0.0 ==> rate == 0.0
    ensures GlobalCost(ChartData(bs, rate))
         == SumField(bs, InputCostOf) + (if hours > 0.0 then fleet else 0.0)
  {
    GlobalCostSplits(bs, rate);
  }

  /**
   * The fleet's diesel is charged to the crops in full: when machines worked
   * and every usage record names one of the (uniquely identified) plots, the
   * chart's total cost is the applications' cost plus the fleet's fuel cost.
   * Without hours, no fuel is charged at all.
   */
  lemma FuelChargedInFull(plots: seq<Plot>, apps: seq<InputApplication>, usage: seq<MachineryUsage>,
                          loads: seq<HarvestLoad>, prices: seq<CropPrice>, fuel: seq<FuelRefill>)
    requires Collection.UniqueIds(plots)
    requires forall u :: u in usage ==> u.data.plotId in Collection.Ids(plots)
    ensures var bs := CropFinancials(plots, apps, usage, loads, prices);
      GlobalCost(ChartData(bs, FuelCostPerHour(fuel, usage)))
      == SumField(bs, InputCostOf)
         + (if TotalHours(usage) > 0.0 then MachineryPage.FleetFuelCost(fuel) else 0.0)
  {
    var rate := FuelCostPerHour(fuel, usage);
    var hours := TotalHours(usage);
    var fleet := MachineryPage.FleetFuelCost(fuel);
    assert hours > 0.0 ==> hours * rate == fleet;
    assert hours <= 0.0 ==> rate == 0.0;
    BucketsCoverUsage(plots, apps, usage, loads, prices);
    ChargedAtRate(CropFinancials(plots, apps, usage, loads, prices), hours, rate, fleet);
  }
}
