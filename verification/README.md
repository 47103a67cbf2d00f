# AGRSLTDA farm dashboard: a Dafny model of its core

AGRSLTDA is a client-side farm management dashboard. It has five pages and a
key-value store. This project models the logic behind them as pure Dafny
functions over immutable records, and proves what that logic promises:

- **The store** (`services/mockApi.ts`). There are seven id-keyed collections
  (machines, plots, inputs, input applications, harvest loads, machinery
  usage, fuel refills) and a list of crop prices keyed by crop name.
  - Saving without an id inserts with the id `max(0, ids) + 1`.
  - Saving with an id replaces the first record that has it.
  - Deleting filters the id out.
  - Saving a crop price replaces the entry for that crop or appends one.
  - A key that was never written reads as its seed: two plots and four crop
    prices. Every other collection starts empty.
  - The store is a record of eight slots. Every operation rewrites exactly
    one slot, so nothing cascades.
- **Moisture correction** (`Moisture`). A load is corrected by the factor
  `(100 - m) / 86` when its moisture m is above 14 %, and by 1 otherwise. A
  bag is 60 kg. The source copies this rule three times. Two of the copies
  read a moisture of 0 as 14; the model proves that all three copies agree.
- **The plots page.** It shows each plot's corrected bags and its
  productivity, and groups the plots by crop. A plot without a crop goes to
  'Indefinido'. Groups appear in first-seen order.
- **The production page.** It shows the harvest-load record its form builds
  and the totals on its cards.
- **The machinery page.** It shows refuelled litres per hour worked for each
  machine, the refill and usage records its forms build, the fleet totals
  and the number of active machines.
- **The inputs page.** It covers the rows of the application form, how an
  application is costed from the inputs' current prices, and the stock gauge.
- **The dashboard.**
  - The fleet's diesel cost per machine hour.
  - The per-crop financials: area, corrected bags, input cost, machine hours
    and revenue, joined from plots, applications, usage, loads and crop
    prices.
  - The chart rows and the global totals.

Every fold of the source is a left fold on `seq` (`Folds.Sum`,
`Folds.Select`). Ids are natural numbers, a machine's year is an `int`,
and every other number (areas, weights, prices, hours, litres, costs) is
an exact `real`. Optional form fields and
nullable record fields are `Option`. The source's JavaScript truthiness is
written out case by case. Examples:

- an id of 0 inserts, like no id;
- a refill price of 0 gives no total cost;
- an empty note is stored as null;
- an empty name reads as '?'.

The source's accumulator objects keep their keys in insertion order. They
are modelled as sequences of (key, totals) buckets, and proved equal to an
independent description: one bucket per crop in first-seen order, holding
the shares of that crop's plots and loads.

Two modelling decisions:

- **Update with an id that no record has is a no-op.** The source writes to
  index -1 of the array. That creates a property which JSON serialisation
  does not persist, so the stored list is unchanged.
- **Fuel attribution needs two assumptions.** The lemmas that attribute
  records to plots in total assume that plot ids are unique, which is the
  store's invariant that every save and delete keeps. They also assume that
  the records name existing plots. The dashboard itself makes neither
  assumption, and the model shows what happens without them: records of a
  missing plot are ignored, and loads of a missing plot go to 'Indefinido'.

## Model

| member | source | states |
|---|---|---|
| Types.ParseStatus | types.ts:8 | a machine status is one of exactly three literals ('Ativo', 'Manutenção', 'Inativo'); any other text is rejected |
| Types.StatusRoundTrip | types.ts:8 | the three status literals are distinct: reading a stored status gives back the status |
| Types.ParseUnit | types.ts:27 | an input unit is one of exactly 'L', 'KG', 'UN'; any other text is rejected |
| Types.UnitRoundTrip | types.ts:24-38 | the unit shared by stock items and application items survives being stored as text |
| Collection.MaxId | services/mockApi.ts:44 | `Math.max(0, ...ids)` is at least every id and is either 0 or one of the ids |
| Collection.Insert | services/mockApi.ts:44-45 | an insert appends exactly one record, keeps every earlier record at its index, and gives the new record an id above every existing id |
| Collection.NextIdFresh | services/mockApi.ts:44 | the first id of an empty collection is 1; every assigned id differs from every existing id |
| Collection.InsertKeepsUniqueIds | services/mockApi.ts:43-46 | inserting preserves id uniqueness |
| Collection.FindById | components/Dashboard.tsx:64 | `find` by id: nothing exactly when no record has the id, otherwise the first record that has it |
| Collection.Update | services/mockApi.ts:40-42 | an update with an existing id replaces only the first record with that id, under that id, at its position; with an absent id the list is unchanged |
| Collection.UpdateKeepsUniqueIds | services/mockApi.ts:40-42 | an update keeps the list of ids, hence their uniqueness |
| Collection.UpdateTwice | services/mockApi.ts:40-42 | two updates of one record leave the later data |
| Collection.Save | services/mockApi.ts:38-48 | a save keeps ids unique; with no id or the id 0 it appends one record carrying the data under a fresh id, keeps every earlier record, and a lookup of that id finds it; with a non-zero id it keeps the list of ids, a lookup of an existing id finds the new data, and an absent id changes nothing |
| Collection.Delete | services/mockApi.ts:49-52 | a delete keeps exactly the records whose id differs |
| Collection.DeleteDistributes | services/mockApi.ts:49-52 | a delete filters record by record, so the survivors keep their original order |
| Collection.DeleteAbsent | services/mockApi.ts:66-69 | deleting an id that no record has changes nothing |
| Collection.DeleteIdempotent | services/mockApi.ts:111-114 | deleting twice is deleting once |
| Collection.DeleteKeepsUniqueIds | services/mockApi.ts:49-52 | deleting keeps ids unique |
| Collection.DeleteUndoesInsert | services/mockApi.ts:44-52 | deleting the record just inserted restores the list |
| Collection.SumPerEntityTotal | components/Dashboard.tsx:51-57 | with unique parent ids and every child naming a parent, adding up each parent's filtered sum gives the sum over all children |
| Store.WritesReadBack | services/mockApi.ts:27-69 | from a fresh store, for example: the first plot saved follows the two seed plots with the id 3, the first machine gets the id 1, and a plot list emptied by deletes stays empty |
| Store.FreshStoreReadsSeeds | services/mockApi.ts:15-25 | a fresh store holds two plots (50 ha Soja, 120 ha Milho) with unique ids, four crop prices with unique crops, and empty other collections |
| Store.SaveMachine | services/mockApi.ts:38-48 | saving a machine rewrites only the machines key with the collection save; the key is then marked written and never reads its seed again |
| Store.DeleteMachine | services/mockApi.ts:49-52 | deleting a machine rewrites only the machines key, which is then marked written and never reads its seed again |
| Store.SavePlot | services/mockApi.ts:55-65 | saving a plot rewrites only the plots key, which is then marked written and never reads its seed again |
| Store.DeletePlot | services/mockApi.ts:66-69 | deleting a plot rewrites only the plots key, which is then marked written and never reads its seed again: loads, usage and applications naming it survive |
| Store.SaveInput | services/mockApi.ts:82-92 | saving an input rewrites only the inputs key, which is then marked written and never reads its seed again |
| Store.DeleteInput | services/mockApi.ts:94-97 | deleting an input rewrites only the inputs key, which is then marked written and never reads its seed again |
| Store.SaveApplication | services/mockApi.ts:100-110 | saving an application rewrites only the applications key, which is then marked written and never reads its seed again; no stock changes |
| Store.DeleteApplication | services/mockApi.ts:111-114 | deleting an application rewrites only the applications key, which is then marked written and never reads its seed again; no stock is returned |
| Store.SaveHarvestLoad | services/mockApi.ts:117-127 | saving a load rewrites only the production key, which is then marked written and never reads its seed again |
| Store.DeleteHarvestLoad | services/mockApi.ts:128-131 | deleting a load rewrites only the production key, which is then marked written and never reads its seed again |
| Store.SaveUsage | services/mockApi.ts:134-144 | saving a usage record rewrites only the usage key, which is then marked written and never reads its seed again |
| Store.DeleteUsage | services/mockApi.ts:145-148 | deleting a usage record rewrites only the usage key, which is then marked written and never reads its seed again |
| Store.SaveFuel | services/mockApi.ts:151-161 | saving a refill rewrites only the fuel key, which is then marked written and never reads its seed again |
| Store.DeleteFuel | services/mockApi.ts:162-165 | deleting a refill rewrites only the fuel key, which is then marked written and never reads its seed again |
| Store.PriceIndex | services/mockApi.ts:74 | the position of the first entry for a crop, or -1 when there is none |
| Store.PriceOf | components/Dashboard.tsx:78-79 | a crop's listed price: none exactly when no entry has the crop, otherwise the price of the first entry for it |
| Store.UpsertPrice | services/mockApi.ts:72-78 | saving a crop price replaces the first entry for that crop in place, or appends it when the crop is new |
| Store.SaveCropPrice | services/mockApi.ts:72-78 | saving a crop price rewrites only the prices key, which is then marked written and never reads its seed again |
| Store.UpsertThenLookup | services/mockApi.ts:72-78 | after saving a crop's price, `PriceOf` (the `find` by crop) returns that price |
| Store.UpsertKeepsOtherCrops | services/mockApi.ts:74-76 | saving one crop's price changes no other crop's lookup |
| Store.UpsertKeepsUniqueCrops | services/mockApi.ts:72-78 | crop keys stay unique |
| Store.UpsertIdempotent | services/mockApi.ts:72-78 | saving the same price twice equals saving it once |
| Moisture.Defaulted | components/PlotsPage.tsx:57 | the defaulted moisture is never 0, a set moisture is kept, an unset one reads as 14, and the default never changes the correction factor |
| Moisture.Factor | components/ProductionPage.tsx:41-43 | the factor is 1 at or below 14 %; above it, factor × 86 = 100 − m, strictly between 0 and 1 up to 100 % |
| Moisture.NetWeight | components/PlotsPage.tsx:58-62 | drier loads keep their gross weight; above 14 % the net weight is gross × (100 − m) / 86, so wetter ones (below 100 %) weigh strictly less but more than 0 |
| Moisture.NetBags | components/ProductionPage.tsx:45-46 | net bags × 60 = net weight |
| Moisture.CopiesAgree | components/Dashboard.tsx:67-72 | the copy with the `|| 14` default and the copy without it compute the same factor and the same bags |
| Moisture.FactorDecreasing | components/PlotsPage.tsx:58-60 | above the basis, wetter loads get a strictly smaller factor |
| Crops.CropKey | components/PlotsPage.tsx:71 | a crop's bucket is its name, or 'Indefinido' for an empty name; it is never empty |
| Crops.FirstIndex | components/PlotsPage.tsx:70-75 | the position of the first plot of a bucket, or the number of plots when there is none |
| Crops.SeenKeysSpec | components/PlotsPage.tsx:70-75 | the accumulator's keys are the plots' buckets, each once, ordered by where each is first seen |
| Crops.PlotCropSeen | components/Dashboard.tsx:44-48 | every plot's bucket is among the keys |
| PlotsPage.Productivity | components/PlotsPage.tsx:66 | productivity × area = net bags for a positive area, 0 otherwise |
| PlotsPage.LoadNetBags | components/PlotsPage.tsx:55-63 | a load's net bags are its moisture-corrected weight in 60 kg bags; the `|| 14` default for an unset moisture changes nothing |
| PlotsPage.GetPlotStats | components/PlotsPage.tsx:51-68 | a plot's stats carry the corrected bags of its loads and the productivity over its area |
| PlotsPage.PlotNetBagsSnoc | components/PlotsPage.tsx:52-64 | `PlotNetBags`: a new load adds its own net bags to its plot and nothing to any other plot |
| PlotsPage.PlotNetBagsIgnoresOtherPlots | components/PlotsPage.tsx:52 | loads of other plots have no effect, wherever they appear |
| PlotsPage.PlotNetBagsPermutation | components/PlotsPage.tsx:51-64 | a plot's bags do not depend on the order of the loads |
| PlotsPage.PlotsWithCrop | components/PlotsPage.tsx:70-75 | the plots of one bucket: exactly the plots whose bucket it is |
| PlotsPage.GroupPlotsSpec | components/PlotsPage.tsx:70-75 | `GroupPlots` (`groupedPlots`) has one group per bucket in first-seen order, holding exactly that bucket's plots in their original order |
| PlotsPage.GroupPlotsCount | components/PlotsPage.tsx:70-75 | the groups hold as many plots as there are plots |
| PlotsPage.GroupsPartitionPlots | components/PlotsPage.tsx:70-75 | every plot is in exactly one group, the one of its bucket; keys are unique and in first-seen order |
| MachineryPage.Consumption | components/MachineryPage.tsx:174-182 | consumption × the machine's hours (`MachineHours`) = its refuelled litres when it has positive hours, and 0 otherwise |
| MachineryPage.ConsumptionPermutation | components/MachineryPage.tsx:175-179 | consumption does not depend on the order of the records |
| MachineryPage.ConsumptionIgnoresOtherMachines | components/MachineryPage.tsx:175-176 | records of other machines do not change a machine's consumption |
| MachineryPage.RefillTotalCost | components/MachineryPage.tsx:115-116 | a refill has a total cost exactly when a non-zero price was given, and then it is quantity × price; read with `|| 0` as the cost card does, it is quantity × price whether the price was empty, 0 or set |
| MachineryPage.NameOr | components/MachineryPage.tsx:96 | a shown name is never empty: it is the resolved record's own name, or '?' when the record is missing or its name is empty |
| MachineryPage.BuildRefill | components/MachineryPage.tsx:111-127 | the saved refill keeps what was entered; empty price, odometer and notes are null; total cost as above |
| MachineryPage.BuildUsage | components/MachineryPage.tsx:89-103 | the saved usage keeps what was entered, an empty fuel field reads as 0, and unresolved names read as '?' |
| MachineryPage.BuiltRefillCharged | components/MachineryPage.tsx:111-127 | a refill saved by the form raises the diesel cost card by quantity × price (nothing for an empty or 0 price) and the volume card by its quantity |
| MachineryPage.BuiltUsageCounted | components/MachineryPage.tsx:89-103 | a usage record saved by the form adds its hours to the machine it names and to no other, whether or not that machine resolves |
| MachineryPage.FleetVolumeIsSumOverMachines | components/MachineryPage.tsx:191 | `FleetFuelVolume` is the sum of the machines' own volumes when machine ids are unique and every refill names a machine |
| MachineryPage.FleetFuelCostSnoc | components/MachineryPage.tsx:190 | `FleetFuelCost`: a priced refill adds its cost to the fleet total; an unpriced one adds nothing |
| MachineryPage.ActiveCount | components/MachineryPage.tsx:250 | the active count is the number of machines whose status is 'Ativo' (the length of that filter); it is at most the number of machines, equals it exactly when all are active, and is 0 exactly when none is |
| InputsPage.AddRow | components/InputsPage.tsx:54-56 | adding a row appends one blank row and keeps the others |
| InputsPage.RemoveRow | components/InputsPage.tsx:58-62 | removing row i removes exactly that row and keeps the others in order; past the end nothing changes |
| InputsPage.RemoveUndoesAdd | components/InputsPage.tsx:54-62 | removing the row just added restores the rows |
| InputsPage.CostRow | components/InputsPage.tsx:79-88 | a row becomes an item exactly when its input resolves; the item copies the input's name and unit and costs price × quantity |
| InputsPage.CostItemsAppend | components/InputsPage.tsx:77-90 | `CostItems` goes row by row, so the surviving rows keep their order |
| InputsPage.CostItemsOne | components/InputsPage.tsx:77-90 | a single row gives its item, or nothing when its input does not resolve |
| InputsPage.CostItemsPriced | components/InputsPage.tsx:79-88 | every item carries the name, unit and price of an input with its id, as of submission |
| InputsPage.BuildApplication | components/InputsPage.tsx:70-104 | an application is built exactly when plot and machine resolve and some row resolves; its total is the sum of its items' costs |
| InputsPage.SubmitApplication | components/InputsPage.tsx:92-104 | submitting never changes stock; it writes nothing when the build fails, and otherwise saves the built application and writes no key but the applications key |
| InputsPage.StockBarWidth | components/InputsPage.tsx:325 | the gauge never exceeds 100, is full exactly from 1000 units, and is stock/10 below that |
| InputsPage.LowStockShortBar | components/InputsPage.tsx:315-325 | an item is flagged low exactly when its gauge is below 5 % |
| ProductionPage.BuildLoad | components/ProductionPage.tsx:31-59 | a load is built exactly when the plot resolves; weight and moisture are stored as entered, a missing price as 0, and value × 60 = weight × factor × price |
| ProductionPage.SubmitLoad | components/ProductionPage.tsx:33-59 | an unresolved plot writes nothing; otherwise only the production key changes |
| ProductionPage.GrossBags | components/ProductionPage.tsx:142 | gross bags × 60 = the total gross weight |
| ProductionPage.InsertRaisesTotals | components/ProductionPage.tsx:101-102 | a new load raises the weight card (`TotalWeight`) and the value card (`TotalFinancial`) by exactly its own weight and value |
| ProductionPage.TotalsPermutation | components/ProductionPage.tsx:101-102 | the cards do not depend on the order of the loads |
| Dashboard.FuelCostPerHour | components/Dashboard.tsx:40-42 | rate × `TotalHours` (Σ hours of all usage) = the fleet's fuel cost (a null cost counting 0) when hours are positive; the rate is 0 otherwise |
| Dashboard.PlotPhaseSpec | components/Dashboard.tsx:44-60 | `PlotPhase` (the `plots.reduce`) opens one bucket per crop in first-seen order, holding the area, input cost and hours of exactly that crop's plots |
| Dashboard.LoadPhaseSpec | components/Dashboard.tsx:63-82 | `LoadPhase` (the `prodData.forEach`) opens no bucket and adds to each the bags and revenue of exactly the loads of that crop |
| Dashboard.CropFinancialsSpec | components/Dashboard.tsx:44-82 | `CropFinancials`, both phases together: each crop's totals equal its plots' shares plus its loads' shares; keys are unique and in first-seen order |
| Dashboard.OrphanApplicationIgnored | components/Dashboard.tsx:51-53 | an application naming no existing plot, at any position in the list, changes no bucket |
| Dashboard.OrphanUsageIgnored | components/Dashboard.tsx:55-57 | a usage record naming no existing plot, at any position in the list, changes no bucket |
| Dashboard.LoadCropKnown | components/Dashboard.tsx:64-66 | `LoadCrop`: a load of an existing plot goes to a bucket the plot phase opened; a load of a missing plot goes to 'Indefinido' |
| Dashboard.OrphanLoad | components/Dashboard.tsx:63-66 | a load whose plot is gone is dropped unless some plot opened 'Indefinido', in which case it is added there |
| Dashboard.RevenueOfSubmittedLoad | components/Dashboard.tsx:75-80 | `LoadRevenue` of a load from the production form is its corrected bags at the entered price, or at the crop's listed price (0 without one) when no positive price was entered |
| Dashboard.PlotPhaseSum | components/Dashboard.tsx:44-60 | each plot's share lands in exactly one bucket: no share is lost or counted twice |
| Dashboard.LoadPhaseKeepsField | components/Dashboard.tsx:63-82 | summed over the buckets, the load phase leaves the total area, input cost and hours unchanged |
| Dashboard.LoadPhaseKeepsPlotFields | components/Dashboard.tsx:63-82 | the load phase keeps exactly the buckets it was given, and leaves each bucket's area, input cost and hours as the plot phase left them |
| Dashboard.BucketsCoverArea | components/Dashboard.tsx:44-49 | the buckets' areas add up to the area of all plots |
| Dashboard.BucketsCoverApplications | components/Dashboard.tsx:51-53 | the buckets' input costs add up to the cost of all applications when each names an existing plot |
| Dashboard.BucketsCoverUsage | components/Dashboard.tsx:55-57 | the buckets' hours add up to all hours worked when each usage record names an existing plot |
| Dashboard.Row | components/Dashboard.tsx:84-96 | each row of `ChartData` (one per bucket, in key order): cost is input cost plus hours at the rate, profit is revenue − cost, and per-hectare figures are 0 without area |
| Dashboard.NoHoursNoFuelCharge | components/Dashboard.tsx:42-85 | with no hours worked no diesel is charged: every row's cost is its input cost |
| Dashboard.GlobalProfitIsSumOfProfits | components/Dashboard.tsx:98-100 | the global profit (`GlobalRevenue` − `GlobalCost`) is also the sum of the rows' profits |
| Dashboard.GlobalCostSplits | components/Dashboard.tsx:85-99 | `GlobalCost` is the buckets' input cost plus their hours at the rate |
| Dashboard.FuelChargedInFull | components/Dashboard.tsx:40-100 | with every usage naming an existing plot, the global cost is the input cost plus exactly the fleet's fuel cost (none when no hours were worked) |

## Left out

- Rendering is not modelled: JSX, styling, the recharts chart, the stat cards, modals, and `confirm()` prompts. React state and form show/hide/edit state are not modelled either. None of them computes anything the model relies on.
- `localStorage`, JSON serialisation and `async`/`Promise.all` are left out. The store is a record of eight slots, and an unwritten slot reads as its seed.
- String parsing is left out: `parseInt`, `parseFloat` and NaN propagation. Form fields arrive as numbers, or as `None` when left empty.
- Dates are left out (`toISOString`, `toLocaleDateString`). They are carried as opaque strings.
- Display rounding is left out: `toFixed(2)` in the chart rows (components/Dashboard.tsx:89-91), `toLocaleString`, and the ROI percentage guard (components/Dashboard.tsx:186). The model uses exact reals rather than IEEE doubles.
- Display-only slicing (`slice(-5).reverse()`) is left out.
- Aliasing is left out in three places. The seed arrays are mutated in place by `getPlots`/`savePlot`. The crop-price seed `initialPrices` is mutated in place by `saveCropPrice` while the prices key is unwritten (services/mockApi.ts:27-30, 72-78). The form row is mutated in place by `updateAppItem` (components/InputsPage.tsx:64-68).
- Crop names that collide with `Object.prototype` properties are not modelled. Neither is the way `Object.entries` places integer-like keys first. The buckets keep plain insertion order.
- `removeAppItem` with a negative index is left out. Row indices are natural numbers.
- Dashboard.FuelChargedInFull: assumes unique plot ids and that every usage record names an existing plot. Without them the source may charge a share of the fuel twice or not at all.
- Dashboard.BucketsCoverApplications: assumes unique plot ids and that every application names an existing plot, for the same reason.
- Dashboard.BucketsCoverUsage: carries the same two assumptions as FuelChargedInFull.
