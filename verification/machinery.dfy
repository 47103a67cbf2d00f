/**
 * The machinery page (components/MachineryPage.tsx): per-machine hours and
 * refuelled-litres-per-hour, the refill and usage records its forms build,
 * and the fleet totals on its cards.
 */
module MachineryPage {
  import opened Wrappers
  import opened Folds
  import opened Types
  import Collection

  /** The hours a machine worked: Σ `hours_used` of its usage records. */
  function MachineHours(usage: seq<MachineryUsage>, machineId: int): real {
    Sum(Select(usage, UsageMachine, machineId), HoursUsed)
  }

  /** The litres put into a machine: Σ `quantity_liters` of its refills. */
  function MachineLiters(refills: seq<FuelRefill>, machineId: int): real {
    Sum(Select(refills, RefillMachine, machineId), LitersRefilled)
  }

  /**
   * `getMachineConsumption`: litres refuelled divided by hours worked, or 0
   * when the machine has no positive hours.
   */
  function Consumption(usage: seq<MachineryUsage>, refills: seq<FuelRefill>, machineId: int): (r: real)
    ensures MachineHours(usage, machineId) > 0.0 ==>
              r * MachineHours(usage, machineId) == MachineLiters(refills, machineId)
    ensures MachineHours(usage, machineId) <= 0.0 ==> r == 0.0
  {
    var hours := MachineHours(usage, machineId);
    if hours > 0.0 then MachineLiters(refills, machineId) / hours else 0.0
  }

  /** Consumption depends only on which records exist, not on their order. */
  lemma ConsumptionPermutation(u1: seq<MachineryUsage>, u2: seq<MachineryUsage>,
                               f1: seq<FuelRefill>, f2: seq<FuelRefill>, machineId: int)
    requires multiset(u1) == multiset(u2) && multiset(f1) == multiset(f2)
    ensures Consumption(u1, f1, machineId) == Consumption(u2, f2, machineId)
  {
    SelectPermutation(u1, u2, UsageMachine, machineId);
    SumPermutation(Select(u1, UsageMachine, machineId), Select(u2, UsageMachine, machineId), HoursUsed);
    SelectPermutation(f1, f2, RefillMachine, machineId);
    SumPermutation(Select(f1, RefillMachine, machineId), Select(f2, RefillMachine, machineId), LitersRefilled);
  }

  /** Records of other machines do not change a machine's consumption. */
  lemma ConsumptionIgnoresOtherMachines(usage: seq<MachineryUsage>, otherUsage: seq<MachineryUsage>,
                                        refills: seq<FuelRefill>, otherRefills: seq<FuelRefill>,
                                        machineId: int)
    requires forall u :: u in otherUsage ==> u.data.machineryId != machineId
    requires forall f :: f in otherRefills ==> f.data.machineryId != machineId
    ensures Consumption(usage + otherUsage, refills + otherRefills, machineId)
         == Consumption(usage, refills, machineId)
  {
    SelectAppend(usage, otherUsage, UsageMachine, machineId);
    SelectNone(otherUsage, UsageMachine, machineId);
    assert Select(usage, UsageMachine, machineId) + [] == Select(usage, UsageMachine, machineId);
    SelectAppend(refills, otherRefills, RefillMachine, machineId);
    SelectNone(otherRefills, RefillMachine, machineId);
    assert Select(refills, RefillMachine, machineId) + [] == Select(refills, RefillMachine, machineId);
  }

  /**
   * The refill's `total_cost`: quantity × price when a price was given and
   * is non-zero; otherwise null (a price of 0 is stored, but costs nothing).
   */
  function RefillTotalCost(quantity: real, pricePerLiter: Option<real>): (r: Option<real>)
    ensures r.Some? <==> pricePerLiter.Some? && pricePerLiter.value != 0.0
    ensures r.Some? ==> r.value == quantity * pricePerLiter.value
    ensures r.GetOr(0.0) == quantity * pricePerLiter.GetOr(0.0)
  {
    if pricePerLiter.Some? && pricePerLiter.value != 0.0 then Some(quantity * pricePerLiter.value)
    else None
  }

  /** `name || '?'` on an optional record: a missing record or an empty name shows as '?'. */
  function NameOr<T>(found: Option<T>, name: T -> string): (r: string)
    ensures found.Some? && name(found.value) != "" ==> r == name(found.value)
    ensures found.None? || name(found.value) == "" ==> r == "?"
    ensures r != ""
    ensures r == "?" || (found.Some? && r == name(found.value))
  {
    if found.Some? && name(found.value) != "" then name(found.value) else "?"
  }

  function MachineName(m: Machine): string { m.data.name }
  function PlotName(p: Plot): string { p.data.name }

  /** The refill form; `None` stands for a field left empty. */
  datatype FuelForm = FuelForm(
    machineryId: int, refillDate: string, quantityLiters: real,
    pricePerLiter: Option<real>, odometerReading: Option<real>, notes: string)

  /** The record `handleFuelSubmit` saves. */
  function BuildRefill(machines: seq<Machine>, form: FuelForm): (r: RefillData)
    ensures r.machineryId == form.machineryId && r.refillDate == form.refillDate
    ensures r.quantityLiters == form.quantityLiters
    ensures r.pricePerLiter == form.pricePerLiter
    ensures r.totalCost.Some? <==> form.pricePerLiter.Some? && form.pricePerLiter.value != 0.0
    ensures r.totalCost.Some? ==> r.totalCost.value == form.quantityLiters * form.pricePerLiter.value
    ensures r.odometerReading == form.odometerReading
    ensures r.notes.None? <==> form.notes == ""
    ensures r.notes.Some? ==> r.notes.value == form.notes
  {
    RefillData(
      form.machineryId,
      NameOr(Collection.FindById(machines, form.machineryId), MachineName),
      form.refillDate,
      form.quantityLiters,
      form.pricePerLiter,
      RefillTotalCost(form.quantityLiters, form.pricePerLiter),
      form.odometerReading,
      if form.notes == "" then None else Some(form.notes))
  }

  /** The usage form; `fuelConsumed` is `None` when left empty. */
  datatype UsageForm = UsageForm(
    machineryId: int, plotId: int, usageDate: string, hoursUsed: real,
    fuelConsumed: Option<real>, notes: string)

  /**
   * The record `handleUsageSubmit` saves. It is saved even when the machine
   * or the plot does not resolve; only the display names fall back to '?'.
   */
  function BuildUsage(machines: seq<Machine>, plots: seq<Plot>, form: UsageForm): (r: UsageData)
    ensures r.machineryId == form.machineryId && r.plotId == form.plotId
    ensures r.usageDate == form.usageDate
    ensures r.hoursUsed == form.hoursUsed && r.notes == form.notes
    ensures form.fuelConsumed.None? ==> r.fuelConsumed == 0.0
    ensures form.fuelConsumed.Some? ==> r.fuelConsumed == form.fuelConsumed.value
    ensures Collection.FindById(machines, form.machineryId).None? ==> r.machineryName == "?"
    ensures Collection.FindById(plots, form.plotId).None? ==> r.plotName == "?"
  {
    UsageData(
      form.machineryId,
      NameOr(Collection.FindById(machines, form.machineryId), MachineName),
      form.plotId,
      NameOr(Collection.FindById(plots, form.plotId), PlotName),
      form.usageDate,
      form.hoursUsed,
      form.fuelConsumed.GetOr(0.0),
      form.notes)
  }

  /** The fleet's diesel cost card: Σ `total_cost`, a null cost counting as 0. */
  function FleetFuelCost(refills: seq<FuelRefill>): real {
    Sum(refills, RefillCostOrZero)
  }

  /** The fleet's accumulated volume: Σ `quantity_liters`. */
  function FleetFuelVolume(refills: seq<FuelRefill>): real {
    Sum(refills, LitersRefilled)
  }

  /**
   * The fleet volume is the sum of the machines' own volumes, provided
   * machine ids are unique and every refill names an existing machine.
   */
  lemma FleetVolumeIsSumOverMachines(machines: seq<Machine>, refills: seq<FuelRefill>)
    requires Collection.UniqueIds(machines)
    requires forall f :: f in refills ==> f.data.machineryId in Collection.Ids(machines)
    ensures Collection.SumPerEntity(machines, refills, RefillMachine, LitersRefilled)
         == FleetFuelVolume(refills)
  {
    Collection.SumPerEntityTotal(machines, refills, RefillMachine, LitersRefilled);
  }

  /** A priced refill adds its cost to the fleet total; an unpriced one adds nothing. */
  lemma FleetFuelCostSnoc(refills: seq<FuelRefill>, f: FuelRefill)
    ensures FleetFuelCost(refills + [f])
         == FleetFuelCost(refills) + (if f.data.totalCost.Some? then f.data.totalCost.value else 0.0)
  {
    assert (refills + [f])[..|refills|] == refills;
  }

  /**
   * A refill built by the form raises the diesel cost card by quantity ×
   * price (nothing when the price was empty or 0) and the volume card by its
   * quantity.
   */
  lemma BuiltRefillCharged(refills: seq<FuelRefill>, machines: seq<Machine>, form: FuelForm, id: nat)
    ensures var f := Entity(id, BuildRefill(machines, form));
      && FleetFuelCost(refills + [f]) == FleetFuelCost(refills) + form.quantityLiters * form.pricePerLiter.GetOr(0.0)
      && FleetFuelVolume(refills + [f]) == FleetFuelVolume(refills) + form.quantityLiters
  {
    var f := Entity(id, BuildRefill(machines, form));
    FleetFuelCostSnoc(refills, f);
    assert (refills + [f])[..|refills|] == refills;
  }

  /**
   * A usage record built by the form adds its hours to the machine it names
   * and to no other machine, whether or not that machine resolves.
   */
  lemma BuiltUsageCounted(usage: seq<MachineryUsage>, machines: seq<Machine>, plots: seq<Plot>,
                          form: UsageForm, id: nat, machineId: int)
    ensures var u := Entity(id, BuildUsage(machines, plots, form));
      MachineHours(usage + [u], machineId)
      == MachineHours(usage, machineId) + (if machineId == form.machineryId then form.hoursUsed else 0.0)
  {
    var u := Entity(id, BuildUsage(machines, plots, form));
    SumSelectSnoc(usage, u, UsageMachine, machineId, HoursUsed);
  }

  /** `machines.filter(m => m.status === 'Ativo').length`. */
  function ActiveCount(machines: seq<Machine>): (r: nat)
    ensures r <= |machines|
    ensures r == |machines| <==> forall m :: m in machines ==> m.data.status == Active
    ensures r == 0 <==> forall m :: m in machines ==> m.data.status != Active
    ensures r == |Folds.Select(machines, (m: Machine) => if m.data.status == Active then 1 else 0, 1)|
    decreases |machines|
  {
    if |machines| == 0 then 0
    else
      var ms := machines[..|machines| - 1];
      var m := machines[|machines| - 1];
      assert machines == ms + [m];
      ActiveCount(ms) + (if m.data.status == Active then 1 else 0)
  }
}
