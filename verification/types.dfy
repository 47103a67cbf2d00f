/**
 * The records of the farm dashboard (types.ts). Every entity except a crop
 * price is stored as an `Entity`: the numeric `id` the store assigns plus the
 * entity's own fields (the source's `Omit<T, 'id'>`). A crop price is keyed
 * by its `crop_type` text instead.
 */
module Types {
  import opened Wrappers

  /** A stored row: `{ ...data, id }`. */
  datatype Entity<T> = Entity(id: nat, data: T)

  /** The closed set of machine states ('Ativo' | 'Manutenção' | 'Inativo'). */
  datatype MachineStatus = Active | Maintenance | Inactive

  /** The closed set of input units ('L' | 'KG' | 'UN'), shared by stock and application items. */
  datatype Unit = Liters | Kilograms | Units

  /** The literal the source stores for a machine status. */
  function StatusLabel(s: MachineStatus): string {
    match s
    case Active => "Ativo"
    case Maintenance => "Manutenção"
    case Inactive => "Inativo"
  }

  /** Reads a stored status literal; any other text is not a status. */
  function ParseStatus(t: string): (r: Option<MachineStatus>)
    ensures r.Some? <==> t == "Ativo" || t == "Manutenção" || t == "Inativo"
    ensures r.Some? ==> StatusLabel(r.value) == t
  {
    if t == "Ativo" then Some(Active)
    else if t == "Manutenção" then Some(Maintenance)
    else if t == "Inativo" then Some(Inactive)
    else None
  }

  /** The three status literals are distinct, so a status survives being stored as text. */
  lemma StatusRoundTrip(s: MachineStatus)
    ensures ParseStatus(StatusLabel(s)) == Some(s)
  {
  }

  /** The literal the source stores for a unit. */
  function UnitLabel(u: Unit): string {
    match u
    case Liters => "L"
    case Kilograms => "KG"
    case Units => "UN"
  }

  /** Reads a stored unit literal; any other text is not a unit. */
  function ParseUnit(t: string): (r: Option<Unit>)
    ensures r.Some? <==> t == "L" || t == "KG" || t == "UN"
    ensures r.Some? ==> UnitLabel(r.value) == t
  {
    if t == "L" then Some(Liters)
    else if t == "KG" then Some(Kilograms)
    else if t == "UN" then Some(Units)
    else None
  }

  lemma UnitRoundTrip(u: Unit)
    ensures ParseUnit(UnitLabel(u)) == Some(u)
  {
  }

  datatype MachineData = MachineData(
    name: string, kind: string, model: string, year: int, status: MachineStatus)
  type Machine = Entity<MachineData>

  datatype PlotData = PlotData(
    name: string, areaHectares: real, cropType: string, season: string)
  type Plot = Entity<PlotData>

  /** The fallback sale price of one crop, keyed by `cropType`. */
  datatype CropPrice = CropPrice(cropType: string, pricePerBag: real)

  datatype InputData = InputData(
    name: string, unit: Unit, pricePerUnit: real, stock: real)
  type InputItem = Entity<InputData>

  /** One line of an application: a snapshot of the input's name, unit and price at entry time. */
  datatype ApplicationItem = ApplicationItem(
    inputId: nat, inputName: string, quantity: real, unit: Unit, totalCost: real)

  datatype ApplicationData = ApplicationData(
    date: string, plotId: int, plotName: string, machineId: int, machineName: string,
    items: seq<ApplicationItem>, totalApplicationCost: real)
  type InputApplication = Entity<ApplicationData>

  datatype LoadData = LoadData(
    date: string, plotId: int, plotName: string, weightKg: real, moisturePercent: real,
    pricePerBag: real, totalValue: real, destination: string, truckPlate: string)
  type HarvestLoad = Entity<LoadData>

  datatype UsageData = UsageData(
    machineryId: int, machineryName: string, plotId: int, plotName: string,
    usageDate: string, hoursUsed: real, fuelConsumed: real, notes: string)
  type MachineryUsage = Entity<UsageData>

  /** A refill: only the price, the cost, the odometer and the notes may be null. */
  datatype RefillData = RefillData(
    machineryId: int, machineryName: string, refillDate: string, quantityLiters: real,
    pricePerLiter: Option<real>, totalCost: Option<real>, odometerReading: Option<real>,
    notes: Option<string>)
  type FuelRefill = Entity<RefillData>

  // Named accessors, so that folds over these records can share one `Sum` and one `Select`.

  function UsagePlot(u: MachineryUsage): int { u.data.plotId }
  function UsageMachine(u: MachineryUsage): int { u.data.machineryId }
  function HoursUsed(u: MachineryUsage): real { u.data.hoursUsed }
  function RefillMachine(f: FuelRefill): int { f.data.machineryId }
  function LitersRefilled(f: FuelRefill): real { f.data.quantityLiters }
  /** `f.total_cost || 0`: a refill without a price costs nothing. */
  function RefillCostOrZero(f: FuelRefill): real { f.data.totalCost.GetOr(0.0) }
  function LoadPlot(l: HarvestLoad): int { l.data.plotId }
  function LoadWeight(l: HarvestLoad): real { l.data.weightKg }
  function LoadValue(l: HarvestLoad): real { l.data.totalValue }
  function ApplicationPlot(a: InputApplication): int { a.data.plotId }
  function ApplicationCost(a: InputApplication): real { a.data.totalApplicationCost }
  function ItemCost(i: ApplicationItem): real { i.totalCost }
}
