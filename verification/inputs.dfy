/**
 * The inputs page (components/InputsPage.tsx): the rows of the application
 * form, how a submitted application is costed from the current input
 * prices, and the stock gauge.
 */
module InputsPage {
  import opened Wrappers
  import opened Folds
  import opened Types
  import Collection
  import Store

  /** One row of the application form; `inputId` is `None` while no input is chosen. */
  datatype FormRow = FormRow(inputId: Option<int>, quantity: real)

  /** `{ input_id: '', quantity: '' }`: no input chosen yet. */
  const BlankRow: FormRow := FormRow(None, 0.0)

  /** `addAppItem`: one blank row at the end. */
  function AddRow(rows: seq<FormRow>): (r: seq<FormRow>)
    ensures |r| == |rows| + 1
    ensures r[..|rows|] == rows
    ensures r[|rows|] == BlankRow
  {
    rows + [BlankRow]
  }

  /** `removeAppItem(i)`: `splice(i, 1)`, which does nothing past the end. */
  function RemoveRow(rows: seq<FormRow>, i: nat): (r: seq<FormRow>)
    ensures i < |rows| ==> |r| == |rows| - 1
    ensures i >= |rows| ==> r == rows
    ensures forall j :: 0 <= j < i && j < |r| ==> r[j] == rows[j]
    ensures i < |rows| ==> forall j :: i <= j < |r| ==> r[j] == rows[j + 1]
  {
    if i < |rows| then rows[..i] + rows[i + 1..] else rows
  }

  /** Removing the row just added gives back the rows before. */
  lemma RemoveUndoesAdd(rows: seq<FormRow>)
    ensures RemoveRow(AddRow(rows), |rows|) == rows
  {
  }

  /** The application item one row becomes, when its input resolves. */
  function CostRow(inputs: seq<InputItem>, row: FormRow): (r: Option<ApplicationItem>)
    ensures row.inputId.None? ==> r.None?
    ensures row.inputId.Some? ==>
      (r.None? <==> Collection.FindById(inputs, row.inputId.value).None?)
    ensures r.Some? ==>
      var input := Collection.FindById(inputs, row.inputId.value).value;
      && r.value.inputId == input.id
      && r.value.inputName == input.data.name
      && r.value.unit == input.data.unit
      && r.value.quantity == row.quantity
      && r.value.totalCost == input.data.pricePerUnit * row.quantity
  {
    if row.inputId.None? then None
    else
      match Collection.FindById(inputs, row.inputId.value)
      case None => None
      case Some(input) =>
        Some(ApplicationItem(input.id, input.data.name, row.quantity, input.data.unit,
                             input.data.pricePerUnit * row.quantity))
  }

  /** `items.map(...).filter(i => i !== null)`: rows that resolve, costed, in order. */
  function CostItems(inputs: seq<InputItem>, rows: seq<FormRow>): (r: seq<ApplicationItem>)
    ensures |r| <= |rows|
    decreases |rows|
  {
    if |rows| == 0 then []
    else
      var prev := CostItems(inputs, rows[..|rows| - 1]);
      match CostRow(inputs, rows[|rows| - 1])
      case None => prev
      case Some(item) => prev + [item]
  }

  /** Costing is row by row: it distributes over the form's rows, so their order is kept. */
  lemma {:induction false} CostItemsAppend(inputs: seq<InputItem>, a: seq<FormRow>, b: seq<FormRow>)
    ensures CostItems(inputs, a + b) == CostItems(inputs, a) + CostItems(inputs, b)
    decreases |b|
  {
    if |b| == 0 {
      assert a + b == a;
    } else {
      var b' := b[..|b| - 1];
      assert (a + b)[..|a + b| - 1] == a + b';
      assert (a + b)[|a + b| - 1] == b[|b| - 1];
      CostItemsAppend(inputs, a, b');
    }
  }

  /** A single row gives its item, or nothing when its input does not resolve. */
  lemma CostItemsOne(inputs: seq<InputItem>, row: FormRow)
    ensures CostItems(inputs, [row]) == match CostRow(inputs, row)
                                        case None => []
                                        case Some(item) => [item]
  {
    assert [row][..0] == [];
  }

  /** Every costed item carries the price of the input it names, at the time of entry. */
  lemma {:induction false} CostItemsPriced(inputs: seq<InputItem>, rows: seq<FormRow>)
    ensures forall it :: it in CostItems(inputs, rows) ==>
              exists input :: input in inputs && input.id == it.inputId
                              && it.totalCost == input.data.pricePerUnit * it.quantity
                              && it.inputName == input.data.name && it.unit == input.data.unit
    decreases |rows|
  {
    if |rows| > 0 {
      CostItemsPriced(inputs, rows[..|rows| - 1]);
      var row := rows[|rows| - 1];
      if CostRow(inputs, row).Some? {
        var input := Collection.FindById(inputs, row.inputId.value).value;
        assert input in inputs;
      }
    }
  }

  /** The application form. */
  datatype AppForm = AppForm(date: string, plotId: int, machineId: int, rows: seq<FormRow>)

  /**
   * What `handleAppSubmit` saves: nothing when the plot or the machine does
   * not resolve, or when no row resolves; otherwise the costed items and
   * their total.
   */
  function BuildApplication(plots: seq<Plot>, machines: seq<Machine>, inputs: seq<InputItem>,
                            form: AppForm): (r: Option<ApplicationData>)
    ensures r.Some? <==>
      && Collection.FindById(plots, form.plotId).Some?
      && Collection.FindById(machines, form.machineId).Some?
      && |CostItems(inputs, form.rows)| > 0
    ensures r.Some? ==>
      && r.value.items == CostItems(inputs, form.rows)
      && r.value.totalApplicationCost == Sum(r.value.items, ItemCost)
      && r.value.plotId == form.plotId
      && r.value.machineId == form.machineId
      && r.value.date == form.date
  {
    match (Collection.FindById(plots, form.plotId), Collection.FindById(machines, form.machineId))
    case (Some(plot), Some(machine)) =>
      var items := CostItems(inputs, form.rows);
      if |items| == 0 then None
      else
        Some(ApplicationData(form.date, plot.id, plot.data.name, machine.id, machine.data.name,
                             items, Sum(items, ItemCost)))
    case _ => None
  }

  /**
   * Submitting the application form against the store. It never changes the
   * inputs' stock, whatever the outcome.
   */
  function SubmitApplication(s: Store.Store, form: AppForm, editing: Option<nat>): (t: Store.Store)
    ensures Store.Inputs(t) == Store.Inputs(s)
    ensures BuildApplication(Store.Plots(s), Store.Machines(s), Store.Inputs(s), form).None? ==> t == s
    ensures BuildApplication(Store.Plots(s), Store.Machines(s), Store.Inputs(s), form).Some? ==>
      Store.SameExcept(s, t, Store.ApplicationsKey) &&
      Store.Applications(t) == Collection.Save(
        Store.Applications(s),
        BuildApplication(Store.Plots(s), Store.Machines(s), Store.Inputs(s), form).value,
        editing)
  {
    match BuildApplication(Store.Plots(s), Store.Machines(s), Store.Inputs(s), form)
    case None => s
    case Some(app) => Store.SaveApplication(s, app, editing)
  }

  /** The stock gauge: `Math.min(100, stock / 1000 * 100)` percent. */
  function StockBarWidth(stock: real): (r: real)
    ensures r <= 100.0
    ensures r == 100.0 <==> stock >= 1000.0
    ensures stock < 1000.0 ==> r * 1000.0 == stock * 100.0
    ensures stock >= 0.0 ==> r >= 0.0
  {
    var w := stock / 1000.0 * 100.0;
    if 100.0 < w then 100.0 else w
  }

  /** The red low-stock marker. */
  predicate LowStock(stock: real) {
    stock < 50.0
  }

  /** An item is flagged low exactly when its gauge shows less than 5 percent. */
  lemma LowStockShortBar(stock: real)
    ensures LowStock(stock) <==> StockBarWidth(stock) < 5.0
  {
  }
}
