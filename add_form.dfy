/** The add-expense sheet: a form whose Save button parses the amount and either appends
    a new record to the shared store and dismisses the sheet, or raises an alert. */
module AddForm {
  import opened Expense
  import opened Codec
  import opened Store
  import opened IntParse

  class AddView {
    const expenses: Expenses
    var name: string
    var category: string
    var amount: string
    var types: seq<string>
    var showingAlert: bool
    /** Whether the sheet has asked to be dismissed. */
    var dismissed: bool

    /** The form as it first appears: empty name and amount, category "Personal". */
    constructor(expenses: Expenses)
      ensures this.expenses == expenses
      ensures name == "" && category == "Personal" && amount == ""
      ensures types == ["Business", "Personal"]
      ensures !showingAlert && !dismissed
    {
      this.expenses := expenses;
      name, category, amount := "", "Personal", "";
      types := ["Business", "Personal"];
      showingAlert, dismissed := false, false;
    }

    /** The Save button. If the amount text parses to an `Int` (any `Int`, negative ones
        included), one record with a new identifier and the form's name, category and that
        amount is appended after the unchanged earlier records, the store writes the new
        list, and the sheet is dismissed. Otherwise the alert is raised and neither the
        list, the backend nor the sheet changes. */
    method Save()
      requires expenses.Valid()
      modifies this, expenses, expenses.defaults, expenses.uuids
      ensures expenses.Valid()
      ensures name == old(name) && category == old(category) && amount == old(amount)
      ensures types == old(types)
      ensures ParseInt(amount).Some? ==>
        && expenses.items == old(expenses.items)
             + [ExpenseItem(old(expenses.uuids.next), name, category, ParseInt(amount).value)]
        && expenses.uuids.next == old(expenses.uuids.next) + 1
        && expenses.notifications == old(expenses.notifications) + 1
        && expenses.defaults.store == old(expenses.defaults.store)[ItemsKey := Encode(expenses.items)]
        && dismissed
        && showingAlert == old(showingAlert)
      ensures ParseInt(amount).None? ==>
        && expenses.items == old(expenses.items)
        && expenses.uuids.next == old(expenses.uuids.next)
        && expenses.notifications == old(expenses.notifications)
        && expenses.defaults.store == old(expenses.defaults.store)
        && showingAlert
        && dismissed == old(dismissed)
    {
      var parsed := ParseInt(amount);
      if parsed.Some? {
        var id := expenses.uuids.Make();
        var item := ExpenseItem(id, name, category, parsed.value);
        AppendFreshId(expenses.items, id, item);
        expenses.Assign(expenses.items + [item]);
        dismissed := true;
      } else {
        showingAlert := true;
      }
    }
  }

  /** Pressing Save on a form nobody has typed into raises the alert and leaves the store
      alone, because the empty amount does not parse. */
  method SaveOnFreshForm(expenses: Expenses) returns (view: AddView)
    requires expenses.Valid()
    modifies expenses, expenses.defaults, expenses.uuids
    ensures view.showingAlert && !view.dismissed
    ensures expenses.items == old(expenses.items)
    ensures expenses.defaults.store == old(expenses.defaults.store)
  {
    view := new AddView(expenses);
    EmptyDoesNotParse();
    view.Save();
  }
}
