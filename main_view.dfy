/** The list screen: it owns the store and deletes rows by offset. */
module MainView {
  import opened Codec
  import opened Offsets
  import opened Store

  class ContentView {
    const expenses: Expenses
    /** Whether the add-expense sheet is shown. */
    var showingAddExpense: bool

    /** The view creates its store, which loads itself from the backend. */
    constructor(defaults: UserDefaults, uuids: UuidSource)
      modifies uuids
      ensures fresh(expenses) && expenses.defaults == defaults && expenses.uuids == uuids
      ensures expenses.items == Rehydrate(defaults.store, old(uuids.next))
      ensures expenses.notifications == 0 && expenses.Valid()
      ensures defaults.store == old(defaults.store)
      ensures !showingAddExpense
    {
      expenses := new Expenses(defaults, uuids);
      showingAddExpense := false;
    }

    /** `removeItems(at:)`: one assignment of the list without the rows at `offsets`, each
        resolved against the order before the call; hence one announcement and one write,
        and that write holds the list after the removal. */
    method RemoveItems(offsets: set<nat>)
      requires expenses.Valid()
      requires forall o :: o in offsets ==> o < |expenses.items|
      modifies expenses, expenses.defaults
      ensures expenses.Valid()
      ensures expenses.items == RemoveOffsets(old(expenses.items), offsets)
      ensures |expenses.items| == |old(expenses.items)| - |offsets|
      ensures |expenses.items| == |Kept(|old(expenses.items)|, offsets)|
      ensures forall k :: 0 <= k < |expenses.items| ==>
        Kept(|old(expenses.items)|, offsets)[k] < |old(expenses.items)| &&
        expenses.items[k] == old(expenses.items)[Kept(|old(expenses.items)|, offsets)[k]]
      ensures expenses.notifications == old(expenses.notifications) + 1
      ensures expenses.defaults.store == old(expenses.defaults.store)[ItemsKey := Encode(expenses.items)]
    {
      RemoveOffsetsSpec(expenses.items, offsets);
      RemoveKeepsIds(expenses.items, offsets, expenses.uuids.next);
      expenses.Assign(RemoveOffsets(expenses.items, offsets));
    }
  }
}
