/** `AddExpenseView`: the new-expense sheet. */
module AddExpense {
  import opened Wrappers
  import opened Platform
  import opened Text
  import opened ExpenseModel
  import opened Ledger
  import opened ExpenseForm

  /** The sheet's `@State` fields. */
  datatype AddForm = AddForm(title: string, amount: string, category: Category, date: Date)

  /** The sheet as it opens: empty title and amount, category "Diğer", date now. */
  function InitialForm(now: Date): (f: AddForm)
    ensures f.category == Diger && f.date == now
    ensures forall fmt: Formatters :: !IsFormValid(f.title, f.amount, fmt)
  {
    AddForm("", "", Diger, now)
  }

  /** `saveExpense()`: does nothing when the amount does not parse; otherwise adds the
      trimmed title, the parsed amount and the chosen category. The chosen date is not
      passed on: `addExpense` dates the record `now`. */
  method SaveExpense(vm: ExpenseViewModel, form: AddForm, fmt: Formatters, id: Uuid, now: Date)
    requires vm.Valid()
    modifies vm
    ensures vm.Valid()
    ensures fmt.parseNumber(form.amount).None? ==>
              vm.expenses == old(vm.expenses) && vm.persisted == old(vm.persisted)
    ensures fmt.parseNumber(form.amount).Some? ==>
              vm.expenses == old(vm.expenses) +
                [Expense(id, Trim(form.title), fmt.parseNumber(form.amount).value, form.category, now)]
    ensures IsFormValid(form.title, form.amount, fmt) ==>
              |vm.expenses| == |old(vm.expenses)| + 1 && Trim(vm.expenses[|vm.expenses| - 1].title) != []
  {
    match fmt.parseNumber(form.amount)
    case None =>
      return;
    case Some(value) =>
      TrimIdempotent(form.title);
      vm.AddExpense(Trim(form.title), value, form.category, id, now);
  }
}
