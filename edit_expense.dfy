/** `EditExpenseView`: the sheet that edits one recorded expense in place. */
module EditExpense {
  import opened Wrappers
  import opened Platform
  import opened Text
  import opened ExpenseModel
  import opened Ledger
  import opened ExpenseForm

  /** The sheet's `@State` fields. */
  datatype EditForm = EditForm(title: string, amount: string, category: Category, date: Date)

  /** `init(viewModel:expense:)`: the form starts as a copy of the record, with the
      amount written to two decimals. */
  function InitialForm(e: Expense, fmt: Formatters): (f: EditForm)
    ensures f.title == e.title && f.category == e.category && f.date == e.date
    ensures fmt.parseNumber(fmt.twoDecimals(e.amount)) == Some(e.amount) ==> fmt.parseNumber(f.amount) == Some(e.amount)
  {
    EditForm(e.title, fmt.twoDecimals(e.amount), e.category, e.date)
  }

  /** `firstIndex(where: { $0.id == id })`. */
  function FirstIndexOf(xs: seq<Expense>, id: Uuid): (r: Option<nat>)
    ensures r.Some? ==> r.value < |xs| && xs[r.value].id == id
    ensures r.Some? ==> forall j :: 0 <= j < r.value ==> xs[j].id != id
    ensures r.None? ==> forall j :: 0 <= j < |xs| ==> xs[j].id != id
  {
    if xs == [] then None
    else if xs[0].id == id then Some(0)
    else match FirstIndexOf(xs[1..], id)
      case None => None
      case Some(i) => Some(i + 1)
  }

  /** The record with new title, amount, category and date; its identifier is kept. */
  function Revised(e: Expense, title: string, amount: Amount, category: Category, date: Date): Expense {
    e.(title := title, amount := amount, category := category, date := date)
  }

  /** The ledger after an edit of the record `id`. */
  function UpdateById(xs: seq<Expense>, id: Uuid, title: string, amount: Amount, category: Category, date: Date): seq<Expense> {
    match FirstIndexOf(xs, id)
    case None => xs
    case Some(i) => xs[i := Revised(xs[i], title, amount, category, date)]
  }

  /** An edit changes the first record with the identifier and nothing else: no record
      with it means no change; otherwise that record takes the new fields and keeps its
      identifier, and the length, the order and every other record stay as they were. */
  lemma UpdateByIdChangesOnlyFirstMatch(xs: seq<Expense>, id: Uuid, title: string, amount: Amount, category: Category, date: Date)
    ensures var r := UpdateById(xs, id, title, amount, category, date);
            && |r| == |xs|
            && ((forall j :: 0 <= j < |xs| ==> xs[j].id != id) ==> r == xs)
            && forall i :: 0 <= i < |xs| && xs[i].id == id && (forall j :: 0 <= j < i ==> xs[j].id != id) ==>
                 && r[i] == Expense(id, title, amount, category, date)
                 && forall j :: 0 <= j < |xs| && j != i ==> r[j] == xs[j]
  {
    match FirstIndexOf(xs, id)
    case None =>
    case Some(k) =>
  }

  /** An edit keeps the identifier at every position, so identifiers stay unique. */
  lemma UpdateByIdKeepsIds(xs: seq<Expense>, id: Uuid, title: string, amount: Amount, category: Category, date: Date)
    ensures var r := UpdateById(xs, id, title, amount, category, date);
            && |r| == |xs|
            && (forall j :: 0 <= j < |xs| ==> r[j].id == xs[j].id)
            && (UniqueIds(xs) ==> UniqueIds(r))
  {
  }

  /** Applying the same edit twice is applying it once. */
  lemma UpdateByIdIdempotent(xs: seq<Expense>, id: Uuid, title: string, amount: Amount, category: Category, date: Date)
    ensures var once := UpdateById(xs, id, title, amount, category, date);
            UpdateById(once, id, title, amount, category, date) == once
  {
    var once := UpdateById(xs, id, title, amount, category, date);
    UpdateByIdKeepsIds(xs, id, title, amount, category, date);
    match FirstIndexOf(xs, id)
    case None =>
    case Some(i) =>
      assert FirstIndexOf(once, id) == Some(i);
  }

  /** `updateExpense()`: when the amount parses and a record with the edited record's
      identifier exists, writes the trimmed title, the amount, the category and the
      date into it, one field assignment (and one save) at a time. */
  method UpdateExpense(vm: ExpenseViewModel, expense: Expense, form: EditForm, fmt: Formatters)
    requires vm.Valid()
    modifies vm
    ensures vm.Valid()
    ensures fmt.parseNumber(form.amount).None? ==>
              vm.expenses == old(vm.expenses) && vm.persisted == old(vm.persisted)
    ensures fmt.parseNumber(form.amount).Some? ==>
              vm.expenses == UpdateById(old(vm.expenses), expense.id, Trim(form.title),
                                        fmt.parseNumber(form.amount).value, form.category, form.date)
    ensures FirstIndexOf(old(vm.expenses), expense.id).None? ==>
              vm.expenses == old(vm.expenses) && vm.persisted == old(vm.persisted)
    ensures fmt.parseNumber(form.amount).Some? && FirstIndexOf(old(vm.expenses), expense.id).Some? ==>
              vm.persisted == Saved(vm.expenses)
  {
    match fmt.parseNumber(form.amount)
    case None =>
      return;
    case Some(value) =>
      match FirstIndexOf(vm.expenses, expense.id)
      case None =>
      case Some(index) =>
        vm.SetExpenses(vm.expenses[index := vm.expenses[index].(title := Trim(form.title))]);
        vm.SetExpenses(vm.expenses[index := vm.expenses[index].(amount := value)]);
        vm.SetExpenses(vm.expenses[index := vm.expenses[index].(category := form.category)]);
        vm.SetExpenses(vm.expenses[index := vm.expenses[index].(date := form.date)]);
  }

  /** With unique identifiers, a record is the first one carrying its identifier. */
  lemma FirstIndexOfUnique(xs: seq<Expense>, i: nat)
    requires i < |xs| && UniqueIds(xs)
    ensures FirstIndexOf(xs, xs[i].id) == Some(i)
  {
    var k := FirstIndexOf(xs, xs[i].id);
    assert k.Some?;
    assert xs[k.value].id == xs[i].id;
  }

  /** Revising a record with its own fields gives the record back. */
  lemma RevisedWithOwnFields(xs: seq<Expense>, i: nat)
    requires i < |xs|
    ensures var e := xs[i]; xs[i := Revised(e, e.title, e.amount, e.category, e.date)] == xs
  {
  }

  /** Opening the sheet on a record and confirming it unchanged leaves the ledger as it
      was, when the record's title is already trimmed and the two-decimal text of its
      amount reads back as the amount. */
  lemma UnchangedFormIsNoOp(xs: seq<Expense>, i: nat, fmt: Formatters)
    requires i < |xs| && UniqueIds(xs)
    requires Trim(xs[i].title) == xs[i].title
    requires fmt.parseNumber(fmt.twoDecimals(xs[i].amount)) == Some(xs[i].amount)
    ensures var f := InitialForm(xs[i], fmt);
            UpdateById(xs, xs[i].id, Trim(f.title), fmt.parseNumber(f.amount).value, f.category, f.date) == xs
  {
    FirstIndexOfUnique(xs, i);
    RevisedWithOwnFields(xs, i);
  }
}
