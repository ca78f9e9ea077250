/** `isFormValid`, which the add and edit sheets define alike: the save or update
    button is enabled only for a title that is not blank and an amount that parses. */
module ExpenseForm {
  import opened Platform
  import opened Text

  predicate IsFormValid(title: string, amount: string, fmt: Formatters) {
    Trim(title) != [] && fmt.parseNumber(amount).Some?
  }

  /** A title passes exactly when it has a character that is not whitespace, and the
      title that will be stored is then non-empty and free of surrounding spaces. */
  lemma FormValidIff(title: string, amount: string, fmt: Formatters)
    ensures IsFormValid(title, amount, fmt) <==>
            (exists i :: 0 <= i < |title| && !IsSpace(title[i])) && fmt.parseNumber(amount).Some?
    ensures IsFormValid(title, amount, fmt) ==>
            var t := Trim(title); t != [] && !IsSpace(t[0]) && !IsSpace(t[|t| - 1])
  {
  }
}
