/** `LimitSettingView`: entering the monthly spending limit. */
module LimitSetting {
  import opened Wrappers
  import opened Platform

  /** The view model's `monthlyLimit`, which the limit sheet writes and the PDF report
      reads. */
  class LimitStore {
    var monthlyLimit: Amount

    /** Only the limit sheet writes the limit, and it never writes a negative one. */
    ghost predicate Valid()
      reads this
    {
      monthlyLimit >= 0
    }

    constructor (initial: Amount)
      requires initial >= 0
      ensures monthlyLimit == initial && Valid()
    {
      monthlyLimit := initial;
    }
  }

  /** The limit the "Limiti Kaydet" button accepts from the text field: a number that
      is not negative. */
  function AcceptedLimit(input: string, fmt: Formatters): (r: Option<Amount>)
    ensures r.Some? ==> r.value >= 0 && fmt.parseNumber(input) == r
    ensures r.None? ==> fmt.parseNumber(input).None? || fmt.parseNumber(input).value < 0
  {
    match fmt.parseNumber(input)
    case Some(value) => if value >= 0 then Some(value) else None
    case None => None
  }

  /** The text the field is prefilled with when the sheet appears. */
  function Prefill(limit: Amount, fmt: Formatters): (s: string)
    ensures limit <= 0 ==> s == ""
  {
    if limit > 0 then fmt.twoDecimals(limit) else ""
  }

  /** Opening the sheet and saving at once keeps a positive limit when its two-decimal
      text reads back as itself; a zero limit leaves the field empty, which saves
      nothing. */
  lemma PrefillThenSave(limit: Amount, fmt: Formatters)
    requires limit >= 0
    requires fmt.parseNumber("") == None
    requires limit > 0 ==> fmt.parseNumber(fmt.twoDecimals(limit)) == Some(limit)
    ensures limit > 0 ==> AcceptedLimit(Prefill(limit, fmt), fmt) == Some(limit)
    ensures limit == 0 ==> AcceptedLimit(Prefill(limit, fmt), fmt) == None
  {
  }

  class LimitSettingView {
    const store: LimitStore
    var limitInput: string
    var showSavedMessage: bool

    constructor (store: LimitStore)
      ensures this.store == store && limitInput == "" && !showSavedMessage
    {
      this.store := store;
      limitInput := "";
      showSavedMessage := false;
    }

    /** "Limiti Kaydet": stores an accepted limit and raises the confirmation; any other
        input changes nothing. Zero is accepted. */
    method SaveLimit(fmt: Formatters)
      requires store.Valid()
      modifies this, store
      ensures store.Valid()
      ensures limitInput == old(limitInput)
      ensures AcceptedLimit(limitInput, fmt).Some? ==>
                store.monthlyLimit == AcceptedLimit(limitInput, fmt).value && showSavedMessage
      ensures AcceptedLimit(limitInput, fmt).None? ==>
                store.monthlyLimit == old(store.monthlyLimit) && showSavedMessage == old(showSavedMessage)
    {
      match AcceptedLimit(limitInput, fmt)
      case Some(value) =>
        store.monthlyLimit := value;
        showSavedMessage := true;
      case None =>
    }

    /** `onAppear`: prefills the field from the stored limit. */
    method OnAppear(fmt: Formatters)
      modifies this
      ensures limitInput == Prefill(store.monthlyLimit, fmt)
      ensures showSavedMessage == old(showSavedMessage)
    {
      limitInput := Prefill(store.monthlyLimit, fmt);
    }
  }
}
