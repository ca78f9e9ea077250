/** `ExpenseCategory`: a second enumeration with the same cases and tables as
    `Category`. Nothing in the app converts between the two; `AsCategory` pairs the
    cases of the same name so that the two tables can be compared. */
module ExpenseCategories {
  import opened Wrappers
  import ExpenseModel

  datatype ExpenseCategory = Market | Ulasim | Eglence | Yemek | Giyim | Fatura | Diger

  const AllExpenseCategories: seq<ExpenseCategory> := [Market, Ulasim, Eglence, Yemek, Giyim, Fatura, Diger]

  function RawValue(c: ExpenseCategory): string {
    match c
    case Market => "Market"
    case Ulasim => "Ulaşım"
    case Eglence => "Eğlence"
    case Yemek => "Yemek"
    case Giyim => "Giyim"
    case Fatura => "Fatura"
    case Diger => "Diğer"
  }

  /** `ExpenseCategory(rawValue:)`. */
  function FromRawValue(s: string): (r: Option<ExpenseCategory>)
    ensures r.Some? ==> RawValue(r.value) == s
    ensures forall c :: RawValue(c) == s ==> r == Some(c)
  {
    if s == "Market" then Some(Market)
    else if s == "Ulaşım" then Some(Ulasim)
    else if s == "Eğlence" then Some(Eglence)
    else if s == "Yemek" then Some(Yemek)
    else if s == "Giyim" then Some(Giyim)
    else if s == "Fatura" then Some(Fatura)
    else if s == "Diğer" then Some(Diger)
    else None
  }

  /** `id` (Identifiable): the raw value, which tells the cases apart. */
  function Id(c: ExpenseCategory): (r: string)
    ensures forall c' :: RawValue(c') == r ==> c' == c
    ensures FromRawValue(r) == Some(c)
  {
    RawValue(c)
  }

  function Icon(c: ExpenseCategory): string {
    match c
    case Market => "🛒"
    case Ulasim => "🚗"
    case Eglence => "🎮"
    case Yemek => "\U{1F37D}\U{FE0F}"
    case Giyim => "👔"
    case Fatura => "💡"
    case Diger => "📌"
  }

  /** The `Category` case of the same name. */
  function AsCategory(c: ExpenseCategory): ExpenseModel.Category {
    match c
    case Market => ExpenseModel.Market
    case Ulasim => ExpenseModel.Ulasim
    case Eglence => ExpenseModel.Eglence
    case Yemek => ExpenseModel.Yemek
    case Giyim => ExpenseModel.Giyim
    case Fatura => ExpenseModel.Fatura
    case Diger => ExpenseModel.Diger
  }

  /** The two enumerations are the same table: same cases in the same order, same
      raw values, same icons. */
  lemma SameTableAsCategory(c: ExpenseCategory)
    ensures RawValue(c) == ExpenseModel.RawValue(AsCategory(c))
    ensures Icon(c) == ExpenseModel.Icon(AsCategory(c))
    ensures |AllExpenseCategories| == |ExpenseModel.AllCategories|
    ensures forall i :: 0 <= i < |AllExpenseCategories| ==>
              AsCategory(AllExpenseCategories[i]) == ExpenseModel.AllCategories[i]
  {
  }

  /** Every `Category` has exactly one counterpart. */
  lemma AsCategoryBijective(c: ExpenseCategory, d: ExpenseCategory, k: ExpenseModel.Category)
    ensures AsCategory(c) == AsCategory(d) <==> c == d
    ensures exists e :: AsCategory(e) == k
  {
    match k
    case Market => assert AsCategory(Market) == k;
    case Ulasim => assert AsCategory(Ulasim) == k;
    case Eglence => assert AsCategory(Eglence) == k;
    case Yemek => assert AsCategory(Yemek) == k;
    case Giyim => assert AsCategory(Giyim) == k;
    case Fatura => assert AsCategory(Fatura) == k;
    case Diger => assert AsCategory(Diger) == k;
  }

  /** Raw values are pairwise distinct, so they round-trip. */
  lemma RawValueRoundTrip(c: ExpenseCategory, d: ExpenseCategory)
    ensures FromRawValue(RawValue(c)) == Some(c)
    ensures RawValue(c) == RawValue(d) <==> c == d
  {
  }
}
