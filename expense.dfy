/** The expense record and its category (`Category`, `Expense`). */
module ExpenseModel {
  import opened Wrappers
  import opened Platform

  /** The seven spending categories. */
  datatype Category = Market | Ulasim | Eglence | Yemek | Giyim | Fatura | Diger

  /** Every case, in declaration order (`Category.allCases`). */
  const AllCategories: seq<Category> := [Market, Ulasim, Eglence, Yemek, Giyim, Fatura, Diger]

  /** The case's raw string, which is also its persisted (Codable) form. */
  function RawValue(c: Category): string {
    match c
    case Market => "Market"
    case Ulasim => "Ulaşım"
    case Eglence => "Eğlence"
    case Yemek => "Yemek"
    case Giyim => "Giyim"
    case Fatura => "Fatura"
    case Diger => "Diğer"
  }

  /** `Category(rawValue:)`: the case whose raw string is `s`, if any. */
  function FromRawValue(s: string): (r: Option<Category>)
    ensures r.Some? ==> RawValue(r.value) == s
    ensures forall c :: RawValue(c) == s ==> r == Some(c)
  {
    if s == "Market" then Some(Market)
    else if s == "Ulaşım" then Some(Ulasim)
    else if s == "Eğlence" then Some(Eglence)
    else if s == "Yemek" then Some(Yemek)
    else if s == "Giyim" then Some(Giyim)
    else if s == "Fatura" then Some(Fatura)
    else if s == "Diğer" then Some(Diger)
    else None
  }

  /** `id` (Identifiable): the raw value, which tells the cases apart. */
  function Id(c: Category): (r: string)
    ensures forall c' :: RawValue(c') == r ==> c' == c
    ensures FromRawValue(r) == Some(c)
  {
    RawValue(c)
  }

  /** The emoji shown beside the category. */
  function Icon(c: Category): string {
    match c
    case Market => "🛒"
    case Ulasim => "🚗"
    case Eglence => "🎮"
    case Yemek => "\U{1F37D}\U{FE0F}"
    case Giyim => "👔"
    case Fatura => "💡"
    case Diger => "📌"
  }

  /** `allCases` lists each of the seven cases exactly once. */
  lemma AllCategoriesComplete()
    ensures |AllCategories| == 7
    ensures forall c :: c in AllCategories
    ensures forall i, j :: 0 <= i < j < |AllCategories| ==> AllCategories[i] != AllCategories[j]
  {
    forall c: Category ensures c in AllCategories {
      var i := match c
        case Market => 0 case Ulasim => 1 case Eglence => 2 case Yemek => 3
        case Giyim => 4 case Fatura => 5 case Diger => 6;
      assert AllCategories[i] == c;
    }
  }

  /** Raw values are pairwise distinct, so decoding a raw value returns its case. */
  lemma RawValueRoundTrip(c: Category, d: Category)
    ensures FromRawValue(RawValue(c)) == Some(c)
    ensures RawValue(c) == RawValue(d) <==> c == d
  {
  }

  /** Every case has an icon, and no two cases share one. */
  lemma IconInjective(c: Category, d: Category)
    ensures Icon(c) == Icon(d) <==> c == d
  {
  }

  /** An expense identifier (`UUID`). */
  type Uuid = nat

  /** One recorded expense. `Expense(title:amount:category:date:)` draws a fresh
      `id`; here the identifier is an argument of the constructor. */
  datatype Expense = Expense(id: Uuid, title: string, amount: Amount, category: Category, date: Date)
}
