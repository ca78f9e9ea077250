/** `PDFReportManager.createPDF`: the report's texts and where each expense line lands
    on which page. Drawing and the file write are not modelled. */
module PdfReport {
  import opened Platform
  import opened ExpenseModel
  import opened Aggregation

  /** `Int(pageHeight)`: the 841.8-point A4 height truncated to an integer. */
  const PageHeight: int := 841
  const BottomMargin: int := 50
  /** A line whose cursor is below this y starts a new page: 791. */
  const LastY: int := PageHeight - BottomMargin
  const FirstLineY: int := 180
  const LineHeight: int := 20
  /** Where the cursor restarts on a new page. */
  const TopY: int := 20

  /** The page (counted from 0) and the y coordinate of the cursor. */
  datatype Pen = Pen(page: nat, y: int)

  /** One expense line as drawn. */
  datatype DrawnLine = DrawnLine(page: nat, y: int, text: string)

  datatype Report = Report(totalText: string, limitText: string, lines: seq<DrawnLine>, pages: nat)

  /** "Aylık Limit: %.2f ₺", or "Aylık Limit: Yok" when there is no positive limit. */
  function LimitText(monthlyLimit: Amount, fmt: Formatters): string {
    if monthlyLimit > 0 then "Aylık Limit: " + fmt.twoDecimals(monthlyLimit) + " ₺" else "Aylık Limit: Yok"
  }

  /** The report shows an amount for the limit exactly when the limit is positive: only
      then does the text end with the lira sign. */
  lemma LimitTextShowsAmountIffPositive(monthlyLimit: Amount, fmt: Formatters)
    ensures var t := LimitText(monthlyLimit, fmt);
            |t| >= 1 && (t[|t| - 1] == '₺' <==> monthlyLimit > 0)
    ensures monthlyLimit <= 0 ==> LimitText(monthlyLimit, fmt) == "Aylık Limit: Yok"
  {
  }

  /** "Toplam Harcama: %.2f ₺" of the sum of all amounts. */
  function TotalText(expenses: seq<Expense>, fmt: Formatters): string {
    "Toplam Harcama: " + fmt.twoDecimals(Total(expenses)) + " ₺"
  }

  /** The reported total is the sum of the list's parts: a report on `a + b` shows the
      text of the sum of the two totals. */
  lemma TotalTextOfAppend(a: seq<Expense>, b: seq<Expense>, fmt: Formatters)
    ensures TotalText(a + b, fmt) == "Toplam Harcama: " + fmt.twoDecimals(Total(a) + Total(b)) + " ₺"
  {
    TotalAppend(a, b);
  }

  /** "dd.MM.yyyy - title - category - %.2f ₺". */
  function LineText(e: Expense, fmt: Formatters): string {
    fmt.dottedDay(e.date) + " - " + e.title + " - " + RawValue(e.category) + " - " + fmt.twoDecimals(e.amount) + " ₺"
  }

  /** The page check made before each line: past `LastY`, begin a page at `TopY`. */
  function BreakIfFull(p: Pen): Pen {
    if p.y > LastY then Pen(p.page + 1, TopY) else p
  }

  /** The cursor before the i-th line is drawn. */
  function Cursor(i: nat): Pen
    decreases i, 0
  {
    if i == 0 then Pen(0, FirstLineY)
    else
      var at := AtLine(i - 1);
      Pen(at.page, at.y + LineHeight)
  }

  /** Where the i-th line is drawn. */
  function AtLine(i: nat): Pen
    decreases i, 1
  {
    BreakIfFull(Cursor(i))
  }

  /** Closed form of the cursor: the first page holds lines 0 to 30 at y = 180, 200, …,
      780; after that each page holds 39 lines at y = 20, 40, …, 780. */
  lemma {:induction false} AtLineClosedForm(i: nat)
    ensures i < 31 ==> AtLine(i) == Pen(0, FirstLineY + LineHeight * i)
    ensures i >= 31 ==> AtLine(i) == Pen(1 + (i - 31) / 39, TopY + LineHeight * ((i - 31) % 39))
  {
    if i > 0 {
      AtLineClosedForm(i - 1);
      if i - 1 >= 31 {
        var k := i - 32;
        if k % 39 == 38 {
          assert (i - 31) / 39 == k / 39 + 1 && (i - 31) % 39 == 0;
        } else {
          assert (i - 31) / 39 == k / 39 && (i - 31) % 39 == k % 39 + 1;
        }
      }
    }
  }

  /** Every line is drawn between y = 20 and y = 780, never past 791, and the lines of
      one page are 20 points apart. */
  lemma LinesStayOnPage(i: nat)
    ensures TopY <= AtLine(i).y <= 780 < LastY
    ensures AtLine(i + 1).page == AtLine(i).page ==> AtLine(i + 1).y == AtLine(i).y + LineHeight
    ensures AtLine(i + 1).page == AtLine(i).page || (AtLine(i + 1).page == AtLine(i).page + 1 && AtLine(i + 1).y == TopY)
  {
    AtLineClosedForm(i);
    AtLineClosedForm(i + 1);
    if i >= 31 {
      var k := i - 31;
      if k % 39 == 38 {
        assert (k + 1) / 39 == k / 39 + 1 && (k + 1) % 39 == 0;
      } else {
        assert (k + 1) / 39 == k / 39 && (k + 1) % 39 == k % 39 + 1;
      }
    }
  }

  /** The first page holds 31 lines and each later page 39: the lines on page `p` are
      exactly those numbered from `FirstOnPage(p)` up to `FirstOnPage(p + 1)`. */
  function FirstOnPage(p: nat): nat {
    if p == 0 then 0 else 31 + 39 * (p - 1)
  }

  lemma PageCapacity(i: nat, p: nat)
    ensures AtLine(i).page == p <==> FirstOnPage(p) <= i < FirstOnPage(p + 1)
  {
    AtLineClosedForm(i);
    if i >= 31 && p >= 1 {
      var q := (i - 31) / 39;
      assert 39 * q <= i - 31 < 39 * (q + 1);
      if q + 1 < p {
        assert FirstOnPage(p) == 31 + 39 * (p - 1) >= 31 + 39 * (q + 1);
      } else if q + 1 > p {
        assert FirstOnPage(p + 1) == 31 + 39 * p <= 31 + 39 * q;
      }
    }
  }

  /** `createPDF`'s drawing loop: one line per expense, in list order, at the place
      the cursor gives; and the two summary texts. */
  method CreatePdf(expenses: seq<Expense>, monthlyLimit: Amount, fmt: Formatters) returns (report: Report)
    ensures report.totalText == TotalText(expenses, fmt)
    ensures report.limitText == LimitText(monthlyLimit, fmt)
    ensures |report.lines| == |expenses|
    ensures forall i :: 0 <= i < |expenses| ==>
              report.lines[i] == DrawnLine(AtLine(i).page, AtLine(i).y, LineText(expenses[i], fmt))
    ensures report.pages == if expenses == [] then 1 else AtLine(|expenses| - 1).page + 1
  {
    var totalAmount := Total(expenses);
    var limitText := if monthlyLimit > 0 then "Aylık Limit: " + fmt.twoDecimals(monthlyLimit) + " ₺" else "Aylık Limit: Yok";
    var totalText := "Toplam Harcama: " + fmt.twoDecimals(totalAmount) + " ₺";
    var page: nat := 0;
    var yPosition := FirstLineY;
    var lines: seq<DrawnLine> := [];
    for i := 0 to |expenses|
      invariant |lines| == i
      invariant Pen(page, yPosition) == Cursor(i)
      invariant forall j :: 0 <= j < i ==>
                  lines[j] == DrawnLine(AtLine(j).page, AtLine(j).y, LineText(expenses[j], fmt))
      invariant i > 0 ==> page == AtLine(i - 1).page
    {
      if yPosition > LastY {
        page := page + 1;
        yPosition := TopY;
      }
      var expenseText := fmt.dottedDay(expenses[i].date) + " - " + expenses[i].title + " - " +
                         RawValue(expenses[i].category) + " - " + fmt.twoDecimals(expenses[i].amount) + " ₺";
      lines := lines + [DrawnLine(page, yPosition, expenseText)];
      yPosition := yPosition + LineHeight;
    }
    report := Report(totalText, limitText, lines, page + 1);
  }
}
