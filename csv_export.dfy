/** `CSVExportManager.generateCSV(from:)`: a header line, then one line of four
    double-quoted, comma-separated fields per expense. */
module CsvExport {
  import opened Wrappers
  import opened Platform
  import opened ExpenseModel
  import opened Aggregation

  /** The column titles: title, amount, category, date. */
  const HeaderRow: string := "Başlık,Tutar,Kategori,Tarih"

  const Header: string := HeaderRow + "\n"

  function Quoted(s: string): string {
    "\"" + s + "\""
  }

  /** The fields of one record: title, `"\(amount)"`, category raw value, and the date
      as `yyyy-MM-dd`. The title is taken as it is: an embedded `"` is not doubled. */
  function Fields(e: Expense, fmt: Formatters): seq<string> {
    [e.title, fmt.describe(e.amount), RawValue(e.category), fmt.isoDay(e.date)]
  }

  /** Fields written quoted and comma-separated. */
  function JoinQuoted(fs: seq<string>): (r: string)
    requires fs != []
    ensures |r| >= 2 && r[0] == '"'
  {
    if |fs| == 1 then Quoted(fs[0]) else Quoted(fs[0]) + "," + JoinQuoted(fs[1..])
  }

  /** The line written for one record (without its line break). */
  function CsvLine(e: Expense, fmt: Formatters): string {
    JoinQuoted(Fields(e, fmt))
  }

  /** The line spelled out: `"title","amount","category","yyyy-MM-dd"`. */
  lemma CsvLineLayout(e: Expense, fmt: Formatters)
    ensures CsvLine(e, fmt) ==
            Quoted(e.title) + "," + Quoted(fmt.describe(e.amount)) + "," +
            Quoted(RawValue(e.category)) + "," + Quoted(fmt.isoDay(e.date))
  {
    var fs := Fields(e, fmt);
    assert JoinQuoted(fs[3..]) == Quoted(fs[3]);
    assert JoinQuoted(fs[2..]) == Quoted(fs[2]) + "," + Quoted(fs[3]);
    assert JoinQuoted(fs[1..]) == Quoted(fs[1]) + "," + Quoted(fs[2]) + "," + Quoted(fs[3]);
  }

  /** The record lines, each followed by a line break, in list order. */
  function CsvLines(xs: seq<Expense>, fmt: Formatters): string {
    if xs == [] then "" else CsvLines(Init(xs), fmt) + CsvLine(Last(xs), fmt) + "\n"
  }

  /** `generateCSV(from:)`. */
  method GenerateCsv(expenses: seq<Expense>, fmt: Formatters) returns (csv: string)
    ensures csv == Header + CsvLines(expenses, fmt)
    ensures expenses == [] ==> csv == Header
  {
    csv := Header;
    for i := 0 to |expenses|
      invariant csv == Header + CsvLines(expenses[..i], fmt)
    {
      CsvLinesStep(expenses, i, fmt);
      var line := CsvLine(expenses[i], fmt);
      csv := csv + line + "\n";
    }
    assert expenses[..|expenses|] == expenses;
  }

  lemma CsvLinesStep(xs: seq<Expense>, i: nat, fmt: Formatters)
    requires i < |xs|
    ensures CsvLines(xs[..i + 1], fmt) == CsvLines(xs[..i], fmt) + CsvLine(xs[i], fmt) + "\n"
  {
    assert xs[..i + 1] == xs[..i] + [xs[i]];
    InitOfAppend(xs[..i], xs[i]);
  }

  /** The lines of `a + b` are the lines of `a` followed by those of `b`: exporting a
      longer list only adds lines at the end. */
  lemma {:induction false} CsvLinesAppend(a: seq<Expense>, b: seq<Expense>, fmt: Formatters)
    ensures CsvLines(a + b, fmt) == CsvLines(a, fmt) + CsvLines(b, fmt)
  {
    if b == [] {
      assert a + b == a;
    } else {
      assert Init(a + b) == a + Init(b);
      assert Last(a + b) == Last(b);
      CsvLinesAppend(a, Init(b), fmt);
    }
  }

  /** The same lines, read from the front. */
  lemma CsvLinesFront(xs: seq<Expense>, fmt: Formatters)
    requires xs != []
    ensures CsvLines(xs, fmt) == CsvLine(xs[0], fmt) + "\n" + CsvLines(xs[1..], fmt)
  {
    assert xs == [xs[0]] + xs[1..];
    CsvLinesAppend([xs[0]], xs[1..], fmt);
    assert Init([xs[0]]) == [];
  }

  // ---------------------------------------------------------------------------
  // Line structure

  /** `s.components(separatedBy: "\n")`. */
  function SplitLines(s: string): (r: seq<string>)
    ensures |r| >= 1
  {
    if s == [] then [""]
    else
      var rest := SplitLines(s[1..]);
      if s[0] == '\n' then [""] + rest else [[s[0]] + rest[0]] + rest[1..]
  }

  lemma {:induction false} SplitAfterLine(a: string, b: string)
    requires '\n' !in a
    ensures SplitLines(a + "\n" + b) == [a] + SplitLines(b)
  {
    if a == [] {
      assert a + "\n" + b == "\n" + b;
      assert ("\n" + b)[1..] == b;
    } else {
      assert (a + "\n" + b)[1..] == a[1..] + "\n" + b;
      SplitAfterLine(a[1..], b);
      assert [a[0]] + a[1..] == a;
    }
  }

  /** No field of a record contains a line break. */
  ghost predicate SingleLine(e: Expense, fmt: Formatters) {
    '\n' !in e.title && '\n' !in fmt.describe(e.amount) && '\n' !in fmt.isoDay(e.date)
  }

  /** A character that is neither `"` nor `,` occurs in the joined line only if it
      occurs in a field. */
  lemma {:induction false} JoinQuotedLacks(fs: seq<string>, c: char)
    requires fs != [] && c != '"' && c != ','
    requires forall i :: 0 <= i < |fs| ==> c !in fs[i]
    ensures c !in JoinQuoted(fs)
  {
    if |fs| > 1 {
      JoinQuotedLacks(fs[1..], c);
    }
  }

  lemma CsvLineSingleLine(e: Expense, fmt: Formatters)
    requires SingleLine(e, fmt)
    ensures '\n' !in CsvLine(e, fmt)
  {
    assert '\n' !in RawValue(e.category) by {
      match e.category
      case _ =>
    }
    JoinQuotedLacks(Fields(e, fmt), '\n');
  }

  /** With single-line fields, the file splits into the header, then exactly the line
      of each record in list order, then the empty text after the final line break. */
  lemma {:induction false} CsvSplitsIntoLines(xs: seq<Expense>, fmt: Formatters)
    requires forall i :: 0 <= i < |xs| ==> SingleLine(xs[i], fmt)
    ensures var lines := SplitLines(Header + CsvLines(xs, fmt));
            && |lines| == |xs| + 2
            && lines[0] == HeaderRow
            && (forall j :: 0 <= j < |xs| ==> lines[j + 1] == CsvLine(xs[j], fmt))
            && lines[|xs| + 1] == ""
  {
    assert '\n' !in HeaderRow;
    SplitAfterLine(HeaderRow, CsvLines(xs, fmt));
    RecordLinesSplit(xs, fmt);
  }

  lemma {:induction false} RecordLinesSplit(xs: seq<Expense>, fmt: Formatters)
    requires forall i :: 0 <= i < |xs| ==> SingleLine(xs[i], fmt)
    ensures var lines := SplitLines(CsvLines(xs, fmt));
            && |lines| == |xs| + 1
            && (forall j :: 0 <= j < |xs| ==> lines[j] == CsvLine(xs[j], fmt))
            && lines[|xs|] == ""
  {
    if xs != [] {
      CsvLinesFront(xs, fmt);
      CsvLineSingleLine(xs[0], fmt);
      SplitAfterLine(CsvLine(xs[0], fmt), CsvLines(xs[1..], fmt));
      RecordLinesSplit(xs[1..], fmt);
    }
  }

  /** The number of times `c` occurs in `s`. */
  function Occurrences(s: string, c: char): (n: nat)
    ensures n == 0 <==> c !in s
  {
    if s == [] then 0 else Occurrences(s[..|s| - 1], c) + (if s[|s| - 1] == c then 1 else 0)
  }

  lemma {:induction false} OccurrencesAppend(a: string, b: string, c: char)
    ensures Occurrences(a + b, c) == Occurrences(a, c) + Occurrences(b, c)
  {
    if b != [] {
      assert (a + b)[..|a + b| - 1] == a + b[..|b| - 1];
      OccurrencesAppend(a, b[..|b| - 1], c);
    } else {
      assert a + b == a;
    }
  }

  /** The file holds one line break more than there are records. */
  lemma {:induction false} CsvLineCount(xs: seq<Expense>, fmt: Formatters)
    requires forall i :: 0 <= i < |xs| ==> SingleLine(xs[i], fmt)
    ensures Occurrences(Header + CsvLines(xs, fmt), '\n') == |xs| + 1
  {
    assert '\n' !in HeaderRow;
    OccurrencesAppend(HeaderRow, "\n", '\n');
    assert Occurrences("\n", '\n') == 1 by {
      assert "\n"[..0] == [];
    }
    OccurrencesAppend(Header, CsvLines(xs, fmt), '\n');
    RecordLineCount(xs, fmt);
  }

  lemma {:induction false} RecordLineCount(xs: seq<Expense>, fmt: Formatters)
    requires forall i :: 0 <= i < |xs| ==> SingleLine(xs[i], fmt)
    ensures Occurrences(CsvLines(xs, fmt), '\n') == |xs|
  {
    if xs != [] {
      var prev, line := CsvLines(Init(xs), fmt), CsvLine(Last(xs), fmt);
      RecordLineCount(Init(xs), fmt);
      CsvLineSingleLine(Last(xs), fmt);
      OccurrencesAppend(prev + line, "\n", '\n');
      OccurrencesAppend(prev, line, '\n');
      assert Occurrences("\n", '\n') == 1 by {
        assert "\n"[..0] == [];
      }
    }
  }

  // ---------------------------------------------------------------------------
  // Reading a line back

  /** The position of the first `"` at or after `i` (or the end). */
  function QuoteEnd(s: string, i: nat): (j: nat)
    requires i <= |s|
    ensures i <= j <= |s|
    decreases |s| - i
  {
    if i == |s| || s[i] == '"' then i else QuoteEnd(s, i + 1)
  }

  lemma {:induction false} QuoteEndAt(s: string, i: nat, j: nat)
    requires i <= j < |s| && s[j] == '"'
    requires forall k :: i <= k < j ==> s[k] != '"'
    ensures QuoteEnd(s, i) == j
    decreases j - i
  {
    if i < j {
      QuoteEndAt(s, i + 1, j);
    }
  }

  /** Reads a line of double-quoted fields separated by commas, each field ending at
      the first `"` after its opening one (a reader that knows no escapes). */
  function ParseFields(s: string): Option<seq<string>>
    decreases |s|
  {
    if s == [] || s[0] != '"' then None
    else
      var j := QuoteEnd(s, 1);
      if j == |s| then None
      else if j + 1 == |s| then Some([s[1..j]])
      else if s[j + 1] != ',' then None
      else match ParseFields(s[j + 2..])
        case None => None
        case Some(rest) => Some([s[1..j]] + rest)
  }

  lemma {:induction false} ParseJoinQuoted(fs: seq<string>)
    requires fs != []
    requires forall i :: 0 <= i < |fs| ==> '"' !in fs[i]
    ensures ParseFields(JoinQuoted(fs)) == Some(fs)
  {
    var f := fs[0];
    var s := JoinQuoted(fs);
    assert s[0] == '"';
    assert s[1..1 + |f|] == f;
    assert s[1 + |f|] == '"';
    forall k | 1 <= k < 1 + |f| ensures s[k] != '"' {
      assert s[k] == f[k - 1];
    }
    QuoteEndAt(s, 1, 1 + |f|);
    if |fs| > 1 {
      var rest := JoinQuoted(fs[1..]);
      assert s == Quoted(f) + "," + rest;
      assert s[|f| + 2] == ',';
      assert s[|f| + 3..] == rest;
      ParseJoinQuoted(fs[1..]);
      assert ParseFields(s) == Some([s[1..1 + |f|]] + fs[1..]);
      assert fs == [f] + fs[1..];
    } else {
      assert fs == [f];
    }
  }

  /** A line reads back as the record's four fields whenever none of them contains a
      `"`; commas inside a field are harmless because the field is quoted. */
  lemma CsvLineRoundTrip(e: Expense, fmt: Formatters)
    requires '"' !in e.title && '"' !in fmt.describe(e.amount) && '"' !in fmt.isoDay(e.date)
    ensures ParseFields(CsvLine(e, fmt)) == Some(Fields(e, fmt))
  {
    assert '"' !in RawValue(e.category) by {
      match e.category
      case _ =>
    }
    ParseJoinQuoted(Fields(e, fmt));
  }

  /** A field holding `","` is written exactly like the two fields around it. */
  lemma JoinQuotedSplitField(a: string, b: string, rest: seq<string>)
    requires rest != []
    ensures JoinQuoted([a + "\",\"" + b] + rest) == JoinQuoted([a, b] + rest)
  {
    var gs, hs := [a, b] + rest, [a + "\",\"" + b] + rest;
    assert hs[1..] == rest;
    assert gs[1..] == [b] + rest && ([b] + rest)[1..] == rest;
    var qa, qb, j := Quoted(a), Quoted(b), JoinQuoted(rest);
    assert Quoted(hs[0]) == qa + "," + qb;
    assert JoinQuoted(gs[1..]) == qb + "," + j;
    assert (qa + "," + qb) + "," + j == qa + "," + (qb + "," + j);
  }

  /** Because the title is not escaped, a title holding `","` reads back as two
      fields: the line of a one-field-title record parses to five fields. */
  lemma QuoteInTitleSplitsField()
    ensures var fmt := Formatters(s => None, a => "1", a => "1", d => "d", d => "d", d => "d");
            var e := Expense(0, "a\",\"b", 1, Market, 0);
            ParseFields(CsvLine(e, fmt)) == Some(["a", "b", "1", "Market", "d"])
  {
    var fmt := Formatters(s => None, a => "1", a => "1", d => "d", d => "d", d => "d");
    var e := Expense(0, "a\",\"b", 1, Market, 0);
    var rest := ["1", "Market", "d"];
    assert "a" + "\",\"" + "b" == e.title;
    assert RawValue(Market) == "Market";
    assert Fields(e, fmt) == ["a" + "\",\"" + "b"] + rest;
    JoinQuotedSplitField("a", "b", rest);
    assert ["a", "b"] + rest == ["a", "b", "1", "Market", "d"];
    ParseJoinQuoted(["a", "b", "1", "Market", "d"]);
  }
}
