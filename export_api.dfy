/**
 * `/api/export/expenses`: the expenses a query selects, latest date first, as a CSV file
 * or as JSON with their count. The CSV is a fixed header line and one line per expense;
 * its cells are written without any escaping.
 */
module ExportApi {
  import opened Wrappers
  import opened Types
  import Text
  import Seqs
  import Sorting
  import ExpenseDb

  /** The query string: each parameter is absent (`null`) or a text, possibly empty. */
  datatype ExportQuery = ExportQuery(
    format: Option<string>,
    category: Option<string>,
    dateFrom: Option<string>,
    dateTo: Option<string>)

  /** A query parameter that is present and not empty. */
  predicate Given(p: Option<string>)
  {
    p.Some? && p.value != ""
  }

  /** `format || "csv"`. */
  function FormatOf(q: ExportQuery): (f: string)
    ensures Given(q.format) ==> f == q.format.value
    ensures !Given(q.format) ==> f == "csv"
    ensures f != ""
  {
    if Given(q.format) then q.format.value else "csv"
  }

  /** The query object: category equality when given, inclusive date bounds when given. */
  predicate Matches(q: ExportQuery, e: Expense)
  {
    && (Given(q.category) ==> CategoryName(e.category) == q.category.value)
    && (Given(q.dateFrom) ==> Text.StrLe(q.dateFrom.value, e.date))
    && (Given(q.dateTo) ==> Text.StrLe(e.date, q.dateTo.value))
  }

  /** `find(query).sort({ date: -1 })`: exactly the matching expenses, latest date first. */
  function Selected(expenses: seq<Expense>, q: ExportQuery): (r: seq<Expense>)
    ensures multiset(r) == multiset(Seqs.Filter(expenses, (e: Expense) => Matches(q, e)))
    ensures forall e :: e in r <==> e in expenses && Matches(q, e)
    ensures Sorting.SortedBy(r, ExpenseDb.DateDesc)
  {
    var picked := Seqs.Filter(expenses, (e: Expense) => Matches(q, e));
    var r := ExpenseDb.Listing(picked);
    assert forall e :: e in r <==> e in picked by {
      forall e ensures e in r <==> e in picked {
        assert e in r <==> e in multiset(r);
        assert e in picked <==> e in multiset(picked);
      }
    }
    assert forall e :: e in expenses && Matches(q, e) ==> e in picked by {
      forall e | e in expenses && Matches(q, e) ensures e in picked {
        var i :| 0 <= i < |expenses| && expenses[i] == e;
      }
    }
    r
  }

  /** A query with no parameters selects the whole table. */
  lemma {:induction false} EmptyQuerySelectsAll(expenses: seq<Expense>)
    ensures multiset(Selected(expenses, ExportQuery(None, None, None, None))) == multiset(expenses)
  {
    var q := ExportQuery(None, None, None, None);
    Seqs.FilterKeepsAll(expenses, (e: Expense) => Matches(q, e));
  }

  // ---------------------------------------------------------------- CSV

  /** The column titles of the header line. */
  const Columns: seq<string> := ["ID", "Date", "Description", "Category", "Amount", "Payment Method", "Status", "Tags"]

  /** `ID,Date,Description,Category,Amount,Payment Method,Status,Tags`. */
  const HeaderLine: string := Text.Join(Columns, ",")

  /** The header holds no line break, so it is the file's first line. */
  lemma HeaderLineUnbroken()
    ensures '\n' !in HeaderLine
  {
    forall i | 0 <= i < |Columns| ensures '\n' !in Columns[i] {
      assert Columns[i] in Columns;
    }
    Text.JoinAvoids(Columns, ",", '\n');
  }

  /** A text between double quotes, as it is: a quote inside is not doubled. */
  function Quoted(s: string): (r: string)
    ensures |r| == |s| + 2 && r[0] == '"' && r[|r| - 1] == '"' && r[1..|r| - 1] == s
  {
    "\"" + s + "\""
  }

  /** `exp.tags?.join(";") || ""`: no tags give the empty text. */
  function TagsText(tags: seq<string>): (r: string)
    ensures tags == [] ==> r == ""
    ensures |tags| == 1 ==> r == tags[0]
  {
    Text.Join(tags, ";")
  }

  /** Tags free of semicolons are recovered by splitting the cell's text on semicolons. */
  lemma TagsSplitBack(tags: seq<string>)
    requires tags != [] && forall i :: 0 <= i < |tags| ==> ';' !in tags[i]
    ensures Text.Split(TagsText(tags), ';') == tags
  {
    Text.SplitJoin(tags, ';');
  }

  /**
   * The eight cells of an expense's line, in column order. `amountText` stands for the
   * way JavaScript writes a number into a template string.
   */
  function Cells(e: Expense, amountText: real -> string): (r: seq<string>)
    ensures |r| == 8
  {
    [e.id, Quoted(e.date), Quoted(e.description), Quoted(CategoryName(e.category)),
     amountText(e.amount), Quoted(PaymentMethodName(e.paymentMethod)), Quoted(StatusName(e.status)),
     Quoted(TagsText(e.tags))]
  }

  /** One line of the file: the cells separated by commas. */
  function Row(e: Expense, amountText: real -> string): string
  {
    Text.Join(Cells(e, amountText), ",")
  }

  /**
   * When no cell holds a comma, splitting a line on commas gives back the eight cells:
   * the id, the quoted date, description, category, the amount, the quoted payment
   * method, status and tags.
   */
  lemma RowHasEightCells(e: Expense, amountText: real -> string)
    requires forall i :: 0 <= i < 8 ==> ',' !in Cells(e, amountText)[i]
    ensures var cells := Text.Split(Row(e, amountText), ',');
            && cells == Cells(e, amountText)
            && cells[0] == e.id && cells[4] == amountText(e.amount)
            && cells[1][1..|cells[1]| - 1] == e.date
            && cells[2][1..|cells[2]| - 1] == e.description
            && cells[7][1..|cells[7]| - 1] == TagsText(e.tags)
  {
    Text.SplitJoin(Cells(e, amountText), ',');
  }

  /**
   * Conversely, a comma inside any cell (a description such as "tea,cake": quoting does
   * not protect it from a reader that splits on commas) means the line no longer splits
   * back into its cells.
   */
  lemma CommaInCellBreaksRow(e: Expense, amountText: real -> string, i: nat)
    requires i < 8 && ',' in Cells(e, amountText)[i]
    ensures Text.Split(Row(e, amountText), ',') != Cells(e, amountText)
  {
  }

  /** The whole file: the header, then the lines joined with line breaks. */
  function Csv(expenses: seq<Expense>, amountText: real -> string): string
  {
    HeaderLine + "\n" + Text.Join(Rows(expenses, amountText), "\n")
  }

  /** The lines of the expenses, one per expense, in order. */
  function Rows(expenses: seq<Expense>, amountText: real -> string): (r: seq<string>)
    ensures |r| == |expenses| && forall i :: 0 <= i < |r| ==> r[i] == Row(expenses[i], amountText)
  {
    if expenses == [] then [] else [Row(expenses[0], amountText)] + Rows(expenses[1..], amountText)
  }

  /**
   * When no line break occurs inside a cell, the file splits into the header line followed
   * by exactly one line per expense, in order; with no expenses it is the header alone.
   */
  lemma CsvLines(expenses: seq<Expense>, amountText: real -> string)
    requires forall i :: 0 <= i < |expenses| ==> '\n' !in Row(expenses[i], amountText)
    ensures expenses == [] ==> Csv(expenses, amountText) == HeaderLine + "\n"
    ensures expenses != [] ==>
              var lines := Text.Split(Csv(expenses, amountText), '\n');
              && |lines| == |expenses| + 1
              && lines[0] == HeaderLine
              && forall i :: 0 <= i < |expenses| ==> lines[i + 1] == Row(expenses[i], amountText)
  {
    if expenses != [] {
      var rows := Rows(expenses, amountText);
      Text.SplitJoin(rows, '\n');
      HeaderLineUnbroken();
      Text.SplitFirstSegment(HeaderLine, Text.Join(rows, "\n"), '\n');
    }
  }

  // ---------------------------------------------------------------- GET

  /** What `GET` answers with on success. */
  datatype ExportBody =
    | CsvFile(text: string, fileName: string)
    | JsonBody(data: seq<Expense>, count: nat)

  /**
   * `GET`: the selected expenses as CSV (the default) or as JSON; any other format is a
   * 400. `today` stands for the date part of the current time in ISO form.
   */
  function Export(expenses: seq<Expense>, q: ExportQuery, amountText: real -> string, today: string)
    : (r: Result<ExportBody>)
    ensures r.Err? <==> FormatOf(q) != "csv" && FormatOf(q) != "json"
    ensures r.Err? ==> r == Err(400, "Invalid format. Use csv or json")
    ensures !Given(q.format) ==> r.Ok? && r.value.CsvFile?
    ensures FormatOf(q) == "csv" ==>
              r == Ok(CsvFile(Csv(Selected(expenses, q), amountText), "expenses-" + today + ".csv"))
    ensures FormatOf(q) == "json" ==>
              && r.Ok? && r.value.JsonBody?
              && r.value.data == Selected(expenses, q)
              && r.value.count == |Selected(expenses, q)|
  {
    var selected := Selected(expenses, q);
    var format := FormatOf(q);
    if format == "csv" then Ok(CsvFile(Csv(selected, amountText), "expenses-" + today + ".csv"))
    else if format == "json" then Ok(JsonBody(selected, |selected|))
    else Err(400, "Invalid format. Use csv or json")
  }
}
