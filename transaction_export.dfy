/**
 * The statement export of the transaction service: the CSV and JSON
 * documents assembled row by row from the account's transactions in a
 * period. How a date or an amount is printed (`DateTimeFormatter`, `%.2f`,
 * `Double.toString`) is given as a parameter.
 */
module TransactionExport {
  import opened Wrappers
  import opened Entities
  import opened AccountEntity
  import opened TransactionRepository
  import opened TransactionText
  import Text

  /** How dates and amounts are printed. */
  datatype Formats = Formats(
    /** `yyyy-MM-dd HH:mm:ss` */
    csvDate: Instant -> string,
    /** `LocalDateTime.toString()` */
    isoDate: Instant -> string,
    /** `%.2f` */
    fixedAmount: int -> string,
    /** `Double.toString()` */
    plainAmount: int -> string)

  /** How `%s` and `StringBuilder.append` print a string that may be null. */
  function Shown(s: Option<string>): string
  {
    match s
    case None => "null"
    case Some(v) => v
  }

  /** The category column: a missing category is exported as `OTHER`. */
  function CategoryShown(x: Transaction): string
  {
    x.category.GetOr("OTHER")
  }

  // ---------------------------------------------------------------- CSV

  const CSV_COLUMNS: seq<string> := ["Date", "Description", "Amount", "Type", "Category", "Status", "Reference"]

  /** The header line: the column names, comma-separated. */
  const CSV_HEADER: string := Join(CSV_COLUMNS, ",")

  /** The seven columns of one transaction, before they are joined with commas. */
  function CsvFields(x: Transaction, f: Formats): seq<string>
  {
    [f.csvDate(x.timestamp), EscapeCommas(x.description), f.fixedAmount(x.amount),
     Shown(x.transactionType), CategoryShown(x), x.status, Shown(x.referenceNumber)]
  }

  /** One line of the CSV body: the columns separated by commas, then the line end. */
  function CsvRow(x: Transaction, f: Formats): string
  {
    var c := CsvFields(x, f);
    c[0] + "," + c[1] + "," + c[2] + "," + c[3] + "," + c[4] + "," + c[5] + "," + c[6] + "\n"
  }

  /** The lines of `rows`, in order. */
  function CsvLines(rows: seq<Transaction>, f: Formats): string
  {
    if rows == [] then [] else CsvLines(rows[..|rows| - 1], f) + CsvRow(rows[|rows| - 1], f)
  }

  /** The CSV document: the header line, then one line per transaction. */
  function CsvDocument(rows: seq<Transaction>, f: Formats): string
  {
    CSV_HEADER + "\n" + CsvLines(rows, f)
  }

  /** `exportToCsv`: prints the header, then each transaction's line. */
  method ExportToCsv(rows: seq<Transaction>, f: Formats) returns (out: string)
    ensures out == CsvDocument(rows, f)
  {
    out := CSV_HEADER + "\n";
    var i := 0;
    while i < |rows|
      invariant 0 <= i <= |rows|
      invariant out == CSV_HEADER + "\n" + CsvLines(rows[..i], f)
    {
      assert rows[..i + 1][..i] == rows[..i];
      out := out + CsvRow(rows[i], f);
      i := i + 1;
    }
    assert rows[..|rows|] == rows;
  }

  /** How many times `c` occurs in `s`. */
  function Count(s: string, c: char): nat
  {
    if s == [] then 0 else Count(s[..|s| - 1], c) + (if s[|s| - 1] == c then 1 else 0)
  }

  lemma {:induction false} CountAppend(a: string, b: string, c: char)
    ensures Count(a + b, c) == Count(a, c) + Count(b, c)
  {
    if b != [] {
      CountAppend(a, b[..|b| - 1], c);
      assert (a + b)[..|a + b| - 1] == a + b[..|b| - 1];
    } else {
      assert a + b == a;
    }
  }

  lemma {:induction false} CountAbsent(s: string, c: char)
    requires c !in s
    ensures Count(s, c) == 0
  {
    if s != [] {
      CountAbsent(s[..|s| - 1], c);
    }
  }

  /** No column of the transaction holds a line break. */
  predicate SingleLine(x: Transaction, f: Formats)
  {
    forall k :: 0 <= k < |CsvFields(x, f)| ==> '\n' !in CsvFields(x, f)[k]
  }

  lemma RowLineBreaks(x: Transaction, f: Formats)
    requires SingleLine(x, f)
    ensures Count(CsvRow(x, f), '\n') == 1
  {
    var c := CsvFields(x, f);
    forall k | 0 <= k < 7 ensures Count(c[k], '\n') == 0 {
      CountAbsent(c[k], '\n');
    }
    var s := c[0] + "," + c[1] + "," + c[2] + "," + c[3] + "," + c[4] + "," + c[5] + "," + c[6];
    CountAppend(c[0] + ",", c[1], '\n');
    CountAppend(c[0], ",", '\n');
    CountAppend(c[0] + "," + c[1], ",", '\n');
    CountAppend(c[0] + "," + c[1] + ",", c[2], '\n');
    CountAppend(c[0] + "," + c[1] + "," + c[2], ",", '\n');
    CountAppend(c[0] + "," + c[1] + "," + c[2] + ",", c[3], '\n');
    CountAppend(c[0] + "," + c[1] + "," + c[2] + "," + c[3], ",", '\n');
    CountAppend(c[0] + "," + c[1] + "," + c[2] + "," + c[3] + ",", c[4], '\n');
    CountAppend(c[0] + "," + c[1] + "," + c[2] + "," + c[3] + "," + c[4], ",", '\n');
    CountAppend(c[0] + "," + c[1] + "," + c[2] + "," + c[3] + "," + c[4] + ",", c[5], '\n');
    CountAppend(c[0] + "," + c[1] + "," + c[2] + "," + c[3] + "," + c[4] + "," + c[5], ",", '\n');
    CountAppend(c[0] + "," + c[1] + "," + c[2] + "," + c[3] + "," + c[4] + "," + c[5] + ",", c[6], '\n');
    CountAppend(s, "\n", '\n');
  }

  /**
   * One transaction, one line: when no column holds a line break, the
   * document has exactly one line more than there are transactions.
   */
  lemma {:induction false} CsvLineCount(rows: seq<Transaction>, f: Formats)
    requires forall x :: x in rows ==> SingleLine(x, f)
    ensures Count(CsvDocument(rows, f), '\n') == |rows| + 1
  {
    CsvBodyLineCount(rows, f);
    CountAppend(CSV_HEADER, "\n", '\n');
    CountAppend(CSV_HEADER + "\n", CsvLines(rows, f), '\n');
    HeaderSingleLine();
    CountAbsent(CSV_HEADER, '\n');
  }

  lemma HeaderSingleLine()
    ensures '\n' !in CSV_HEADER
  {
    forall p | p in CSV_COLUMNS ensures '\n' !in p { }
    JoinAvoids(CSV_COLUMNS, ",", '\n');
  }

  lemma {:induction false} CsvBodyLineCount(rows: seq<Transaction>, f: Formats)
    requires forall x :: x in rows ==> SingleLine(x, f)
    ensures Count(CsvLines(rows, f), '\n') == |rows|
  {
    if rows != [] {
      var init := rows[..|rows| - 1];
      assert forall x :: x in init ==> x in rows;
      CsvBodyLineCount(init, f);
      RowLineBreaks(rows[|rows| - 1], f);
      CountAppend(CsvLines(init, f), CsvRow(rows[|rows| - 1], f), '\n');
    }
  }

  /**
   * A description with a line break is not quoted, so it splits its row: the
   * CSV has more lines than rows.
   */
  lemma LineBreakSplitsRow(x: Transaction, f: Formats)
    requires x.description == Some("a\nb")
    ensures EscapeCommas(x.description) == "a\nb"
    ensures !SingleLine(x, f)
  {
    assert ',' !in "a\nb";
    assert CsvFields(x, f)[1] == "a\nb";
    assert "a\nb"[1] == '\n';
  }

  // ---------------------------------------------------------------- JSON

  /** The seven members of one transaction's object, each on its own line. */
  function JsonBlock(x: Transaction, f: Formats): string
  {
    "  {\n"
    + "    \"date\": \"" + f.isoDate(x.timestamp) + "\",\n"
    + "    \"description\": \"" + EscapeJson(x.description) + "\",\n"
    + "    \"amount\": " + f.plainAmount(x.amount) + ",\n"
    + "    \"type\": \"" + Shown(x.transactionType) + "\",\n"
    + "    \"category\": \"" + CategoryShown(x) + "\",\n"
    + "    \"status\": \"" + x.status + "\",\n"
    + "    \"reference\": \"" + Shown(x.referenceNumber) + "\"\n"
    + "  }"
  }

  function JsonBlockOf(f: Formats): Transaction -> string
  {
    (x: Transaction) => JsonBlock(x, f)
  }

  /** Each transaction's object, in row order. */
  function Blocks(rows: seq<Transaction>, block: Transaction -> string): (bs: seq<string>)
    ensures |bs| == |rows| && forall k :: 0 <= k < |rows| ==> bs[k] == block(rows[k])
  {
    seq(|rows|, k requires 0 <= k < |rows| => block(rows[k]))
  }

  /** What the loop appends for the object at `i`: a comma after every object but the last. */
  function JsonItem(bs: seq<string>, i: nat): string
    requires i < |bs|
  {
    bs[i] + (if i < |bs| - 1 then "," else "") + "\n"
  }

  /** The objects `0 .. i-1` as the loop appends them. */
  function JsonItems(bs: seq<string>, i: nat): string
    requires i <= |bs|
  {
    if i == 0 then [] else JsonItems(bs, i - 1) + JsonItem(bs, i - 1)
  }

  /** The array the loop writes around the given objects. */
  function JsonArray(bs: seq<string>): string
  {
    "[\n" + JsonItems(bs, |bs|) + "]"
  }

  function JsonDocument(rows: seq<Transaction>, f: Formats): string
  {
    JsonArray(Blocks(rows, JsonBlockOf(f)))
  }

  /** `exportToJson`: opens the array, appends each transaction's object, closes the array. */
  method ExportToJson(rows: seq<Transaction>, f: Formats) returns (out: string)
    ensures out == JsonDocument(rows, f)
  {
    out := WriteJsonArray(rows, JsonBlockOf(f));
  }

  /** The loop of `exportToJson`, for any way of printing one object. */
  method WriteJsonArray(rows: seq<Transaction>, block: Transaction -> string) returns (out: string)
    ensures out == JsonArray(Blocks(rows, block))
  {
    ghost var bs := Blocks(rows, block);
    out := "[\n";
    var i := 0;
    while i < |rows|
      invariant 0 <= i <= |rows|
      invariant out == "[\n" + JsonItems(bs, i)
    {
      out := out + block(rows[i]);
      if i < |rows| - 1 {
        out := out + ",";
      }
      out := out + "\n";
      i := i + 1;
    }
    out := out + "]";
  }

  /** The parts joined with `sep` between neighbours. */
  function Join(parts: seq<string>, sep: string): string
  {
    if |parts| == 0 then []
    else if |parts| == 1 then parts[0]
    else Join(parts[..|parts| - 1], sep) + sep + parts[|parts| - 1]
  }

  /** A character in neither the separator nor any part is not in the joined text. */
  lemma {:induction false} JoinAvoids(parts: seq<string>, sep: string, c: char)
    requires c !in sep && forall p :: p in parts ==> c !in p
    ensures c !in Join(parts, sep)
  {
    if |parts| > 1 {
      var init := parts[..|parts| - 1];
      assert forall p :: p in init ==> p in parts;
      JoinAvoids(init, sep, c);
      assert parts[|parts| - 1] in parts;
    } else if |parts| == 1 {
      assert parts[0] in parts;
    }
  }

  lemma {:induction false} JsonItemsJoin(bs: seq<string>, i: nat)
    requires 0 < i <= |bs|
    ensures JsonItems(bs, i) == Join(bs[..i], ",\n") + (if i < |bs| then ",\n" else "\n")
  {
    var last := JsonItem(bs, i - 1);
    assert JsonItems(bs, i) == JsonItems(bs, i - 1) + last;
    assert last == bs[i - 1] + (if i < |bs| then ",\n" else "\n");
    if i == 1 {
      assert bs[..1] == [bs[0]];
      assert Join(bs[..1], ",\n") == bs[0];
    } else {
      JsonItemsJoin(bs, i - 1);
      assert bs[..i][..i - 1] == bs[..i - 1];
      assert bs[..i][i - 1] == bs[i - 1];
      assert Join(bs[..i], ",\n") == Join(bs[..i - 1], ",\n") + ",\n" + bs[i - 1];
    }
  }

  /**
   * The document is a JSON array of the objects in row order: commas only
   * between neighbouring objects, none after the last.
   */
  lemma JsonArrayJoins(bs: seq<string>)
    ensures JsonArray(bs) == if bs == [] then "[\n]" else "[\n" + Join(bs, ",\n") + "\n]"
  {
    if bs != [] {
      JsonItemsJoin(bs, |bs|);
      assert bs[..|bs|] == bs;
    }
  }

  // ---------------------------------------------------------------- export

  /**
   * `exportTransactions`: the account's transactions in the period, newest
   * first, as CSV when the format is `csv` in any letter case and as JSON
   * otherwise. Fails for an unknown account.
   */
  method ExportTransactions(accounts: map<int, Account>, ts: seq<Transaction>, accountId: int,
                            startDate: Option<Instant>, endDate: Option<Instant>, format: Option<string>,
                            f: Formats)
    returns (r: Result<string>)
    ensures accountId !in accounts ==> r == Err("Account not found")
    ensures accountId in accounts && IsCsv(format) ==>
              r == Ok(CsvDocument(FindTransactionsForExport(ts, accountId, startDate, endDate), f))
    ensures accountId in accounts && !IsCsv(format) ==>
              r == Ok(JsonDocument(FindTransactionsForExport(ts, accountId, startDate, endDate), f))
  {
    if accountId !in accounts {
      return Err("Account not found");
    }
    var rows := FindTransactionsForExport(ts, accountId, startDate, endDate);
    var out;
    if IsCsv(format) {
      out := ExportToCsv(rows, f);
    } else {
      out := ExportToJson(rows, f);
    }
    r := Ok(out);
  }

  /** `"csv".equalsIgnoreCase(format)` */
  predicate IsCsv(format: Option<string>)
  {
    format.Some? && Text.ToLower(format.value) == "csv"
  }
}
