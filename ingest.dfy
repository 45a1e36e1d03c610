/**
 * Transaction import from an uploaded sheet: the file-type check and the
 * header normalisation, the schema check with its preview result, the
 * best-effort type coercion of the date, amount and direction columns, and
 * the mapping of coerced rows to new (unsaved) transactions.
 *
 * A sheet arrives already parsed: its header list and its rows, each row a
 * map from a normalised header to the cell's text, a header missing from
 * the row standing for an empty cell (pandas' NaN). How dates are read
 * (pandas' own inference) is the `parseDate` parameter.
 */
module Ingest {
  import opened Wrappers
  import opened Strings
  import opened Dates
  import opened Money

  const RequiredCols: set<string> := {"date", "description", "amount"}
  const OptionalCols: set<string> := {"direction", "category", "subcategory", "account", "source"}

  // ---------------------------------------------------------------- reading

  /** The file name names a sheet the importer reads: `.csv` or `.xlsx`, compared lower-cased. */
  predicate ReadableName(filename: string) {
    EndsWith(Lower(filename), ".csv") || EndsWith(Lower(filename), ".xlsx")
  }

  /** A header as the importer keeps it: stripped, then lower-cased. */
  function NormaliseHeader(h: string): (r: string)
    ensures |r| <= |h|
    ensures forall i :: 0 <= i < |r| ==> !IsUpper(r[i])
  {
    Lower(Strip(h))
  }

  /** `_read_any`: the normalised headers, or the ValueError for an unsupported name. */
  function ReadAny(filename: string, headers: seq<string>): (r: Result<seq<string>, string>)
    ensures r.Ok? <==> ReadableName(filename)
    ensures r.Err? ==> r.error == "Unsupported file type (expected .csv or .xlsx)"
  {
    if ReadableName(filename) then Ok(seq(|headers|, i requires 0 <= i < |headers| => NormaliseHeader(headers[i])))
    else Err("Unsupported file type (expected .csv or .xlsx)")
  }

  /** A readable sheet keeps one header per column, each normalised. */
  lemma ReadAnyNormalises(filename: string, headers: seq<string>)
    requires ReadableName(filename)
    ensures var cols := ReadAny(filename, headers).value;
      |cols| == |headers| && forall i :: 0 <= i < |headers| ==> cols[i] == NormaliseHeader(headers[i])
  {
  }

  /** Normalising twice changes nothing more. */
  lemma NormaliseHeaderIdempotent(h: string)
    ensures NormaliseHeader(NormaliseHeader(h)) == NormaliseHeader(h)
  {
    var l := NormaliseHeader(h);
    assert l == [] || (!IsSpace(l[0]) && !IsSpace(l[|l| - 1]));
    StripFixesStripped(l);
    assert Lower(l) == l;
  }

  // ---------------------------------------------------------------- schema

  /** The required columns absent from the frame, sorted. */
  function Missing(columns: seq<string>): seq<string> {
    (if "amount" !in columns then ["amount"] else [])
    + (if "date" !in columns then ["date"] else [])
    + (if "description" !in columns then ["description"] else [])
  }

  /** The missing list names exactly the required columns the frame lacks, in ascending order. */
  lemma MissingIsSortedDifference(columns: seq<string>)
    ensures forall c :: c in Missing(columns) <==> c in RequiredCols && c !in columns
    ensures var m := Missing(columns); forall i, j :: 0 <= i < j < |m| ==> LexLess(m[i], m[j])
  {
    assert LexLess("amount", "date") && LexLess("amount", "description") && LexLess("date", "description");
  }

  /** The columns outside the required and optional ones, in frame order. */
  function Extras(columns: seq<string>): seq<string> {
    if columns == [] then []
    else
      var last := columns[|columns| - 1];
      Extras(columns[..|columns| - 1]) + (if last in RequiredCols + OptionalCols then [] else [last])
  }

  /** The extras are exactly the frame's columns that are neither required nor optional. */
  lemma {:induction false} ExtrasAreUnknown(columns: seq<string>)
    ensures forall c :: c in Extras(columns) <==> c in columns && c !in RequiredCols + OptionalCols
    ensures |Extras(columns)| <= |columns|
  {
    if columns != [] {
      var init := columns[..|columns| - 1];
      ExtrasAreUnknown(init);
      assert columns == init + [columns[|columns| - 1]];
    }
  }

  function MissingMessage(missing: seq<string>): string {
    "Missing required columns: " + Join(missing, ", ")
  }

  /** The warning naming ignored columns: the first ten, then " ..." when there are more. */
  function ExtrasWarning(extras: seq<string>): (w: string)
    ensures |extras| > 10 ==> EndsWith(w, " ...")
  {
    var shown := if |extras| <= 10 then extras else extras[..10];
    var w := "Ignored unrecognised columns: " + Join(shown, ", ") + (if |extras| > 10 then " ..." else "");
    assert |extras| > 10 ==> w[|w| - 4..] == " ...";
    w
  }

  // ---------------------------------------------------------------- coercion

  /** A cell as a row lookup returns it: the column is absent, the cell is empty (NaN), or it holds text. */
  datatype Cell = Absent | NaN | Text(s: string)

  /** A parsed sheet: normalised headers and rows keyed by them. */
  datatype Frame = Frame(columns: seq<string>, rows: seq<map<string, string>>)

  function CellOf(columns: seq<string>, row: map<string, string>, col: string): (c: Cell)
    ensures c.Absent? <==> col !in columns
    ensures c.Text? ==> col in row && c.s == row[col]
  {
    if col !in columns then Absent else if col in row then Text(row[col]) else NaN
  }

  /** A row after `_coerce_types`: a date or NaT, an amount or NaN, and the text columns. */
  datatype TypedRow = TypedRow(
    date: Option<CalDate>,
    amount: Option<real>,
    direction: Cell,
    description: Cell,
    category: Cell,
    subcategory: Cell,
    account: Cell,
    source: Cell)

  /** The amount column's reading: commas and pound signs removed, stripped, then read as a number. */
  function CoerceAmount(c: Cell): (a: Option<real>)
    ensures c.Text? ==> a == ParseDecimal(CleanAmount(c.s))
    ensures !c.Text? ==> a.None?
  {
    if c.Text? then ParseDecimal(CleanAmount(c.s)) else None
  }

  /**
   * An amount cell as the application itself renders money, `£{:,.2f}`, is
   * read back as that amount: the thousands separators and the symbol are
   * dropped, the sign kept.
   */
  lemma CoerceReadsRendered(p: int)
    ensures CoerceAmount(Text("£" + FormatPence(p))) == Some(Pence(p))
  {
    FormatThenCleanRoundTrip(p);
  }

  /** The inferred direction: inflow exactly when the amount is present and not negative. */
  function InferredDirection(amount: Option<real>): (d: string)
    ensures d == "inflow" <==> amount.Some? && amount.value >= 0.0
    ensures d == "inflow" || d == "outflow"
  {
    if amount.Some? && amount.value >= 0.0 then "inflow" else "outflow"
  }

  /** One row through `_coerce_types`. The direction is inferred only when the frame has no direction column but has an amount column. */
  function CoerceRow(columns: seq<string>, row: map<string, string>, parseDate: string -> Option<CalDate>): (t: TypedRow)
    ensures "direction" !in columns && "amount" in columns ==> t.direction == Text(InferredDirection(t.amount))
    ensures "direction" in columns ==> t.direction == CellOf(columns, row, "direction")
  {
    var date := CellOf(columns, row, "date");
    var amount := CoerceAmount(CellOf(columns, row, "amount"));
    TypedRow(
      if date.Text? then parseDate(date.s) else None,
      amount,
      if "direction" !in columns && "amount" in columns then Text(InferredDirection(amount)) else CellOf(columns, row, "direction"),
      CellOf(columns, row, "description"),
      CellOf(columns, row, "category"),
      CellOf(columns, row, "subcategory"),
      CellOf(columns, row, "account"),
      CellOf(columns, row, "source"))
  }

  /** Every row coerced, in order. */
  function Coerced(columns: seq<string>, rows: seq<map<string, string>>, parseDate: string -> Option<CalDate>): (typed: seq<TypedRow>)
    ensures |typed| == |rows|
  {
    if rows == [] then [] else Coerced(columns, rows[..|rows| - 1], parseDate) + [CoerceRow(columns, rows[|rows| - 1], parseDate)]
  }

  /** The coerced rows hold each row's coercion at its own position. */
  lemma {:induction false} CoercedAt(columns: seq<string>, rows: seq<map<string, string>>, parseDate: string -> Option<CalDate>, k: int)
    requires 0 <= k < |rows|
    ensures Coerced(columns, rows, parseDate)[k] == CoerceRow(columns, rows[k], parseDate)
  {
    if k < |rows| - 1 {
      CoercedAt(columns, rows[..|rows| - 1], parseDate, k);
    }
  }

  const DateWarning: string := "Some rows have invalid dates and were set to NaT."
  const AmountWarning: string := "Some rows have invalid amounts and were set to NaN."

  /** Some coerced row lacks a date. */
  predicate AnyDateMissing(typed: seq<TypedRow>) {
    typed != [] && (AnyDateMissing(typed[..|typed| - 1]) || typed[|typed| - 1].date.None?)
  }

  /** Some coerced row lacks an amount. */
  predicate AnyAmountMissing(typed: seq<TypedRow>) {
    typed != [] && (AnyAmountMissing(typed[..|typed| - 1]) || typed[|typed| - 1].amount.None?)
  }

  /** The flags hold exactly when some row lacks the value: `isna().any()`. */
  lemma {:induction false} AnyMissingIff(typed: seq<TypedRow>)
    ensures AnyDateMissing(typed) <==> exists i :: 0 <= i < |typed| && typed[i].date.None?
    ensures AnyAmountMissing(typed) <==> exists i :: 0 <= i < |typed| && typed[i].amount.None?
  {
    if typed != [] {
      var init := typed[..|typed| - 1];
      AnyMissingIff(init);
      assert forall i :: 0 <= i < |init| ==> init[i] == typed[i];
    }
  }

  /** The coercion warnings: one for dates and one for amounts, each only when its column exists and some row lacks a value. */
  function CoerceWarnings(columns: seq<string>, typed: seq<TypedRow>): seq<string> {
    (if "date" in columns && AnyDateMissing(typed) then [DateWarning] else [])
    + (if "amount" in columns && AnyAmountMissing(typed) then [AmountWarning] else [])
  }

  /** `_coerce_types`: the rows coerced one by one, then a warning for each column in which some value could not be read. */
  method CoerceTypes(frame: Frame, parseDate: string -> Option<CalDate>) returns (typed: seq<TypedRow>, warnings: seq<string>)
    ensures typed == Coerced(frame.columns, frame.rows, parseDate)
    ensures warnings == CoerceWarnings(frame.columns, typed)
  {
    typed := [];
    for i := 0 to |frame.rows|
      invariant typed == Coerced(frame.columns, frame.rows[..i], parseDate)
    {
      assert frame.rows[..i + 1][..i] == frame.rows[..i];
      typed := typed + [CoerceRow(frame.columns, frame.rows[i], parseDate)];
    }
    assert frame.rows[..|frame.rows|] == frame.rows;
    warnings := [];
    if "date" in frame.columns && AnyDateMissing(typed) {
      warnings := warnings + [DateWarning];
    }
    if "amount" in frame.columns && AnyAmountMissing(typed) {
      warnings := warnings + [AmountWarning];
    }
  }

  // ---------------------------------------------------------------- preview

  /** What `validate_and_preview` returns, less the rendered HTML table. */
  datatype Preview = Preview(ok: bool, errors: seq<string>, warnings: seq<string>, rowCount: nat, cols: seq<string>)

  /**
   * `validate_and_preview`: the ValueError of an unsupported name (Err);
   * for missing required columns a failed preview with one error and no
   * rows; otherwise a preview of every row, with the coercion warnings and
   * then the ignored-columns warning.
   */
  method ValidateAndPreview(filename: string, headers: seq<string>, rows: seq<map<string, string>>,
                            parseDate: string -> Option<CalDate>) returns (r: Result<Preview, string>)
    ensures r.Err? <==> !ReadableName(filename)
    ensures r.Ok? ==> var cols := ReadAny(filename, headers).value;
      r.value.cols == cols
      && (r.value.ok <==> Missing(cols) == [])
      && (!r.value.ok ==> r.value.errors == [MissingMessage(Missing(cols))] && r.value.warnings == [] && r.value.rowCount == 0)
      && (r.value.ok ==>
            r.value.errors == [] && r.value.rowCount == |rows|
            && r.value.warnings == CoerceWarnings(cols, Coerced(cols, rows, parseDate))
                                   + (if Extras(cols) == [] then [] else [ExtrasWarning(Extras(cols))]))
  {
    var read := ReadAny(filename, headers);
    if read.Err? {
      return Err(read.error);
    }
    var cols := read.value;
    var missing := Missing(cols);
    var extras := Extras(cols);
    if missing != [] {
      return Ok(Preview(false, [MissingMessage(missing)], [], 0, cols));
    }
    var typed, warnings := CoerceTypes(Frame(cols, rows), parseDate);
    if extras != [] {
      warnings := warnings + [ExtrasWarning(extras)];
    }
    r := Ok(Preview(true, [], warnings, |rows|, cols));
  }

  /** A sheet with every required column passes the schema check, whatever else it has. */
  lemma RequiredColumnsSuffice(cols: seq<string>)
    requires "date" in cols && "description" in cols && "amount" in cols
    ensures Missing(cols) == []
  {
  }

  // ---------------------------------------------------------------- rows to transactions

  /** A transaction built from an import or a manual entry, before it is saved. */
  datatype NewTransaction = NewTransaction(
    user: nat,
    date: CalDate,
    description: string,
    amount: real,
    direction: string,
    category: string,
    subcategory: string,
    account: string,
    source: string)

  /**
   * `cell or default` on a row lookup: an absent column or empty text gives
   * the default, while an empty cell (NaN, which Python treats as true) is
   * kept and stored as the text "nan".
   */
  function OrElse(c: Cell, default: string): (s: string)
    ensures c.Text? && c.s != "" ==> s == c.s
    ensures c.Absent? || c == Text("") ==> s == default
    ensures c.NaN? ==> s == "nan"
  {
    match c
    case Absent => default
    case NaN => "nan"
    case Text(s) => if s == "" then default else s
  }

  /** One row as a transaction, or None when its amount or date is missing. */
  function RowTransaction(t: TypedRow, user: nat): (r: Option<NewTransaction>)
    ensures r.Some? <==> t.amount.Some? && t.date.Some?
    ensures r.Some? ==>
      r.value.amount == Abs(t.amount.value) && r.value.date == t.date.value
      && |r.value.description| <= 512 && r.value.user == user
  {
    if t.amount.None? || t.date.None? then None
    else
      var amount := t.amount.value;
      Some(NewTransaction(
        user,
        t.date.value,
        Take(OrElse(t.description, ""), 512),
        Abs(amount),
        OrElse(t.direction, if amount >= 0.0 then "inflow" else "outflow"),
        OrElse(t.category, ""),
        OrElse(t.subcategory, ""),
        OrElse(t.account, ""),
        OrElse(t.source, "csv")))
  }

  /** The transactions of a coerced frame: one per row with an amount and a date, in row order. */
  function Transactions(typed: seq<TypedRow>, user: nat): (txns: seq<NewTransaction>)
    ensures |txns| <= |typed|
  {
    if typed == [] then []
    else
      var r := RowTransaction(typed[|typed| - 1], user);
      Transactions(typed[..|typed| - 1], user) + (if r.Some? then [r.value] else [])
  }

  /** `dataframe_to_transactions`: the rows loop, skipping rows without an amount or a date. */
  method DataframeToTransactions(typed: seq<TypedRow>, user: nat) returns (txns: seq<NewTransaction>)
    ensures txns == Transactions(typed, user)
  {
    txns := [];
    for i := 0 to |typed|
      invariant txns == Transactions(typed[..i], user)
    {
      assert typed[..i + 1][..i] == typed[..i];
      var r := RowTransaction(typed[i], user);
      if r.Some? {
        txns := txns + [r.value];
      }
    }
    assert typed[..|typed|] == typed;
  }

  /** Rows with both an amount and a date. */
  function Complete(typed: seq<TypedRow>): nat {
    if typed == [] then 0
    else
      var t := typed[|typed| - 1];
      Complete(typed[..|typed| - 1]) + (if t.amount.Some? && t.date.Some? then 1 else 0)
  }

  /**
   * Every imported transaction stores a non-negative amount, a description
   * of at most 512 characters and a source, and there is exactly one per
   * complete row.
   */
  lemma {:induction false} TransactionsWellFormed(typed: seq<TypedRow>, user: nat)
    ensures |Transactions(typed, user)| == Complete(typed)
    ensures forall i :: 0 <= i < |Transactions(typed, user)| ==>
      var t := Transactions(typed, user)[i];
      t.amount >= 0.0 && |t.description| <= 512 && t.source != "" && t.user == user
  {
    if typed != [] {
      TransactionsWellFormed(typed[..|typed| - 1], user);
    }
  }

  /**
   * Without a direction column, a row that reaches the transactions gets
   * the direction of its amount's sign, whichever of the two places
   * (coercion or the rows loop) infers it.
   */
  lemma InferredDirectionAgrees(columns: seq<string>, row: map<string, string>, parseDate: string -> Option<CalDate>, user: nat)
    requires "direction" !in columns
    requires RowTransaction(CoerceRow(columns, row, parseDate), user).Some?
    ensures var t := RowTransaction(CoerceRow(columns, row, parseDate), user).value;
      var x := CoerceRow(columns, row, parseDate).amount.value;
      t.direction == (if x >= 0.0 then "inflow" else "outflow")
  {
  }
}
