/**
 * The ledger views' input handling: the manual add-transaction form (each
 * field checked, every error collected, the transaction built only when
 * there are none), the dashboard's frequency and day-window parameters,
 * and the transaction list's search, direction filter and ordering.
 *
 * A form field absent from the post reads as the empty string; for the
 * direction and the source that is what the view's own defaults amount to.
 */
module WebViews {
  import opened Wrappers
  import opened Strings
  import opened Dates
  import opened Money
  import opened Ledger
  import opened Ingest

  // ---------------------------------------------------------------- add_tx

  /** The posted add-transaction fields, as sent. */
  datatype TxForm = TxForm(
    date: string,
    description: string,
    amount: string,
    direction: string,
    category: string,
    subcategory: string,
    account: string,
    source: string)

  /** `date.fromisoformat` on a date: exactly `YYYY-MM-DD`. */
  function FromIsoFormat(s: string): (r: Option<CalDate>)
    ensures r.Some? ==> |s| == 10 && s[4] == '-' && s[7] == '-'
  {
    if |s| == 10 && s[4] == '-' && s[7] == '-' then ParseIso(s) else None
  }

  /** `strptime(s, '%d/%m/%Y')`: a day and a month of one or two digits, then four year digits. */
  function DayMonthYear(s: string): (r: Option<CalDate>)
    ensures r.Some? ==> '/' in s
  {
    var parts := Split(s, '/');
    if |parts| != 3 then None
    else
      var d, m, y := parts[0], parts[1], parts[2];
      if 1 <= |d| <= 2 && AllDigits(d) && 1 <= |m| <= 2 && AllDigits(m) && |y| == 4 && AllDigits(y) then
        var date := Date(DigitsValue(y), DigitsValue(m), DigitsValue(d));
        if 1 <= date.year && Valid(date) then
          assert |parts| > 1;
          var valid: CalDate := date;
          Some(valid)
        else None
      else None
  }

  /**
   * The entry date: a date is read exactly when one of the two readings
   * succeeds; the ISO reading wins when both do.
   */
  function EntryDate(s: string): (r: Option<CalDate>)
    ensures r.Some? <==> FromIsoFormat(s).Some? || DayMonthYear(s).Some?
    ensures r.Some? ==> r == FromIsoFormat(s) || r == DayMonthYear(s)
    ensures FromIsoFormat(s).Some? ==> r == FromIsoFormat(s)
    ensures r.Some? ==> (|s| == 10 && s[4] == '-' && s[7] == '-') || '/' in s
  {
    var iso := FromIsoFormat(s);
    if iso.Some? then iso else DayMonthYear(s)
  }

  /** The stripped amount text as read: `Decimal` of the text with commas and pound signs removed. */
  function EntryAmount(amount: string): Option<real> {
    ParseDecimal(CleanAmount(amount))
  }

  /** The direction the entry ends with: inferred from the amount's sign when none is given (inflow when the amount is unreadable). */
  function EntryDirection(direction: string, amount: Option<real>): (d: string)
    ensures direction != "" ==> d == direction
    ensures direction == "" ==> (d == "inflow" <==> amount.None? || amount.value >= 0.0)
  {
    if direction != "" then direction
    else if amount.Some? then (if amount.value >= 0.0 then "inflow" else "outflow")
    else "inflow"
  }

  /** The add-transaction errors, in the order the view checks for them. */
  datatype EntryError = DateRequired | DateInvalid | DescriptionRequired | AmountRequired | AmountInvalid | DirectionInvalid

  /** The message the view reports for each error. */
  function Message(e: EntryError): string {
    match e
    case DateRequired => "Date is required for a transaction."
    case DateInvalid => "Invalid date format \U{2014} use YYYY-MM-DD."
    case DescriptionRequired => "Description is required."
    case AmountRequired => "Amount is required."
    case AmountInvalid => "Invalid amount value."
    case DirectionInvalid => "Invalid direction selected."
  }

  function DateErrors(date: string): seq<EntryError> {
    if date == "" then [DateRequired] else if EntryDate(date).None? then [DateInvalid] else []
  }

  function DescriptionErrors(description: string): seq<EntryError> {
    if description == "" then [DescriptionRequired] else []
  }

  function AmountErrors(amount: string): seq<EntryError> {
    if amount == "" then [AmountRequired] else if EntryAmount(amount).None? then [AmountInvalid] else []
  }

  function DirectionErrors(direction: string): seq<EntryError> {
    if direction != "" && ParseDirection(direction).None? then [DirectionInvalid] else []
  }

  /** The errors of an entry, in the order the view checks the fields. */
  function EntryErrors(form: TxForm): seq<EntryError> {
    DateErrors(Strip(form.date)) + DescriptionErrors(Strip(form.description))
    + AmountErrors(Strip(form.amount)) + DirectionErrors(form.direction)
  }

  /** An entry is accepted exactly when every field checks out. */
  lemma EntryErrorsNoneIff(form: TxForm)
    ensures EntryErrors(form) == [] <==>
      EntryDate(Strip(form.date)).Some? && Strip(form.description) != ""
      && Strip(form.amount) != "" && EntryAmount(Strip(form.amount)).Some?
      && (form.direction == "" || form.direction == "inflow" || form.direction == "outflow")
  {
  }

  /** The transaction an accepted entry creates. */
  function Created(form: TxForm, user: nat, username: string): NewTransaction
    requires EntryErrors(form) == []
  {
    EntryErrorsNoneIff(form);
    var amount := EntryAmount(Strip(form.amount)).value;
    var account, source := Strip(form.account), Strip(form.source);
    NewTransaction(
      user,
      EntryDate(Strip(form.date)).value,
      Take(Strip(form.description), 512),
      Abs(amount),
      EntryDirection(form.direction, Some(amount)),
      Strip(form.category),
      Strip(form.subcategory),
      if account == "" then username else account,
      if source == "" then "manual" else source)
  }

  /**
   * A created transaction stores the magnitude of the amount with the
   * direction carrying the sign (from the form, else from the amount), a
   * description of at most 512 characters, a non-empty source and account
   * defaulting to `manual` and the user name.
   */
  lemma CreatedWellFormed(form: TxForm, user: nat, username: string)
    requires EntryErrors(form) == []
    ensures var t := Created(form, user, username);
      var x := EntryAmount(Strip(form.amount)).value;
      t.amount >= 0.0 && (t.amount == x || t.amount == -x)
      && (t.direction == "inflow" || t.direction == "outflow")
      && (form.direction == "" ==> (t.direction == "inflow" <==> x >= 0.0))
      && |t.description| <= 512 && StartsWith(Strip(form.description), t.description)
      && t.source != "" && (username != "" ==> t.account != "")
  {
    EntryErrorsNoneIff(form);
  }

  /**
   * The `add_tx` branch: the fields stripped (not the direction), the
   * account defaulting to the user name, each check appending its error;
   * with any error nothing is created and all of them come back together.
   */
  method AddTx(form: TxForm, user: nat, username: string) returns (r: Result<NewTransaction, seq<EntryError>>)
    ensures r.Err? <==> EntryErrors(form) != []
    ensures r.Err? ==> r.error == EntryErrors(form)
    ensures r.Ok? ==> r.value == Created(form, user, username)
  {
    var description, account := Strip(form.description), Strip(form.account);
    if account == "" {
      account := username;
    }
    var txDate, errors := CheckDate(Strip(form.date));
    if description == "" {
      errors := errors + [DescriptionRequired];
    }
    assert errors == DateErrors(Strip(form.date)) + DescriptionErrors(description);
    var txAmount, amountErrors := CheckAmount(Strip(form.amount));
    errors := errors + amountErrors;
    var direction := form.direction;
    var directionErrors: seq<EntryError> := [];
    if direction == "" {
      direction := EntryDirection(direction, txAmount);
    } else if ParseDirection(direction).None? {
      directionErrors := [DirectionInvalid];
    }
    assert directionErrors == DirectionErrors(form.direction);
    errors := errors + directionErrors;
    if errors != [] {
      return Err(errors);
    }
    var source := Strip(form.source);
    r := Ok(NewTransaction(user, txDate.value, Take(description, 512), Abs(txAmount.value), direction,
                           Strip(form.category), Strip(form.subcategory), account,
                           if source == "" then "manual" else source));
  }

  /** The date check of `add_tx`: required, then ISO or day/month/year. */
  method CheckDate(dateText: string) returns (date: Option<CalDate>, errors: seq<EntryError>)
    ensures errors == DateErrors(dateText)
    ensures errors == [] ==> date.Some? && date == EntryDate(dateText)
  {
    date, errors := None, [];
    if dateText == "" {
      errors := errors + [DateRequired];
    } else {
      date := EntryDate(dateText);
      if date.None? {
        errors := errors + [DateInvalid];
      }
    }
  }

  /** The amount check of `add_tx`: required, then read after cleaning. */
  method CheckAmount(amountText: string) returns (amount: Option<real>, errors: seq<EntryError>)
    ensures errors == AmountErrors(amountText)
    ensures errors == [] <==> amount.Some?
    ensures amount.Some? ==> amount == EntryAmount(amountText)
  {
    amount, errors := None, [];
    if amountText == "" {
      errors := errors + [AmountRequired];
    } else {
      amount := EntryAmount(amountText);
      if amount.None? {
        errors := errors + [AmountInvalid];
      }
    }
  }

  // ---------------------------------------------------------------- dashboard_view

  /** The chart frequency: the parameter upper-cased (D by default); anything but D, W or M becomes D. */
  function Frequency(freq: Option<string>): (f: string)
    ensures f == "D" || f == "W" || f == "M"
    ensures freq.Some? && Upper(freq.value) in {"D", "W", "M"} ==> f == Upper(freq.value)
  {
    var u := Upper(freq.GetOr("D"));
    if u in {"D", "W", "M"} then u else "D"
  }

  /** A frequency chosen once is kept when passed again. */
  lemma FrequencyStable(freq: Option<string>)
    ensures Frequency(Some(Frequency(freq))) == Frequency(freq)
  {
    var f := Frequency(freq);
    assert Upper(f) == f;
  }

  /** The `days` window: when the parameter is all digits, the date that many days before today. */
  function Since(days: Option<string>, today: CalDate): (r: Option<CalDate>)
    ensures r.Some? <==> days.Some? && days.value != "" && AllDigits(days.value)
    ensures r.Some? ==> ToDays(r.value) == ToDays(today) - DigitsValue(days.value) && !Before(today, r.value)
  {
    if days.Some? && days.value != "" && AllDigits(days.value) then
      var n: int := DigitsValue(days.value);
      var since := AddDays(today, -n);
      BeforeIffFewerDays(today, since);
      Some(since)
    else None
  }

  // ---------------------------------------------------------------- transactions_view

  /** `s.lstrip('-')`: every leading dash removed. */
  function TrimDashes(s: string): (r: string)
    ensures r == [] || r[0] != '-'
    ensures |r| <= |s| && r == s[|s| - |r|..]
  {
    if s != [] && s[0] == '-' then TrimDashes(s[1..]) else s
  }

  /** The orderings the list can be sorted by. */
  const Orderings: set<string> := {"date", "-date", "amount", "-amount"}

  /**
   * The ordering as written: the requested one whenever it is a sort field
   * after every leading dash is stripped, else the default newest first.
   */
  function OrderingAsWritten(sort: string): string {
    if sort != "" && TrimDashes(sort) in {"date", "amount"} then sort else "-date"
  }

  /** Two leading dashes pass the guard and reach the ordering, which no field ordering is. */
  lemma DoubleDashPassesGuard(field: string)
    requires field == "date" || field == "amount"
    ensures OrderingAsWritten("--" + field) == "--" + field
    ensures "--" + field !in Orderings
  {
    var once := ['-'] + field;
    var twice := ['-'] + once;
    assert field[0] != '-';
    assert TrimDashes(field) == field;
    assert once[1..] == field;
    assert TrimDashes(once) == field;
    assert twice[1..] == once;
    assert TrimDashes(twice) == field;
    assert "--" + field == twice;
    assert |twice| == |field| + 2;
  }

  /** The ordering the guard evidently intends: the requested one when it names a field, with at most one dash. */
  function Ordering(sort: string): (o: string)
    ensures o in Orderings
    ensures sort in Orderings ==> o == sort
    ensures sort !in Orderings ==> o == "-date"
  {
    if sort in Orderings then sort else "-date"
  }

  /** Where the guard as written picks a valid ordering, the corrected one picks the same. */
  lemma OrderingAgreesOnValid(sort: string)
    requires OrderingAsWritten(sort) in Orderings
    ensures Ordering(sort) == OrderingAsWritten(sort)
  {
  }

  /** The list's direction filter: only `inflow` or `outflow` (after stripping) filters. */
  function DirectionFilter(direction: string): (d: Option<Direction>)
    ensures d.Some? <==> Strip(direction) == "inflow" || Strip(direction) == "outflow"
    ensures d.Some? ==> DirectionName(d.value) == Strip(direction)
  {
    ParseDirection(Strip(direction))
  }

  /** `icontains`: case-insensitive containment. */
  predicate ContainsIgnoringCase(s: string, q: string) {
    Contains(Lower(s), Lower(q))
  }

  /** A transaction of the user that the search and the direction filter let through. */
  predicate Listed(t: Transaction, user: nat, q: string, direction: string) {
    var query := Strip(q);
    var d := DirectionFilter(direction);
    t.user == user
    && (query == "" || ContainsIgnoringCase(t.description, query) || ContainsIgnoringCase(t.category, query))
    && (d.None? || t.direction == d.value)
  }

  /** The listed transactions, in ledger order. */
  function ListTransactions(txns: seq<Transaction>, user: nat, q: string, direction: string): seq<Transaction> {
    if txns == [] then []
    else
      var t := txns[|txns| - 1];
      ListTransactions(txns[..|txns| - 1], user, q, direction) + (if Listed(t, user, q, direction) then [t] else [])
  }

  /** The list holds exactly the user's transactions that match, and no more of them than the ledger has. */
  lemma {:induction false} ListTransactionsExactly(txns: seq<Transaction>, user: nat, q: string, direction: string)
    ensures forall t :: t in ListTransactions(txns, user, q, direction) <==> t in txns && Listed(t, user, q, direction)
    ensures |ListTransactions(txns, user, q, direction)| <= |txns|
  {
    if txns != [] {
      var init := txns[..|txns| - 1];
      ListTransactionsExactly(init, user, q, direction);
      assert txns == init + [txns[|txns| - 1]];
    }
  }

  /** An empty search and an unrecognised direction leave every transaction of the user listed. */
  lemma NoFilterListsAll(t: Transaction, user: nat, direction: string)
    requires t.user == user && DirectionFilter(direction).None?
    ensures Listed(t, user, "", direction)
  {
  }
}
