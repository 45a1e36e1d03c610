/**
 * Invoices: the INV-YYYY-NNNN numbering, the totals, the payment status
 * machine, invoices built from a template and the generation of recurring
 * copies. Money amounts are integer pence; the tax rate is an exact decimal.
 */
module Invoicing {
  import opened Wrappers
  import opened Strings
  import opened Dates
  import opened Money

  datatype Status = Draft | Sent | Paid | PartiallyPaid | Overdue | Cancelled

  /**
   * A date held as its day number (ToDays of the calendar date), so that
   * `d + timedelta(days=n)` is d + n and date order is integer order.
   */
  type Day = int

  // ---------------------------------------------------------------- numbering

  function NumberPrefix(year: int): string { "INV-" + IntToString(year) + "-" }

  /** The strings of xs that start with p, in order. */
  function WithPrefix(xs: seq<string>, p: string): (r: seq<string>)
    ensures forall x :: x in r <==> x in xs && StartsWith(x, p)
  {
    if |xs| == 0 then []
    else
      assert xs == [xs[0]] + xs[1..];
      (if StartsWith(xs[0], p) then [xs[0]] else []) + WithPrefix(xs[1..], p)
  }

  /** `{n:04d}` of a nonnegative number: at least four digits, zero-padded. */
  function FormatSequence(n: nat): (s: string)
    ensures |s| >= 4 && AllDigits(s)
  {
    ZeroPaddedDigits(NatToString(n), 4);
    PadLeft(NatToString(n), 4, '0')
  }

  /** The sequence number of an invoice number: `int(number.split('-')[-1])`. */
  function Sequence(number: string): (r: Option<int>)
    ensures r.Some? ==> r.value >= 0
  {
    PyInt(LastPart(number, '-'))
  }

  /**
   * The sequence number `generate_invoice_number` chooses: one more than the
   * suffix of the greatest number of the year in string order, or 1 when the
   * year has no number yet or that suffix is not an integer.
   */
  function NextSequence(year: int, existing: seq<string>): (n: int)
    ensures n >= 1
  {
    var mine := WithPrefix(existing, NumberPrefix(year));
    if |mine| == 0 then 1
    else
      match Sequence(LexMax(mine))
      case Some(v) => v + 1
      case None => 1
  }

  /** `generate_invoice_number`, as written, with the year and the user's existing numbers as inputs. */
  function GenerateInvoiceNumber(year: int, existing: seq<string>): (r: string)
    ensures StartsWith(r, NumberPrefix(year))
  {
    var r := NumberPrefix(year) + FormatSequence(NextSequence(year, existing));
    assert r[..|NumberPrefix(year)|] == NumberPrefix(year);
    r
  }

  /** The suffix of a generated number reads back as the sequence number it was built from. */
  lemma SequenceOfNumber(year: int, n: nat)
    ensures Sequence(NumberPrefix(year) + FormatSequence(n)) == Some(n)
  {
    var w := "INV-" + IntToString(year);
    var t := FormatSequence(n);
    assert NumberPrefix(year) + t == w + ['-'] + t;
    DigitsFreeOf(t, '-');
    LastPartAfter(w, '-', t);
    PyIntOfDigits(t);
    DigitsValueZeroPadded(NatToString(n), 4);
    NatToStringRoundTrip(n);
  }

  /**
   * The number generated follows the greatest existing number of the year:
   * its suffix is one more than that number's suffix, or 1 when that suffix
   * does not parse.
   */
  lemma GeneratedFollowsGreatest(year: int, existing: seq<string>, greatest: string)
    requires greatest in existing && StartsWith(greatest, NumberPrefix(year))
    requires forall y :: y in existing && StartsWith(y, NumberPrefix(year)) ==> !LexLess(greatest, y)
    ensures Sequence(GenerateInvoiceNumber(year, existing)) ==
      Some(match Sequence(greatest) case Some(v) => v + 1 case None => 1)
  {
    var n := NextSequence(year, existing);
    NextSequenceOfGreatest(year, existing, greatest);
    SequenceOfNumber(year, n);
  }

  lemma NextSequenceOfGreatest(year: int, existing: seq<string>, greatest: string)
    requires greatest in existing && StartsWith(greatest, NumberPrefix(year))
    requires forall y :: y in existing && StartsWith(y, NumberPrefix(year)) ==> !LexLess(greatest, y)
    ensures NextSequence(year, existing) == match Sequence(greatest) case Some(v) => v + 1 case None => 1
  {
    var mine := WithPrefix(existing, NumberPrefix(year));
    assert greatest in mine;
    GreatestIsLexMax(mine, greatest);
  }

  /** A string no other of xs exceeds is their greatest. */
  lemma GreatestIsLexMax(xs: seq<string>, g: string)
    requires g in xs && forall y :: y in xs ==> !LexLess(g, y)
    ensures LexMax(xs) == g
  {
    LexLessTotal(LexMax(xs), g);
  }

  /** With no number of the year yet, the first number is INV-YYYY-0001. */
  lemma FirstNumberOfYear(year: int, existing: seq<string>)
    requires forall y :: y in existing ==> !StartsWith(y, NumberPrefix(year))
    ensures GenerateInvoiceNumber(year, existing) == NumberPrefix(year) + "0001"
  {
    assert NatToString(1) == "1";
  }

  /**
   * As written, numbering repeats itself after INV-YYYY-9999: "9999" is
   * greater than "10000" in string order, so the number generated is one
   * that already exists.
   */
  lemma NumberRepeatsAfter9999()
    ensures var existing := ["INV-2024-9999", "INV-2024-10000"];
      GenerateInvoiceNumber(2024, existing) in existing
  {
    var p := NumberPrefix(2024);
    var a, b := p + FormatSequence(9999), p + FormatSequence(10000);
    Spelled2024();
    Joined(p, FormatSequence(9999), FormatSequence(10000));
    var existing := [a, b];
    RepeatsAfter9999(p, a, b, existing);
  }

  lemma RepeatsAfter9999(p: string, a: string, b: string, existing: seq<string>)
    requires p == NumberPrefix(2024) && a == p + FormatSequence(9999) && b == p + FormatSequence(10000)
    requires FormatSequence(9999) == "9999" && FormatSequence(10000) == "10000"
    requires existing == [a, b]
    ensures GenerateInvoiceNumber(2024, existing) == b
  {
    NextAfter9999(p, a, b, existing);
  }

  lemma NextAfter9999(p: string, a: string, b: string, existing: seq<string>)
    requires p == NumberPrefix(2024) && a == p + FormatSequence(9999) && b == p + FormatSequence(10000)
    requires FormatSequence(9999) == "9999" && FormatSequence(10000) == "10000"
    requires existing == [a, b]
    ensures NextSequence(2024, existing) == 10000
  {
    BothPrefixed(p, a, b);
    NinesAfterTenThousand(p);
    GreaterOfTwo(a, b);
    SequenceOfNumber(2024, 9999);
  }

  lemma BothPrefixed(p: string, a: string, b: string)
    requires StartsWith(a, p) && StartsWith(b, p)
    ensures WithPrefix([a, b], p) == [a, b]
  {
    assert [a, b][1..] == [b];
    assert WithPrefix([b], p) == [b] by {
      assert [b][1..] == [];
    }
  }

  lemma GreaterOfTwo(a: string, b: string)
    requires !LexLess(a, b) && a != b
    ensures LexMax([a, b]) == a
  {
    var m := LexMax([a, b]);
    if m == b {
      LexLessTotal(a, b);
      assert false;
    }
  }

  /** The two numbers of the counterexample, spelled out. */
  lemma Spelled2024()
    ensures NumberPrefix(2024) == "INV-2024-"
    ensures FormatSequence(9999) == "9999" && FormatSequence(10000) == "10000"
  {
    Spelled2024Year();
    Spelled9999();
    Spelled10000();
  }

  lemma Joined(p: string, a: string, b: string)
    requires p == "INV-2024-" && a == "9999" && b == "10000"
    ensures p + a == "INV-2024-9999" && p + b == "INV-2024-10000"
  {
  }

  lemma Spelled2024Year()
    ensures NumberPrefix(2024) == "INV-2024-"
  {
    assert NatToString(2) == "2";
    assert NatToString(20) == "20";
    assert NatToString(202) == "202";
    assert NatToString(2024) == "2024";
  }

  lemma Spelled9999()
    ensures FormatSequence(9999) == "9999"
  {
    assert NatToString(9) == "9";
    assert NatToString(99) == "99";
    assert NatToString(999) == "999";
    assert NatToString(9999) == "9999";
  }

  lemma Spelled10000()
    ensures FormatSequence(10000) == "10000"
  {
    assert NatToString(1) == "1";
    assert NatToString(10) == "10";
    assert NatToString(100) == "100";
    assert NatToString(1000) == "1000";
    assert NatToString(10000) == "10000";
  }

  /** Behind a common prefix, "9999" comes after "10000" in string order. */
  lemma NinesAfterTenThousand(p: string)
    ensures !LexLess(p + "9999", p + "10000")
  {
    var a, b := p + "9999", p + "10000";
    assert a[..|p|] == b[..|p|];
    LexLessAfterCommonPrefix(a, b, |p|);
    assert a[|p|..] == "9999" && b[|p|..] == "10000";
  }

  lemma {:induction false} LexLessAfterCommonPrefix(a: string, b: string, k: nat)
    requires k <= |a| && k <= |b| && a[..k] == b[..k]
    ensures LexLess(a, b) == LexLess(a[k..], b[k..])
    decreases k
  {
    if k > 0 {
      assert a[0] == a[..k][0] && b[0] == b[..k][0];
      assert a[1..][..k - 1] == b[1..][..k - 1];
      LexLessAfterCommonPrefix(a[1..], b[1..], k - 1);
      assert a[1..][k - 1..] == a[k..] && b[1..][k - 1..] == b[k..];
    }
  }

  /** The sequence numbers of xs, position by position. */
  function Sequences(xs: seq<string>): (r: seq<Option<int>>)
    ensures |r| == |xs|
    ensures forall k :: 0 <= k < |xs| ==> r[k] == Sequence(xs[k])
  {
    seq(|xs|, k requires 0 <= k < |xs| => Sequence(xs[k]))
  }

  /** The greatest value present among vs, 0 when none is. */
  function MaxPresent(vs: seq<Option<int>>): (m: nat)
    ensures forall k :: 0 <= k < |vs| && vs[k].Some? ==> vs[k].value <= m
    ensures m == 0 || Some(m) in vs
  {
    if |vs| == 0 then 0
    else
      var init := vs[..|vs| - 1];
      var rest := MaxPresent(init);
      var last := vs[|vs| - 1];
      assert forall k :: 0 <= k < |init| ==> init[k] == vs[k];
      assert vs == init + [last];
      if last.Some? && last.value > rest then last.value else rest
  }

  /** The greatest sequence number among xs, 0 when none parses. */
  function MaxSequence(xs: seq<string>): (m: nat)
    ensures forall k :: 0 <= k < |xs| && Sequence(xs[k]).Some? ==> Sequence(xs[k]).value <= m
  {
    MaxPresent(Sequences(xs))
  }

  /**
   * Numbering as intended: one more than the greatest sequence number of the
   * year compared as numbers, so the number generated is always new.
   */
  function GenerateFreshInvoiceNumber(year: int, existing: seq<string>): (r: string)
    ensures StartsWith(r, NumberPrefix(year))
    ensures r !in existing
  {
    var p := NumberPrefix(year);
    var n := MaxSequence(WithPrefix(existing, p)) + 1;
    var t := FormatSequence(n);
    SequenceOfNumber(year, n);
    StartsWithConcat(p, t);
    FreshFromParts(existing, p + t, p, n);
    p + t
  }

  /** A prefixed number whose sequence exceeds every sequence under that prefix is new. */
  lemma FreshFromParts(existing: seq<string>, r: string, p: string, n: int)
    requires StartsWith(r, p) && Sequence(r) == Some(n) && n > MaxSequence(WithPrefix(existing, p))
    ensures r !in existing
  {
    AboveMaxAbsent(WithPrefix(existing, p), r, n);
  }

  /** A number whose sequence exceeds the greatest one among xs is not among them. */
  lemma AboveMaxAbsent(xs: seq<string>, r: string, n: int)
    requires Sequence(r) == Some(n) && n > MaxSequence(xs)
    ensures r !in xs
  {
  }

  /** The fresh number's suffix exceeds every parsable suffix of the year, compared as numbers. */
  lemma FreshNumberExceedsAll(year: int, existing: seq<string>, x: string)
    requires x in existing && StartsWith(x, NumberPrefix(year)) && Sequence(x).Some?
    ensures Sequence(GenerateFreshInvoiceNumber(year, existing)).Some?
    ensures Sequence(x).value < Sequence(GenerateFreshInvoiceNumber(year, existing)).value
  {
    var mine := WithPrefix(existing, NumberPrefix(year));
    SequenceOfNumber(year, MaxSequence(mine) + 1);
    assert x in mine;
    var k :| 0 <= k < |mine| && mine[k] == x;
  }

  /** `generate_invoice_number(user)` at the point of creation, numbering as intended. */
  method NewInvoiceNumber(year: int, existing: seq<string>) returns (number: string)
    ensures StartsWith(number, NumberPrefix(year)) && number !in existing
  {
    number := GenerateFreshInvoiceNumber(year, existing);
  }

  // ---------------------------------------------------------------- totals

  /** A line item: description, quantity, unit price, stored amount in pence, display order. */
  datatype Item = Item(description: string, quantity: real, unitPrice: real, amount: int, order: int)

  function SumAmounts(items: seq<Item>): int {
    if |items| == 0 then 0 else SumAmounts(items[..|items| - 1]) + items[|items| - 1].amount
  }

  function SumInts(xs: seq<int>): int {
    if |xs| == 0 then 0 else SumInts(xs[..|xs| - 1]) + xs[|xs| - 1]
  }

  /** Summing two runs of items separately gives the sum of the whole. */
  lemma {:induction false} SumAmountsAppend(a: seq<Item>, b: seq<Item>)
    ensures SumAmounts(a + b) == SumAmounts(a) + SumAmounts(b)
    decreases |b|
  {
    if |b| > 0 {
      assert (a + b)[..|a + b| - 1] == a + b[..|b| - 1];
      SumAmountsAppend(a, b[..|b| - 1]);
    } else {
      assert a + b == a;
    }
  }

  /**
   * `(subtotal * tax_rate / 100).quantize(Decimal('0.01'))`, in pence: the
   * exact tax rounded to the nearest penny, ties to the even penny.
   */
  function Tax(subtotal: int, rate: real): int {
    RoundHalfEven(ExactTaxPence(subtotal, rate))
  }

  /** The exact tax in pence, before rounding. */
  function ExactTaxPence(subtotal: int, rate: real): real {
    subtotal as real * rate / 100.0
  }

  /** The tax is the exact tax within half a penny, and an exact half penny goes to the even penny. */
  lemma TaxRounded(subtotal: int, rate: real)
    ensures var exact := Pence(subtotal) * rate / 100.0;
      2.0 * Abs(exact * 100.0 - Tax(subtotal, rate) as real) <= 1.0
      && (2.0 * Abs(exact * 100.0 - Tax(subtotal, rate) as real) == 1.0 ==> Tax(subtotal, rate) % 2 == 0)
  {
    assert Pence(subtotal) * rate / 100.0 * 100.0 == subtotal as real * rate / 100.0;
  }

  lemma ExactTaxMonotone(s1: int, s2: int, rate: real)
    requires s1 <= s2 && rate >= 0.0
    ensures ExactTaxPence(s1, rate) <= ExactTaxPence(s2, rate)
  {
    var x, y := s1 as real, s2 as real;
    assert y * rate - x * rate == (y - x) * rate;
  }

  /** At a nonnegative rate a larger subtotal never carries less tax. */
  lemma TaxMonotone(s1: int, s2: int, rate: real)
    requires s1 <= s2 && rate >= 0.0
    ensures Tax(s1, rate) <= Tax(s2, rate)
  {
    ExactTaxMonotone(s1, s2, rate);
    RoundHalfEvenMonotone(ExactTaxPence(s1, rate), ExactTaxPence(s2, rate));
  }

  /** A whole-percent rate on whole pounds needs no rounding. */
  lemma TaxExactOnPounds(pounds: int, percent: int)
    ensures Tax(100 * pounds, percent as real) == pounds * percent
  {
    assert (100 * pounds) as real * percent as real / 100.0 == (pounds * percent) as real;
    RoundHalfEvenOfInteger(pounds * percent);
  }

  // ---------------------------------------------------------------- status

  /** The status `update_invoice_status` settles on, given the payments received and today's date. */
  function NextStatus(status: Status, paid: int, total: int, due: Day, sent: bool, today: Day): Status {
    if status == Cancelled then Cancelled
    else if paid >= total then Paid
    else if paid > 0 then PartiallyPaid
    else if status == Draft then Draft
    else if due < today then Overdue
    else if sent then Sent
    else status
  }

  /** The paid date after the update: set on first full payment, cleared on part payment. */
  function NextPaidDate(status: Status, paid: int, total: int, paidDate: Option<Day>, today: Day): Option<Day> {
    if status == Cancelled then paidDate
    else if paid >= total then (if paidDate.Some? then paidDate else Some(today))
    else if paid > 0 then None
    else paidDate
  }

  /** A second update with the same payments on the same day changes nothing. */
  lemma StatusUpdateIdempotent(status: Status, paid: int, total: int, due: Day, sent: bool,
                               paidDate: Option<Day>, today: Day)
    ensures var s := NextStatus(status, paid, total, due, sent, today);
      NextStatus(s, paid, total, due, sent, today) == s
    ensures var s := NextStatus(status, paid, total, due, sent, today);
      var d := NextPaidDate(status, paid, total, paidDate, today);
      NextPaidDate(s, paid, total, d, today) == d
  {
  }

  /** Cancellation is final, and nothing but a cancelled invoice ends cancelled. */
  lemma CancelledIsFinal(status: Status, paid: int, total: int, due: Day, sent: bool, today: Day)
    ensures NextStatus(status, paid, total, due, sent, today) == Cancelled <==> status == Cancelled
  {
  }

  /** With a positive amount paid, the status says whether it covers the total. */
  lemma PaymentsDecide(status: Status, paid: int, total: int, due: Day, sent: bool, today: Day)
    requires status != Cancelled && paid > 0
    ensures NextStatus(status, paid, total, due, sent, today) == Paid <==> paid >= total
    ensures NextStatus(status, paid, total, due, sent, today) == PartiallyPaid <==> paid < total
  {
  }

  /**
   * An invoice becomes overdue only when nothing is paid, it is not a draft
   * and its due date has passed; and then it always does.
   */
  lemma OverdueExactly(status: Status, paid: int, total: int, due: Day, sent: bool, today: Day)
    requires status != Overdue
    ensures NextStatus(status, paid, total, due, sent, today) == Overdue <==>
      status !in {Draft, Cancelled} && paid <= 0 && paid < total && due < today
  {
  }

  /** A full payment keeps the first paid date, and sets today's when there was none. */
  lemma PaidDateOnFullPayment(status: Status, paid: int, total: int, paidDate: Option<Day>, today: Day)
    requires status != Cancelled && paid >= total
    ensures NextPaidDate(status, paid, total, paidDate, today).Some?
    ensures paidDate.Some? ==> NextPaidDate(status, paid, total, paidDate, today) == paidDate
  {
  }

  // ---------------------------------------------------------------- invoices

  /**
   * An invoice row. The amounts are pence; `group` is the recurring group
   * id, absent for one-off invoices.
   */
  class Invoice {
    var number: string
    var user: nat
    var client: nat
    var invoiceDate: Day
    var dueDate: Day
    var status: Status
    var taxRate: real
    var currency: string
    var items: seq<Item>
    var subtotal: int
    var taxAmount: int
    var discount: int
    var total: int
    var payments: seq<int>
    var paidAmount: int
    var paidDate: Option<Day>
    var sentDate: Option<Day>
    var isRecurring: bool
    var frequency: string
    var group: Option<string>

    /** `Invoice.objects.create` with the given fields; the rest take their zero defaults. */
    constructor (number: string, user: nat, client: nat, invoiceDate: Day, dueDate: Day,
                 status: Status, taxRate: real, currency: string)
      ensures this.number == number && this.user == user && this.client == client
      ensures this.invoiceDate == invoiceDate && this.dueDate == dueDate && this.status == status
      ensures this.taxRate == taxRate && this.currency == currency
      ensures items == [] && payments == [] && subtotal == 0 && taxAmount == 0 && discount == 0 && total == 0
      ensures paidAmount == 0 && paidDate == None && sentDate == None
      ensures !isRecurring && frequency == "" && group == None
    {
      this.number, this.user, this.client := number, user, client;
      this.invoiceDate, this.dueDate, this.status := invoiceDate, dueDate, status;
      this.taxRate, this.currency := taxRate, currency;
      items, payments := [], [];
      subtotal, taxAmount, discount, total := 0, 0, 0, 0;
      paidAmount, paidDate, sentDate := 0, None, None;
      isRecurring, frequency, group := false, "", None;
    }

    /** `Invoice.objects.create` with the columns of a row; no payments are recorded yet. */
    constructor FromRow(r: Row)
      ensures RowOf(this) == r
      ensures payments == [] && paidAmount == 0 && paidDate == None && sentDate == None
    {
      number, user, client, group := r.number, r.user, r.client, r.group;
      invoiceDate, dueDate, status := r.invoiceDate, r.dueDate, r.status;
      taxRate, currency, items := r.taxRate, r.currency, r.items;
      subtotal, taxAmount, discount, total := r.subtotal, r.taxAmount, r.discount, r.total;
      isRecurring, frequency := r.isRecurring, r.frequency;
      payments, paidAmount, paidDate, sentDate := [], 0, None, None;
    }

    /**
     * `calculate_invoice_totals`: the subtotal is the sum of the item amounts,
     * the tax is the rounded rate on it, and the total subtracts the discount.
     */
    method CalculateTotals()
      modifies this`subtotal, this`taxAmount, this`total
      ensures subtotal == SumAmounts(items)
      ensures taxAmount == Tax(subtotal, taxRate)
      ensures total == subtotal + taxAmount - discount
    {
      var s := 0;
      for i := 0 to |items|
        invariant s == SumAmounts(items[..i])
      {
        assert items[..i + 1][..i] == items[..i];
        s := s + items[i].amount;
      }
      assert items[..|items|] == items;
      subtotal := s;
      taxAmount := Tax(s, taxRate);
      total := subtotal + taxAmount - discount;
    }

    /**
     * `update_invoice_status`: a cancelled invoice is left alone; otherwise
     * the amount paid is the sum of the payments and the status and paid
     * date follow NextStatus and NextPaidDate.
     */
    method UpdateStatus(today: Day)
      modifies this`status, this`paidAmount, this`paidDate
      ensures old(status) == Cancelled ==> status == Cancelled && paidAmount == old(paidAmount)
      ensures old(status) != Cancelled ==> paidAmount == SumInts(payments)
      ensures status == NextStatus(old(status), SumInts(payments), total, dueDate, sentDate.Some?, today)
      ensures paidDate == NextPaidDate(old(status), SumInts(payments), total, old(paidDate), today)
    {
      if status == Cancelled {
        return;
      }
      var paid := SumInts(payments);
      paidAmount := paid;
      if paid >= total {
        status := Paid;
        if paidDate.None? {
          paidDate := Some(today);
        }
      } else if paid > 0 {
        status := PartiallyPaid;
        paidDate := None;
      } else if status == Draft {
      } else if dueDate < today {
        status := Overdue;
      } else if sentDate.Some? {
        status := Sent;
      }
    }

    /** `record_payment`: the payment is added and the status brought up to date. */
    method RecordPayment(amount: int, today: Day)
      modifies this`payments, this`status, this`paidAmount, this`paidDate
      ensures payments == old(payments) + [amount]
      ensures status == NextStatus(old(status), SumInts(payments), total, dueDate, sentDate.Some?, today)
      ensures paidDate == NextPaidDate(old(status), SumInts(payments), total, old(paidDate), today)
    {
      payments := payments + [amount];
      UpdateStatus(today);
    }
  }

  // ---------------------------------------------------------------- templates

  datatype TemplateItem = TemplateItem(description: string, quantity: real, unitPrice: real, order: int)

  /** An invoice template: its default tax rate and its items. */
  datatype Template = Template(taxRate: real, items: seq<TemplateItem>)

  /** The invoice item copied from a template item: its amount is quantity times unit price, stored to the penny. */
  function ItemFromTemplate(t: TemplateItem): (i: Item)
    ensures i.description == t.description && i.quantity == t.quantity && i.unitPrice == t.unitPrice
    ensures i.order == t.order
  {
    Item(t.description, t.quantity, t.unitPrice, Quantize2(t.quantity * t.unitPrice), t.order)
  }

  /**
   * `create_invoice_from_template`: a draft for the client, dated the given
   * day or today, due on the given day or 30 days after the invoice date,
   * with the template's rate and one item per template item, totals computed.
   */
  method CreateInvoiceFromTemplate(template: Template, client: nat, clientCurrency: string, user: nat,
                                   today: CalDate, existing: seq<string>,
                                   invoiceDate: Option<Day>, dueDate: Option<Day>)
    returns (inv: Invoice)
    ensures fresh(inv)
    ensures inv.status == Draft && inv.user == user && inv.client == client
    ensures StartsWith(inv.number, NumberPrefix(today.year)) && inv.number !in existing
    ensures inv.invoiceDate == invoiceDate.GetOr(ToDays(today))
    ensures inv.dueDate == dueDate.GetOr(inv.invoiceDate + 30)
    ensures inv.taxRate == template.taxRate && inv.currency == clientCurrency
    ensures |inv.items| == |template.items|
    ensures forall k :: 0 <= k < |inv.items| ==> inv.items[k] == ItemFromTemplate(template.items[k])
    ensures inv.subtotal == SumAmounts(inv.items) && inv.taxAmount == Tax(inv.subtotal, inv.taxRate)
    ensures inv.total == inv.subtotal + inv.taxAmount
  {
    var date := invoiceDate.GetOr(ToDays(today));
    var due := dueDate.GetOr(date + 30);
    var number := NewInvoiceNumber(today.year, existing);
    inv := new Invoice(number, user, client, date, due, Draft, template.taxRate, clientCurrency);
    var items := CopyTemplateItems(template.items);
    inv.items := items;
    inv.CalculateTotals();
  }

  /** The invoice items created, in order, for the template's items. */
  method CopyTemplateItems(ts: seq<TemplateItem>) returns (items: seq<Item>)
    ensures |items| == |ts|
    ensures forall k :: 0 <= k < |items| ==> items[k] == ItemFromTemplate(ts[k])
  {
    items := [];
    for i := 0 to |ts|
      invariant |items| == i
      invariant forall k :: 0 <= k < i ==> items[k] == ItemFromTemplate(ts[k])
    {
      items := items + [ItemFromTemplate(ts[i])];
    }
  }

  // ---------------------------------------------------------------- recurrence

  /** Days from one recurring invoice to the next: 30, 90 or 365; None for any other frequency. */
  function RecurrenceDays(frequency: string): (r: Option<nat>)
    ensures r.Some? <==> frequency in {"monthly", "quarterly", "yearly"}
    ensures r.Some? ==> r.value in {30, 90, 365}
  {
    if frequency == "monthly" then Some(30)
    else if frequency == "quarterly" then Some(90)
    else if frequency == "yearly" then Some(365)
    else None
  }

  /** The columns of an invoice row, as a value: what a query over the table sees. */
  datatype Row = Row(number: string, user: nat, client: nat, group: Option<string>,
                     invoiceDate: Day, dueDate: Day, status: Status, taxRate: real, currency: string,
                     items: seq<Item>, subtotal: int, taxAmount: int, discount: int, total: int,
                     isRecurring: bool, frequency: string)

  function RowOf(x: Invoice): Row
    reads x
  {
    Row(x.number, x.user, x.client, x.group, x.invoiceDate, x.dueDate, x.status, x.taxRate, x.currency,
        x.items, x.subtotal, x.taxAmount, x.discount, x.total, x.isRecurring, x.frequency)
  }

  /** The rows of a run of invoices, in order. */
  function Rows(xs: seq<Invoice>): (r: seq<Row>)
    reads xs
    ensures |r| == |xs|
  {
    if |xs| == 0 then [] else Rows(xs[..|xs| - 1]) + [RowOf(xs[|xs| - 1])]
  }

  /** An invoice `create_recurring_invoices` copies from: the user's, paid, recurring, grouped, with a known frequency. */
  predicate Generates(o: Row, user: nat) {
    o.user == user && o.isRecurring && o.status == Paid && o.group.Some? && RecurrenceDays(o.frequency).Some?
  }

  function NextDate(o: Row): Day
    requires RecurrenceDays(o.frequency).Some?
  {
    o.invoiceDate + RecurrenceDays(o.frequency).value
  }

  /** o is copied from on the check date: it generates and its next date is not after that date. */
  predicate DueOn(o: Row, user: nat, check: Day) {
    Generates(o, user) && NextDate(o) <= check
  }

  /** Some row of xs belongs to the group and is dated d. */
  predicate HasInvoiceOn(xs: seq<Row>, group: Option<string>, d: Day) {
    exists x :: x in xs && x.group == group && x.invoiceDate == d
  }

  /** The invoice numbers of one user. */
  function Numbers(xs: seq<Row>, user: nat): seq<string> {
    if |xs| == 0 then []
    else Numbers(xs[..|xs| - 1], user) + (if xs[|xs| - 1].user == user then [xs[|xs| - 1].number] else [])
  }

  /**
   * c is the recurring copy of o: a draft of the same user, client and
   * group, dated o's next date and due 30 days later, with o's rate,
   * currency, items, amounts and frequency.
   */
  predicate CopyOf(c: Row, o: Row)
    requires RecurrenceDays(o.frequency).Some?
  {
    c.user == o.user && c.client == o.client && c.group == o.group
    && c.invoiceDate == NextDate(o) && c.dueDate == c.invoiceDate + 30 && c.status == Draft
    && c.taxRate == o.taxRate && c.currency == o.currency && c.items == o.items
    && c.subtotal == o.subtotal && c.taxAmount == o.taxAmount && c.discount == o.discount && c.total == o.total
    && c.isRecurring && c.frequency == o.frequency
  }

  /** The row `create_recurring_invoices` creates from o under the given number. */
  function CopyRow(o: Row, number: string): (c: Row)
    requires RecurrenceDays(o.frequency).Some?
    ensures CopyOf(c, o) && c.number == number
  {
    var next := NextDate(o);
    Row(number, o.user, o.client, o.group, next, next + 30, Draft, o.taxRate, o.currency,
        o.items, o.subtotal, o.taxAmount, o.discount, o.total, true, o.frequency)
  }

  /** Each copy comes from a row of db that was due on the check date. */
  predicate CopiesSound(db: seq<Row>, created: seq<Row>, user: nat, check: Day) {
    forall k :: 0 <= k < |created| ==> exists o :: o in db && DueOn(o, user, check) && CopyOf(created[k], o)
  }

  /** No copy shares its group and date with a row of db or with another copy. */
  predicate CopiesNew(db: seq<Row>, created: seq<Row>) {
    (forall k :: 0 <= k < |created| ==> !HasInvoiceOn(db, created[k].group, created[k].invoiceDate))
    && (forall j, k :: 0 <= j < k < |created| ==>
          created[j].group != created[k].group || created[j].invoiceDate != created[k].invoiceDate)
  }

  /** The copies' numbers carry the year's prefix and are new: none is an existing number of the user, no two are equal. */
  predicate CopiesNumbered(db: seq<Row>, created: seq<Row>, user: nat, year: int) {
    (forall k :: 0 <= k < |created| ==>
       StartsWith(created[k].number, NumberPrefix(year)) && created[k].number !in Numbers(db, user))
    && (forall j, k :: 0 <= j < k < |created| ==> created[j].number != created[k].number)
  }

  /** The numbers of db + created include those of db and of every copy. */
  predicate NumbersTracked(db: seq<Row>, created: seq<Row>, user: nat) {
    (forall x :: x in Numbers(db, user) ==> x in Numbers(db + created, user))
    && (forall k :: 0 <= k < |created| ==> created[k].number in Numbers(db + created, user))
  }

  /** Every row of db[..i] due on the check date has a row of its group on its next date. */
  predicate Covered(db: seq<Row>, i: nat, created: seq<Row>, user: nat, check: Day)
    requires i <= |db|
  {
    forall j :: 0 <= j < i && DueOn(db[j], user, check) ==> HasInvoiceOn(db + created, db[j].group, NextDate(db[j]))
  }

  /** What the loop of CreateRecurringInvoices keeps after looking at db[..i]. */
  predicate Generated(db: seq<Row>, i: nat, created: seq<Row>, user: nat, check: Day, year: int) {
    i <= |db| && CopiesSound(db, created, user, check) && CopiesNew(db, created)
    && CopiesNumbered(db, created, user, year) && NumbersTracked(db, created, user)
    && Covered(db, i, created, user, check)
  }

  /**
   * `create_recurring_invoices`: for each invoice of `db` that is due on the
   * check date (today by default), a draft copy is created unless its group
   * already has an invoice on the next date. `db` is the whole invoice table;
   * the copies are returned in creation order.
   */
  method CreateRecurringInvoices(db: seq<Invoice>, user: nat, today: CalDate, checkDate: Option<Day>)
    returns (created: seq<Invoice>)
    ensures forall k :: 0 <= k < |created| ==> fresh(created[k])
    ensures Generated(old(Rows(db)), |db|, Rows(created), user, checkDate.GetOr(ToDays(today)), today.year)
    ensures forall o :: o in old(Rows(db)) && DueOn(o, user, checkDate.GetOr(ToDays(today))) ==>
      HasInvoiceOn(old(Rows(db)) + Rows(created), o.group, NextDate(o))
  {
    var copies := PlanCopies(Rows(db), user, checkDate.GetOr(ToDays(today)), today.year);
    created := CreateRows(copies);
  }

  /**
   * The rows the loop of `create_recurring_invoices` creates, in order. Each
   * existence check and each new number sees the table with the copies
   * decided so far, as the queries of the loop see the rows created so far.
   */
  method PlanCopies(table: seq<Row>, user: nat, check: Day, year: int) returns (copies: seq<Row>)
    ensures Generated(table, |table|, copies, user, check, year)
    ensures forall o :: o in table && DueOn(o, user, check) ==> HasInvoiceOn(table + copies, o.group, NextDate(o))
  {
    copies := [];
    assert table + copies == table;
    for i := 0 to |table|
      invariant Generated(table, i, copies, user, check, year)
    {
      var o := table[i];
      if DueOn(o, user, check) && !HasInvoiceOn(table + copies, o.group, NextDate(o)) {
        var number := NewInvoiceNumber(year, Numbers(table + copies, user));
        var c := CopyRow(o, number);
        AddCopy(table, i, copies, c, user, year, check);
        copies := copies + [c];
      } else {
        CoveredStep(table, i, copies, user, check, year);
      }
    }
    DueCovered(table, copies, user, check, year);
  }

  /** One new invoice per row, in order. */
  method CreateRows(rows: seq<Row>) returns (created: seq<Invoice>)
    ensures forall k :: 0 <= k < |created| ==> fresh(created[k])
    ensures Rows(created) == rows
  {
    created := [];
    for k := 0 to |rows|
      invariant forall j :: 0 <= j < |created| ==> fresh(created[j])
      invariant Rows(created) == rows[..k]
    {
      var c := new Invoice.FromRow(rows[k]);
      assert (created + [c])[..|created|] == created;
      assert rows[..k + 1] == rows[..k] + [rows[k]];
      created := created + [c];
    }
    assert rows[..|rows|] == rows;
  }

  /** Every due row of db ends up with a row of its group on its next date, the copies included. */
  lemma DueCovered(db: seq<Row>, created: seq<Row>, user: nat, check: Day, year: int)
    requires Generated(db, |db|, created, user, check, year)
    ensures forall o :: o in db && DueOn(o, user, check) ==> HasInvoiceOn(db + created, o.group, NextDate(o))
  {
    forall o | o in db && DueOn(o, user, check)
      ensures HasInvoiceOn(db + created, o.group, NextDate(o))
    {
      var j :| 0 <= j < |db| && db[j] == o;
    }
  }

  /** Moving past a row that is not due or already covered keeps the loop facts. */
  lemma CoveredStep(db: seq<Row>, i: nat, created: seq<Row>, user: nat, check: Day, year: int)
    requires i < |db| && Generated(db, i, created, user, check, year)
    requires DueOn(db[i], user, check) ==> HasInvoiceOn(db + created, db[i].group, NextDate(db[i]))
    ensures Generated(db, i + 1, created, user, check, year)
  {
  }

  /** A new copy of db[i] keeps the loop facts and covers db[i]. */
  lemma AddCopy(db: seq<Row>, i: nat, created: seq<Row>, c: Row, user: nat, year: int, check: Day)
    requires i < |db| && DueOn(db[i], user, check) && Generated(db, i, created, user, check, year)
    requires CopyOf(c, db[i]) && !HasInvoiceOn(db + created, c.group, c.invoiceDate)
    requires StartsWith(c.number, NumberPrefix(year)) && c.number !in Numbers(db + created, user)
    ensures Generated(db, i + 1, created + [c], user, check, year)
  {
    AddCopySound(db, created, c, db[i], user, check);
    AddCopyNew(db, created, c);
    AddCopyNumbered(db, created, c, user, year);
    AddCopyCovered(db, i, created, c, user, check);
  }

  lemma AddCopySound(db: seq<Row>, created: seq<Row>, c: Row, o: Row, user: nat, check: Day)
    requires o in db && DueOn(o, user, check) && CopyOf(c, o)
    requires CopiesSound(db, created, user, check)
    ensures CopiesSound(db, created + [c], user, check)
  {
    var grown := created + [c];
    forall k | 0 <= k < |grown|
      ensures exists o' :: o' in db && DueOn(o', user, check) && CopyOf(grown[k], o')
    {
      if k == |created| {
        assert grown[k] == c;
      } else {
        assert grown[k] == created[k];
      }
    }
  }

  lemma AddCopyNew(db: seq<Row>, created: seq<Row>, c: Row)
    requires CopiesNew(db, created)
    requires !HasInvoiceOn(db + created, c.group, c.invoiceDate)
    ensures CopiesNew(db, created + [c])
  {
    forall j | 0 <= j < |created|
      ensures created[j].group != c.group || created[j].invoiceDate != c.invoiceDate
    {
      assert created[j] in db + created;
    }
  }

  lemma AddCopyNumbered(db: seq<Row>, created: seq<Row>, c: Row, user: nat, year: int)
    requires CopiesNumbered(db, created, user, year) && NumbersTracked(db, created, user)
    requires c.user == user
    requires StartsWith(c.number, NumberPrefix(year)) && c.number !in Numbers(db + created, user)
    ensures CopiesNumbered(db, created + [c], user, year) && NumbersTracked(db, created + [c], user)
  {
    var all := db + created;
    assert db + (created + [c]) == all + [c];
    NumbersAppend(all, c, user);
    TrackedGrow(db, created, c, user, Numbers(all, user));
    NumberedGrow(db, created, c, user, year, Numbers(all, user));
  }

  lemma TrackedGrow(db: seq<Row>, created: seq<Row>, c: Row, user: nat, before: seq<string>)
    requires before == Numbers(db + created, user)
    requires NumbersTracked(db, created, user)
    requires Numbers(db + (created + [c]), user) == before + [c.number]
    ensures NumbersTracked(db, created + [c], user)
  {
    var grown := created + [c];
    forall k | 0 <= k < |grown|
      ensures grown[k].number in before + [c.number]
    {
      if k < |created| {
        assert grown[k] == created[k];
      }
    }
  }

  lemma NumberedGrow(db: seq<Row>, created: seq<Row>, c: Row, user: nat, year: int, before: seq<string>)
    requires before == Numbers(db + created, user)
    requires CopiesNumbered(db, created, user, year) && NumbersTracked(db, created, user)
    requires StartsWith(c.number, NumberPrefix(year)) && c.number !in before
    ensures CopiesNumbered(db, created + [c], user, year)
  {
    var grown := created + [c];
    forall k | 0 <= k < |grown|
      ensures StartsWith(grown[k].number, NumberPrefix(year)) && grown[k].number !in Numbers(db, user)
    {
      if k < |created| {
        assert grown[k] == created[k];
      }
    }
    forall j, k | 0 <= j < k < |grown|
      ensures grown[j].number != grown[k].number
    {
      assert grown[j] == created[j];
      if k < |created| {
        assert grown[k] == created[k];
      }
    }
  }

  /** Appending a row of the user appends its number. */
  lemma NumbersAppend(xs: seq<Row>, c: Row, user: nat)
    ensures Numbers(xs + [c], user) == Numbers(xs, user) + (if c.user == user then [c.number] else [])
  {
    assert (xs + [c])[..|xs|] == xs;
  }

  lemma AddCopyCovered(db: seq<Row>, i: nat, created: seq<Row>, c: Row, user: nat, check: Day)
    requires i < |db| && DueOn(db[i], user, check) && CopyOf(c, db[i])
    requires Covered(db, i, created, user, check)
    ensures Covered(db, i + 1, created + [c], user, check)
  {
    var all := db + created;
    assert db + (created + [c]) == all + [c];
    forall j | 0 <= j < i + 1 && DueOn(db[j], user, check)
      ensures HasInvoiceOn(all + [c], db[j].group, NextDate(db[j]))
    {
      if j == i {
        HasInvoiceOnLast(all, c);
      } else {
        HasInvoiceOnGrow(all, c, db[j].group, NextDate(db[j]));
      }
    }
  }

  lemma HasInvoiceOnGrow(xs: seq<Row>, c: Row, group: Option<string>, d: Day)
    requires HasInvoiceOn(xs, group, d)
    ensures HasInvoiceOn(xs + [c], group, d)
  {
    var x :| x in xs && x.group == group && x.invoiceDate == d;
    assert x in xs + [c];
  }

  lemma HasInvoiceOnLast(xs: seq<Row>, c: Row)
    ensures HasInvoiceOn(xs + [c], c.group, c.invoiceDate)
  {
    assert c in xs + [c];
  }

  // ---------------------------------------------------------------- currency symbols

  /** The symbols invoices are rendered with. */
  const InvoiceSymbols: map<string, string> := map[
    "GBP" := "£", "USD" := "$", "EUR" := "€", "JPY" := "¥",
    "AUD" := "A$", "CAD" := "C$", "CHF" := "CHF", "INR" := "₹"
  ]

  /**
   * `get_currency_symbol`: the table's symbol for a known code. A code is
   * shown as itself exactly when the table lacks it or it is CHF, whose
   * symbol is its code.
   */
  function GetCurrencySymbol(code: string): (s: string)
    ensures code in InvoiceSymbols ==> s == InvoiceSymbols[code]
    ensures s == code <==> code !in InvoiceSymbols || code == "CHF"
  {
    if code !in InvoiceSymbols then code
    else
      assert code in {"GBP", "USD", "EUR", "JPY", "AUD", "CAD", "CHF", "INR"};
      InvoiceSymbols[code]
  }
}
