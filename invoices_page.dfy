/**
 * The invoices page: the line items of the invoice form (added with fresh
 * ids from a counter, removed by id, their amounts kept as qty x price to the
 * cent), the running totals, the line items and URL a save posts, and the
 * query string of the list filters.
 *
 * A numeric input is held as the result of `parseFloat` on it: `None` stands
 * for NaN (an empty or non-numeric field).
 */
module InvoicesPage {
  import opened Wrappers
  import opened Strings
  import opened SaveUrls

  /** `parseFloat(v) || 0`: NaN and zero both give 0. */
  function OrZero(x: Option<real>): real {
    if x.Some? then x.value else 0.0
  }

  /** JavaScript truthiness of a parsed number: present and not zero. */
  predicate Truthy(x: Option<real>) {
    x.Some? && x.value != 0.0
  }

  /** `x.toFixed(2)` read back as a number: x to the nearest cent, halves rounded up. */
  function RoundCents(x: real): (r: real)
    ensures x - 0.005 < r <= x + 0.005
  {
    ((x * 100.0 + 0.5).Floor as real) / 100.0
  }

  /** A whole number of cents is kept as it is. */
  lemma RoundCentsKeepsCents(n: int)
    ensures RoundCents((n as real) / 100.0) == (n as real) / 100.0
  {
    var x := (n as real) / 100.0;
    assert x * 100.0 + 0.5 == (n as real) + 0.5;
    assert (x * 100.0 + 0.5).Floor == n;
  }

  /** `updateAmount`: the amount field of a line, qty x price with NaN read as 0. */
  function LineAmount(quantity: Option<real>, price: Option<real>): real {
    RoundCents(OrZero(quantity) * OrZero(price))
  }

  /** A line of the form: its data-id, its three inputs, and its read-only amount. */
  datatype LineItem = LineItem(id: int, description: string, quantity: Option<real>, price: Option<real>, amount: real)

  /** The line `addLineItem` appends: empty description, quantity 1, price 0, amount 0. */
  function BlankLine(id: int): LineItem {
    LineItem(id, "", Some(1.0), Some(0.0), 0.0)
  }

  /** Line ids strictly increase down the form. */
  predicate IdsIncrease(lines: seq<LineItem>) {
    forall i, j :: 0 <= i < j < |lines| ==> lines[i].id < lines[j].id
  }

  // ---------------------------------------------------------------------------
  // Removing a line by id
  // ---------------------------------------------------------------------------

  /** `removeLineItem`: the first line with the id goes; with none, nothing changes. */
  function RemoveId(lines: seq<LineItem>, id: int): seq<LineItem> {
    if lines == [] then []
    else if lines[0].id == id then lines[1..]
    else [lines[0]] + RemoveId(lines[1..], id)
  }

  /** Removing an id no line has changes nothing. */
  lemma {:induction false} RemoveAbsentId(lines: seq<LineItem>, id: int)
    requires forall i :: 0 <= i < |lines| ==> lines[i].id != id
    ensures RemoveId(lines, id) == lines
  {
    if lines != [] {
      var rest := lines[1..];
      assert forall i :: 0 <= i < |rest| ==> rest[i].id != id by {
        forall i | 0 <= i < |rest| ensures rest[i].id != id {
          assert rest[i] == lines[i + 1];
        }
      }
      RemoveAbsentId(rest, id);
      assert [lines[0]] + rest == lines;
    }
  }

  /** Otherwise exactly the first line with the id goes. */
  lemma {:induction false} RemoveFirstId(lines: seq<LineItem>, id: int, k: int)
    requires 0 <= k < |lines| && lines[k].id == id
    requires forall i :: 0 <= i < k ==> lines[i].id != id
    ensures RemoveId(lines, id) == lines[..k] + lines[k + 1..]
  {
    if k > 0 {
      var rest := lines[1..];
      assert rest[k - 1] == lines[k];
      assert forall i :: 0 <= i < k - 1 ==> rest[i].id != id by {
        forall i | 0 <= i < k - 1 ensures rest[i].id != id {
          assert rest[i] == lines[i + 1];
        }
      }
      RemoveFirstId(rest, id, k - 1);
      assert lines[..k] == [lines[0]] + rest[..k - 1];
      assert lines[k + 1..] == rest[k..];
    }
  }

  /** Removing keeps the survivors in order, so ids still increase. */
  lemma {:induction false} RemoveIdKeepsOrder(lines: seq<LineItem>, id: int)
    requires IdsIncrease(lines)
    ensures IdsIncrease(RemoveId(lines, id))
    ensures forall x :: x in RemoveId(lines, id) ==> x in lines && x.id != id
  {
    if lines != [] && lines[0].id != id {
      var rest := lines[1..];
      assert IdsIncrease(rest) by {
        forall i, j | 0 <= i < j < |rest| ensures rest[i].id < rest[j].id {
          assert rest[i] == lines[i + 1] && rest[j] == lines[j + 1];
        }
      }
      RemoveIdKeepsOrder(rest, id);
      var r := RemoveId(rest, id);
      forall j | 0 <= j < |r| ensures lines[0].id < r[j].id {
        assert r[j] in rest;
      }
      assert RemoveId(lines, id) == [lines[0]] + r;
    } else if lines != [] {
      var rest := lines[1..];
      forall x | x in rest ensures x.id != id {
        var j :| 0 <= j < |rest| && rest[j] == x;
        assert rest[j] == lines[j + 1];
      }
    }
  }

  // ---------------------------------------------------------------------------
  // Totals
  // ---------------------------------------------------------------------------

  /** The sum of the amount fields, added in form order. */
  function SumAmounts(lines: seq<LineItem>): real {
    if lines == [] then 0.0 else SumAmounts(lines[..|lines| - 1]) + lines[|lines| - 1].amount
  }

  lemma {:induction false} SumAmountsAppend(a: seq<LineItem>, b: seq<LineItem>)
    ensures SumAmounts(a + b) == SumAmounts(a) + SumAmounts(b)
  {
    if b != [] {
      var b' := b[..|b| - 1];
      SumAmountsAppend(a, b');
      assert (a + b)[..|a + b| - 1] == a + b';
    } else {
      assert a + b == a;
    }
  }

  /** A blank line leaves the subtotal as it was. */
  lemma BlankLineAddsNothing(lines: seq<LineItem>, id: int)
    ensures SumAmounts(lines + [BlankLine(id)]) == SumAmounts(lines)
  {
    assert (lines + [BlankLine(id)])[..|lines|] == lines;
  }

  /** Removing a line takes exactly its amount off the subtotal. */
  lemma RemovingSubtractsAmount(lines: seq<LineItem>, k: int)
    requires 0 <= k < |lines|
    ensures SumAmounts(lines[..k] + lines[k + 1..]) == SumAmounts(lines) - lines[k].amount
  {
    var a, x, b := lines[..k], [lines[k]], lines[k + 1..];
    assert lines == a + (x + b);
    SumAmountsAppend(a, b);
    SumAmountsAppend(a, x + b);
    SumAmountsAppend(x, b);
    assert x[..0] == [];
    assert SumAmounts(x) == lines[k].amount;
  }

  datatype Totals = Totals(subtotal: real, tax: real, discount: real, total: real)

  /** `calculateTotals`: tax is the subtotal times the rate over 100, the discount is taken off; NaN inputs count as 0. */
  method CalculateTotals(lines: seq<LineItem>, taxRate: Option<real>, discount: Option<real>) returns (t: Totals)
    ensures t.subtotal == SumAmounts(lines)
    ensures t.tax == t.subtotal * OrZero(taxRate) / 100.0
    ensures t.discount == OrZero(discount)
    ensures t.total == t.subtotal + t.tax - t.discount
  {
    var subtotal := 0.0;
    for i := 0 to |lines|
      invariant subtotal == SumAmounts(lines[..i])
    {
      assert lines[..i + 1][..i] == lines[..i];
      subtotal := subtotal + lines[i].amount;
    }
    assert lines[..|lines|] == lines;
    var rate, off := OrZero(taxRate), OrZero(discount);
    var tax := (subtotal * rate) / 100.0;
    t := Totals(subtotal, tax, off, subtotal + tax - off);
  }

  // ---------------------------------------------------------------------------
  // The line items a save posts
  // ---------------------------------------------------------------------------

  /** A posted line item; `order` is the line's index among all lines of the form. */
  datatype Item = Item(description: string, quantity: real, unitPrice: real, order: int)

  /** A line is posted when its description is non-empty and its quantity and price parse to non-zero numbers. */
  predicate Keeps(line: LineItem) {
    line.description != "" && Truthy(line.quantity) && Truthy(line.price)
  }

  function ItemOf(line: LineItem, index: int): Item
    requires Keeps(line)
  {
    Item(line.description, line.quantity.value, line.price.value, index)
  }

  /** The kept lines in form order, each numbered by its index. */
  function Kept(lines: seq<LineItem>): seq<Item> {
    if lines == [] then []
    else
      var n := |lines| - 1;
      Kept(lines[..n]) + (if Keeps(lines[n]) then [ItemOf(lines[n], n)] else [])
  }

  /** Every posted item is a kept line, at the index its order names. */
  lemma {:induction false} KeptSound(lines: seq<LineItem>, k: int)
    requires 0 <= k < |Kept(lines)|
    ensures 0 <= Kept(lines)[k].order < |lines| && Keeps(lines[Kept(lines)[k].order])
    ensures Kept(lines)[k] == ItemOf(lines[Kept(lines)[k].order], Kept(lines)[k].order)
  {
    var n := |lines| - 1;
    var front := lines[..n];
    if k < |Kept(front)| {
      KeptSound(front, k);
      assert Kept(lines)[k] == Kept(front)[k];
      assert lines[Kept(front)[k].order] == front[Kept(front)[k].order];
    }
  }

  /** Posted items keep the order of the form: their orders strictly increase. */
  lemma {:induction false} KeptOrdersIncrease(lines: seq<LineItem>)
    ensures forall k, m :: 0 <= k < m < |Kept(lines)| ==> Kept(lines)[k].order < Kept(lines)[m].order
  {
    if lines != [] {
      var n := |lines| - 1;
      var front := lines[..n];
      KeptOrdersIncrease(front);
      forall k | 0 <= k < |Kept(front)| ensures Kept(front)[k].order < n {
        KeptSound(front, k);
      }
    }
  }

  /** Every kept line is posted. */
  lemma {:induction false} KeptComplete(lines: seq<LineItem>, i: int)
    requires 0 <= i < |lines| && Keeps(lines[i])
    ensures exists k :: 0 <= k < |Kept(lines)| && Kept(lines)[k].order == i
  {
    var n := |lines| - 1;
    var front := lines[..n];
    if i < n {
      assert front[i] == lines[i];
      KeptComplete(front, i);
      var k :| 0 <= k < |Kept(front)| && Kept(front)[k].order == i;
      assert Kept(lines)[k] == Kept(front)[k];
    } else {
      assert Kept(lines)[|Kept(lines)| - 1].order == n;
    }
  }

  /** Nothing is posted exactly when no line is kept. */
  lemma KeptEmptyIff(lines: seq<LineItem>)
    ensures Kept(lines) == [] <==> forall i :: 0 <= i < |lines| ==> !Keeps(lines[i])
  {
    if Kept(lines) != [] {
      KeptSound(lines, 0);
    } else {
      forall i | 0 <= i < |lines| ensures !Keeps(lines[i]) {
        if Keeps(lines[i]) {
          KeptComplete(lines, i);
        }
      }
    }
  }

  /** The `forEach` of `saveInvoice` that collects the kept lines. */
  method CollectLineItems(lines: seq<LineItem>) returns (items: seq<Item>)
    ensures items == Kept(lines)
  {
    items := [];
    for index := 0 to |lines|
      invariant items == Kept(lines[..index])
    {
      var item := lines[index];
      assert lines[..index + 1][..index] == lines[..index];
      if item.description != "" && Truthy(item.quantity) && Truthy(item.price) {
        items := items + [Item(item.description, item.quantity.value, item.price.value, index)];
      }
    }
    assert lines[..|lines|] == lines;
  }

  /** What `saveInvoice` does: refuse with an alert, or post the kept line items. */
  datatype SaveOutcome = Refused(message: string) | Post(url: string, clientId: string, items: seq<Item>)

  // ---------------------------------------------------------------------------
  // The invoice form
  // ---------------------------------------------------------------------------

  class InvoiceForm {
    var currentInvoiceId: Option<int>
    var lineItemCount: int
    var lines: seq<LineItem>

    /** Ids increase down the form and none exceeds the counter. */
    predicate Valid()
      reads this
    {
      IdsIncrease(lines) && forall i :: 0 <= i < |lines| ==> lines[i].id <= lineItemCount
    }

    constructor ()
      ensures Valid() && currentInvoiceId.None? && lineItemCount == 0 && lines == []
    {
      currentInvoiceId := None;
      lineItemCount := 0;
      lines := [];
    }

    /** `addLineItem`: the counter moves on and a blank line with the new count as id is appended. */
    method AddLineItem()
      requires Valid()
      modifies this`lineItemCount, this`lines
      ensures Valid()
      ensures lineItemCount == old(lineItemCount) + 1
      ensures lines == old(lines) + [BlankLine(lineItemCount)]
    {
      lineItemCount := lineItemCount + 1;
      lines := lines + [BlankLine(lineItemCount)];
    }

    /** `openCreateInvoiceModal`: no invoice is being edited, and the form holds a single blank line with id 1. */
    method OpenCreateInvoiceModal()
      modifies this
      ensures Valid()
      ensures currentInvoiceId.None? && lineItemCount == 1 && lines == [BlankLine(1)]
    {
      currentInvoiceId := None;
      lines := [];
      lineItemCount := 0;
      AddLineItem();
    }

    /** `removeLineItem`: the line with the id goes (none: nothing happens); the counter is not reused. */
    method RemoveLineItem(id: int)
      requires Valid()
      modifies this`lines
      ensures Valid()
      ensures lines == RemoveId(old(lines), id)
    {
      RemoveIdKeepsOrder(lines, id);
      lines := RemoveId(lines, id);
    }

    /** Typing into the inputs of line i; the quantity and price events recompute its amount. */
    method EditLine(i: int, description: string, quantity: Option<real>, price: Option<real>)
      requires Valid() && 0 <= i < |lines|
      modifies this`lines
      ensures Valid()
      ensures lines == old(lines)[i := LineItem(old(lines)[i].id, description, quantity, price, LineAmount(quantity, price))]
    {
      lines := lines[i := LineItem(lines[i].id, description, quantity, price, LineAmount(quantity, price))];
    }

    /** `saveInvoice`: no client or no kept line is refused; otherwise the kept lines are posted. */
    method SaveInvoice(clientId: string) returns (outcome: SaveOutcome)
      ensures clientId == "" ==> outcome == Refused("Please select a client")
      ensures clientId != "" && Kept(lines) == [] ==> outcome == Refused("Please add at least one line item")
      ensures clientId != "" && Kept(lines) != [] ==> outcome == Post(SaveUrl("/invoices/", currentInvoiceId), clientId, Kept(lines))
    {
      if clientId == "" {
        return Refused("Please select a client");
      }
      var items := CollectLineItems(lines);
      if |items| == 0 {
        return Refused("Please add at least one line item");
      }
      var url := if currentInvoiceId.Some? && currentInvoiceId.value != 0
        then ActionUrl("/invoices/", currentInvoiceId.value, "edit")
        else "/invoices/create/";
      outcome := Post(url, clientId, items);
    }
  }

  /** A form saved straight after opening it posts nothing: its one line has no description and a zero price. */
  lemma FreshFormRefused()
    ensures Kept([BlankLine(1)]) == []
  {
    KeptEmptyIff([BlankLine(1)]);
  }

  // ---------------------------------------------------------------------------
  // applyFilters
  // ---------------------------------------------------------------------------

  /** The filter fields with a value, in the order given. */
  function Present(fields: seq<(string, string)>): (r: seq<(string, string)>)
    ensures |r| <= |fields|
  {
    if fields == [] then []
    else (if fields[0].1 != "" then [fields[0]] else []) + Present(fields[1..])
  }

  /** A field is in the query exactly when its value is non-empty, and the order is kept. */
  lemma {:induction false} PresentMeaning(fields: seq<(string, string)>)
    ensures forall f :: f in Present(fields) <==> f in fields && f.1 != ""
    ensures Present(fields) == [] <==> forall i :: 0 <= i < |fields| ==> fields[i].1 == ""
  {
    if fields != [] {
      PresentMeaning(fields[1..]);
      assert fields == [fields[0]] + fields[1..];
      if forall i :: 0 <= i < |fields| ==> fields[i].1 == "" {
        assert forall i :: 0 <= i < |fields| - 1 ==> fields[1..][i].1 == "" by {
          forall i | 0 <= i < |fields| - 1 ensures fields[1..][i].1 == "" {
            assert fields[1..][i] == fields[i + 1];
          }
        }
      }
      if Present(fields) == [] {
        forall i | 0 <= i < |fields| ensures fields[i].1 == "" {
          if i > 0 {
            assert fields[i] == fields[1..][i - 1];
            assert fields[i] in fields[1..];
          }
        }
      }
    }
  }

  /** `URLSearchParams.toString()` of the set fields; `encode` is its form encoding. */
  function QueryString(fields: seq<(string, string)>, encode: string -> string): string {
    Join(seq(|Present(fields)|, i requires 0 <= i < |Present(fields)| => encode(Present(fields)[i].0) + "=" + encode(Present(fields)[i].1)), "&")
  }

  /** `applyFilters`: the list URL with q, status, client, date_from and date_to for the fields that are filled in. */
  function FilterUrl(search: string, status: string, client: string, dateFrom: string, dateTo: string, encode: string -> string): string {
    "/invoices/?" + QueryString([("q", search), ("status", status), ("client", client), ("date_from", dateFrom), ("date_to", dateTo)], encode)
  }

  /** With every field empty the URL carries an empty query. */
  lemma NoFiltersBareUrl(encode: string -> string)
    ensures FilterUrl("", "", "", "", "", encode) == "/invoices/?"
  {
    var fields := [("q", ""), ("status", ""), ("client", ""), ("date_from", ""), ("date_to", "")];
    PresentMeaning(fields);
  }

  /** A lone search term gives the single pair q=term. */
  lemma SearchOnlyUrl(term: string, encode: string -> string)
    requires term != ""
    ensures FilterUrl(term, "", "", "", "", encode) == "/invoices/?" + encode("q") + "=" + encode(term)
  {
    var fields := [("q", term), ("status", ""), ("client", ""), ("date_from", ""), ("date_to", "")];
    assert Present(fields[1..]) == [] by {
      PresentMeaning(fields[1..]);
    }
    assert Present(fields) == [("q", term)];
  }
}
