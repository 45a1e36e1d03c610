/**
 * The clients page: the client modal's form, the data the edit button reads
 * back from a client card, the currency guessed from the card's first
 * statistic, and the checks and URL of a save.
 */
module ClientsPage {
  import opened Wrappers
  import opened Strings
  import opened SaveUrls

  /** A labelled line of a client card, with the text of its label and of its value. */
  datatype InfoItem = InfoItem(labelText: string, value: string)

  /** What a client card shows: its id, heading, company line, info lines, first statistic and inactive badge. */
  datatype ClientCard = ClientCard(
    id: int,
    heading: string,
    company: Option<string>,
    infoItems: seq<InfoItem>,
    statValue: Option<string>,
    inactive: bool)

  /** The fields of the client form, and the object `getClientDataFromCard` builds. */
  datatype ClientData = ClientData(
    name: string,
    email: string,
    company: string,
    phone: string,
    address: string,
    taxId: string,
    paymentTerms: string,
    currency: string,
    notes: string,
    active: bool)

  /** The trimmed value of the last info line whose trimmed label contains `key`; '' when none does. */
  function LastWith(items: seq<InfoItem>, key: string): string {
    if items == [] then ""
    else
      var last := items[|items| - 1];
      if Contains(Strip(last.labelText), key) then Strip(last.value) else LastWith(items[..|items| - 1], key)
  }

  /** Later lines win: the value is that of the last matching line, and '' when no line matches. */
  lemma {:induction false} LastWithMeaning(items: seq<InfoItem>, key: string, k: int)
    requires 0 <= k < |items| && Contains(Strip(items[k].labelText), key)
    requires forall j :: k < j < |items| ==> !Contains(Strip(items[j].labelText), key)
    ensures LastWith(items, key) == Strip(items[k].value)
  {
    if k < |items| - 1 {
      var front := items[..|items| - 1];
      assert front[k] == items[k];
      LastWithMeaning(front, key, k);
    }
  }

  lemma {:induction false} LastWithNone(items: seq<InfoItem>, key: string)
    requires forall j :: 0 <= j < |items| ==> !Contains(Strip(items[j].labelText), key)
    ensures LastWith(items, key) == ""
  {
    if items != [] {
      var front := items[..|items| - 1];
      assert forall j :: 0 <= j < |front| ==> front[j] == items[j];
      LastWithNone(front, key);
    }
  }

  /** The currency of a card: from the first statistic's '£', '$' or '€' prefix, else GBP. */
  function CurrencyOf(statValue: Option<string>): (c: string)
    ensures c == "GBP" || c == "USD" || c == "EUR"
    ensures statValue.None? ==> c == "GBP"
  {
    if statValue.None? then "GBP"
    else
      var text := Strip(statValue.value);
      if StartsWith(text, "£") then "GBP"
      else if StartsWith(text, "$") then "USD"
      else if StartsWith(text, "€") then "EUR"
      else "GBP"
  }

  /** For a statistic with text, its first non-blank character decides: '$' is USD, '€' is EUR, anything else GBP. */
  lemma CurrencyByFirstCharacter(text: string)
    requires Strip(text) != ""
    ensures CurrencyOf(Some(text)) == (if Strip(text)[0] == '$' then "USD" else if Strip(text)[0] == '€' then "EUR" else "GBP")
  {
    var t := Strip(text);
    assert StartsWith(t, "£") <==> t[0] == '£';
    assert StartsWith(t, "$") <==> t[0] == '$';
    assert StartsWith(t, "€") <==> t[0] == '€';
  }

  /** `getClientDataFromCard`: the heading, company, last Email/Phone/Payment Terms lines, currency and badge; the rest empty. */
  method GetClientDataFromCard(card: ClientCard) returns (d: ClientData)
    ensures d.name == Strip(card.heading)
    ensures d.company == (if card.company.Some? then Strip(card.company.value) else "")
    ensures d.email == LastWith(card.infoItems, "Email")
    ensures d.phone == LastWith(card.infoItems, "Phone")
    ensures d.paymentTerms == LastWith(card.infoItems, "Payment Terms")
    ensures d.currency == CurrencyOf(card.statValue)
    ensures d.address == "" && d.taxId == "" && d.notes == ""
    ensures d.active <==> !card.inactive
  {
    var name := Strip(card.heading);
    var company := if card.company.Some? then Strip(card.company.value) else "";
    var email, phone, paymentTerms := "", "", "";
    var items := card.infoItems;
    for i := 0 to |items|
      invariant email == LastWith(items[..i], "Email")
      invariant phone == LastWith(items[..i], "Phone")
      invariant paymentTerms == LastWith(items[..i], "Payment Terms")
    {
      assert items[..i + 1][..i] == items[..i];
      var caption, value := Strip(items[i].labelText), Strip(items[i].value);
      if Contains(caption, "Email") { email := value; }
      if Contains(caption, "Phone") { phone := value; }
      if Contains(caption, "Payment Terms") { paymentTerms := value; }
    }
    assert items[..|items|] == items;
    d := ClientData(name, email, company, phone, "", "", paymentTerms, CurrencyOf(card.statValue), "", !card.inactive);
  }

  /** The first card with the id, if any. */
  function FindCard(cards: seq<ClientCard>, id: int): (r: Option<ClientCard>)
    ensures r.None? <==> forall i :: 0 <= i < |cards| ==> cards[i].id != id
    ensures r.Some? ==> r.value in cards && r.value.id == id
  {
    if cards == [] then None
    else if cards[0].id == id then Some(cards[0])
    else
      var r := FindCard(cards[1..], id);
      assert forall i :: 1 <= i < |cards| ==> cards[i] == cards[1..][i - 1];
      r
  }

  /** What `saveClient` does: refuse with an alert, or post the form to a URL. */
  datatype SaveOutcome = Refused(message: string) | Post(url: string, data: ClientData)

  class ClientForm {
    /** The values `form.reset()` restores. */
    const defaults: ClientData
    var currentClientId: Option<int>
    var fields: ClientData

    constructor (defaults: ClientData)
      ensures this.defaults == defaults && currentClientId.None? && fields == defaults
    {
      this.defaults := defaults;
      currentClientId := None;
      fields := defaults;
    }

    /** `openCreateClientModal`: nothing is being edited, the form is reset and "active" is ticked. */
    method OpenCreateClientModal()
      modifies this
      ensures currentClientId.None? && fields == defaults.(active := true)
    {
      currentClientId := None;
      fields := defaults.(active := true);
    }

    /** Typing into the form. */
    method Fill(data: ClientData)
      modifies this`fields
      ensures fields == data
    {
      fields := data;
    }

    /** `editClient`: without a card for the id an alert and no change; else the form shows the card's data. */
    method EditClient(cards: seq<ClientCard>, clientId: int) returns (alert: Option<string>)
      modifies this
      ensures FindCard(cards, clientId).None? ==>
                alert == Some("Client not found") && currentClientId == old(currentClientId) && fields == old(fields)
      ensures FindCard(cards, clientId).Some? ==> alert.None? && currentClientId == Some(clientId)
      ensures FindCard(cards, clientId).Some? ==> fields.address == "" && fields.taxId == "" && fields.notes == ""
      ensures FindCard(cards, clientId).Some? ==> fields.name == Strip(FindCard(cards, clientId).value.heading)
      ensures FindCard(cards, clientId).Some? ==> fields.email == LastWith(FindCard(cards, clientId).value.infoItems, "Email")
      ensures FindCard(cards, clientId).Some? ==>
                fields.company == (if FindCard(cards, clientId).value.company.Some? then Strip(FindCard(cards, clientId).value.company.value) else "")
      ensures FindCard(cards, clientId).Some? ==> fields.phone == LastWith(FindCard(cards, clientId).value.infoItems, "Phone")
      ensures FindCard(cards, clientId).Some? ==> fields.paymentTerms == LastWith(FindCard(cards, clientId).value.infoItems, "Payment Terms")
      ensures FindCard(cards, clientId).Some? ==> fields.currency == CurrencyOf(FindCard(cards, clientId).value.statValue)
      ensures FindCard(cards, clientId).Some? ==> (fields.active <==> !FindCard(cards, clientId).value.inactive)
    {
      var card := FindCard(cards, clientId);
      if card.None? {
        return Some("Client not found");
      }
      currentClientId := Some(clientId);
      var d := GetClientDataFromCard(card.value);
      fields := d.(currency := if d.currency == "" then "GBP" else d.currency);
      alert := None;
    }

    /** `saveClient`: a missing name or email is refused; otherwise the form goes to the edit or create URL. */
    method SaveClient() returns (outcome: SaveOutcome)
      ensures fields.name == "" || fields.email == "" ==> outcome == Refused("Name and email are required")
      ensures fields.name != "" && fields.email != "" ==> outcome == Post(SaveUrl("/clients/", currentClientId), fields)
    {
      if fields.name == "" || fields.email == "" {
        return Refused("Name and email are required");
      }
      var url := if currentClientId.Some? && currentClientId.value != 0
        then ActionUrl("/clients/", currentClientId.value, "edit")
        else "/clients/create/";
      outcome := Post(url, fields);
    }
  }

  /**
   * Editing a card and saving it unchanged posts to the card's edit URL, and
   * sends address, tax id and notes empty, since a card does not show them.
   */
  method EditThenSave(form: ClientForm, cards: seq<ClientCard>, k: int) returns (outcome: SaveOutcome)
    requires 0 <= k < |cards| && cards[k].id != 0
    requires forall i :: 0 <= i < k ==> cards[i].id != cards[k].id
    requires Strip(cards[k].heading) != "" && LastWith(cards[k].infoItems, "Email") != ""
    modifies form
    ensures outcome.Post? && outcome.url == ActionUrl("/clients/", cards[k].id, "edit")
    ensures outcome.data.address == "" && outcome.data.taxId == "" && outcome.data.notes == ""
  {
    FindCardFirst(cards, k);
    var alert := form.EditClient(cards, cards[k].id);
    outcome := form.SaveClient();
  }

  lemma {:induction false} FindCardFirst(cards: seq<ClientCard>, k: int)
    requires 0 <= k < |cards|
    requires forall i :: 0 <= i < k ==> cards[i].id != cards[k].id
    ensures FindCard(cards, cards[k].id) == Some(cards[k])
  {
    if k > 0 {
      assert cards[1..][k - 1] == cards[k];
      assert forall i :: 0 <= i < k - 1 ==> cards[1..][i] == cards[i + 1];
      FindCardFirst(cards[1..], k - 1);
    }
  }
}
