/**
 * The currency template tags: the organisation's symbol and code with the
 * pound as default, an amount rendered behind a symbol with thousands
 * separators and two decimals, an amount shown in the organisation's
 * currency (converting, and for `currency_amount` also showing the
 * original), and the absolute-value filter.
 *
 * A template value reaches the tags as the result of `Decimal(str(value))`:
 * `Some(x)` when that succeeds and `None` when it raises. The organisation
 * on the request is its preferred currency and its symbol.
 */
module CurrencyTags {
  import opened Wrappers
  import opened Dates
  import opened Money
  import opened Strings
  import opened CurrencyService

  /** The organisation on the request, as the tags see it. */
  datatype OrgCurrency = OrgCurrency(code: string, symbol: string)

  /** `org_currency`: the organisation's preferred currency, GBP without one. */
  function OrgCurrencyCode(org: Option<OrgCurrency>): (c: string)
    ensures org.Some? ==> c == org.value.code
    ensures org.None? ==> c in Codes && GetSymbol(c) == "£"
  {
    if org.Some? then org.value.code else "GBP"
  }

  /** `currency_symbol`: the organisation's symbol; without one, the symbol of the default currency. */
  function CurrencySymbol(org: Option<OrgCurrency>): (s: string)
    ensures org.Some? ==> s == org.value.symbol
    ensures org.None? ==> s == GetSymbol(OrgCurrencyCode(org))
  {
    if org.Some? then org.value.symbol else "£"
  }

  /** `f'{symbol}{amount:,.2f}'`, or `f'{symbol}0.00'` when the amount could not be read. */
  function Render(symbol: string, amount: Option<real>): (r: string)
    ensures |r| >= |symbol| + 4 && r[..|symbol|] == symbol && r[|r| - 3] == '.'
    ensures amount.Some? && amount.value < 0.0 ==> r[|symbol|] == '-'
  {
    var body := if amount.Some? then Format2(amount.value) else "0.00";
    assert (symbol + body)[..|symbol|] == symbol;
    symbol + body
  }

  /** An amount that cannot be read renders exactly as zero does. */
  lemma UnreadableRendersAsZero(symbol: string)
    ensures Render(symbol, None) == Render(symbol, Some(0.0))
  {
    assert Quantize2(0.0) == 0 by {
      RoundHalfEvenOfInteger(0);
    }
    assert Group(NatToString(0)) == "0";
    assert TwoDigits(0) == "00";
    assert FormatPence(0) == "0.00";
    assert Format2(0.0) == "0.00";
  }

  /** `currency_format`: the code's symbol (empty for an unknown code) and the amount. */
  function CurrencyFormat(value: Option<real>, code: string): (r: string)
    ensures code !in Codes ==> r == Render("", value)
  {
    Render(GetSymbol(code), value)
  }

  /**
   * A pound amount rendered by `currency_format` is read back by the amount
   * cleaning of uploads and manual entry as the amount rounded half-even
   * to the penny, which is within half a penny of it.
   */
  lemma CurrencyFormatReadsBack(x: real)
    ensures ParseDecimal(CleanAmount(CurrencyFormat(Some(x), "GBP"))) == Some(Pence(Quantize2(x)))
    ensures 2.0 * Abs(x - Pence(Quantize2(x))) <= 0.01
  {
    assert GetSymbol("GBP") == "£";
    Format2ReadsBack(x, CurrencyFormat(Some(x), "GBP"), Quantize2(x));
  }

  /** The muted parenthesised converted amount that follows the original in `currency_amount`. */
  function Converted(symbol: string, converted: real): string {
    " <span class=\"text-muted small\">(" + Render(symbol, Some(converted)) + ")</span>"
  }

  /**
   * `currency_amount`. Without an organisation: the pound rendering (zero
   * when unreadable). With one, a missing original currency (`original` is
   * "") is the organisation's; an unreadable amount makes the tag raise
   * (None), since the fallback formats the raw value again; the same
   * currency shows the organisation's symbol and the amount; a different
   * one shows the original rendering followed by the converted amount,
   * and the conversion updates the rate store as `Resolve` describes.
   */
  method CurrencyAmount(svc: RateService, org: Option<OrgCurrency>, amount: Option<real>, original: string,
                        today: CalDate, api: Api) returns (r: Option<string>)
    modifies svc
    ensures org.None? ==> r == Some(Render(GetSymbol("GBP"), amount)) && unchanged(svc)
    ensures org.Some? && amount.None? ==> r.None? && unchanged(svc)
    ensures org.Some? && amount.Some? && (original == "" || original == org.value.code) ==>
      r == Some(Render(org.value.symbol, amount)) && unchanged(svc)
    ensures org.Some? && amount.Some? && original != "" && original != org.value.code ==>
      var res := Resolve(old(Store(svc.cache, svc.rows)), original, org.value.code, today, today, api);
      r == Some(Render(GetSymbol(original), amount) + Converted(org.value.symbol, AtRate(amount.value, res.rate)))
      && Store(svc.cache, svc.rows) == res.store
  {
    if org.None? {
      return Some(Render(GetSymbol("GBP"), amount));
    }
    var orgCode, orgSymbol := org.value.code, org.value.symbol;
    var from := if original == "" then orgCode else original;
    if amount.None? {
      return None;
    }
    if from == orgCode {
      return Some(Render(orgSymbol, amount));
    }
    var converted := svc.Convert(amount.value, from, orgCode, None, today, api);
    r := Some(Render(GetSymbol(from), amount) + Converted(orgSymbol, converted));
  }

  /**
   * `display_amount_in_org_currency`. Without an organisation: the amount
   * behind the symbol of `from` (zero when unreadable). With one: an
   * unreadable amount makes the tag raise (None); the same currency shows
   * the amount, a different one the converted amount, both behind the
   * organisation's symbol.
   */
  method DisplayAmountInOrgCurrency(svc: RateService, org: Option<OrgCurrency>, amount: Option<real>, from: string,
                                    today: CalDate, api: Api) returns (r: Option<string>)
    modifies svc
    ensures org.None? ==> r == Some(Render(GetSymbol(from), amount)) && unchanged(svc)
    ensures org.Some? && amount.None? ==> r.None? && unchanged(svc)
    ensures org.Some? && amount.Some? && from == org.value.code ==>
      r == Some(Render(org.value.symbol, amount)) && unchanged(svc)
    ensures org.Some? && amount.Some? && from != org.value.code ==>
      var res := Resolve(old(Store(svc.cache, svc.rows)), from, org.value.code, today, today, api);
      r == Some(Render(org.value.symbol, Some(AtRate(amount.value, res.rate))))
      && Store(svc.cache, svc.rows) == res.store
  {
    if org.None? {
      return Some(Render(GetSymbol(from), amount));
    }
    if amount.None? {
      return None;
    }
    if from == org.value.code {
      return Some(Render(org.value.symbol, amount));
    }
    var converted := svc.Convert(amount.value, from, org.value.code, None, today, api);
    r := Some(Render(org.value.symbol, Some(converted)));
  }

  /** A template value: a number, or anything `abs` refuses. */
  datatype TemplateValue = Number(x: real) | NonNumber(text: string)

  /** `abs_value`: the magnitude of a number; any other value comes back unchanged. */
  function AbsValue(v: TemplateValue): (r: TemplateValue)
    ensures v.Number? ==> r.Number? && r.x >= 0.0 && (r.x == v.x || r.x == -v.x)
    ensures v.NonNumber? ==> r == v
  {
    match v
    case Number(x) => Number(Abs(x))
    case NonNumber(_) => v
  }

  /** Taking the absolute value twice changes nothing more. */
  lemma AbsValueIdempotent(v: TemplateValue)
    ensures AbsValue(AbsValue(v)) == AbsValue(v)
  {
  }
}
