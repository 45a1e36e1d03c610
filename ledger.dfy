/**
 * The transaction record the budget, recurrence, project, import and
 * dashboard code reads and writes. Amounts are decimals with two places,
 * carried as integer pence. The model does not constrain the sign; the
 * write paths modelled here store the magnitude, and the direction says
 * which way the money went.
 */
module Ledger {
  import opened Wrappers
  import opened Dates

  datatype Direction = Inflow | Outflow

  /** The direction's stored value, `inflow` or `outflow`. */
  function DirectionName(d: Direction): string {
    match d
    case Inflow => "inflow"
    case Outflow => "outflow"
  }

  /** The stored value read back: `inflow` and `outflow` only. */
  function ParseDirection(s: string): (r: Option<Direction>)
    ensures r.Some? ==> DirectionName(r.value) == s
    ensures forall d :: DirectionName(d) == s ==> r == Some(d)
  {
    if s == "inflow" then Some(Inflow)
    else if s == "outflow" then Some(Outflow)
    else None
  }

  datatype Transaction = Transaction(
    user: nat,
    org: Option<nat>,
    date: CalDate,
    description: string,
    amount: int,
    direction: Direction,
    labelId: Option<nat>,
    category: string,
    subcategory: string,
    account: string,
    source: string)
}
