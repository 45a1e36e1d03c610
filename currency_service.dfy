/**
 * Exchange rates: the symbol table, the rate lookup with its fallback
 * chain (cache, stored rate for the date, the exchange-rate API for recent
 * dates, the latest stored rate, a bridge through USD, and finally 1),
 * conversion rounded to cents, and the daily refresh of every pair.
 *
 * The cache and the stored rates are the state of a `RateService`; the
 * exchange-rate API is a parameter giving the answer it would return for
 * a pair, none when the request fails.
 */
module CurrencyService {
  import opened Wrappers
  import opened Dates
  import opened Money

  /** The supported currencies, in the order the refresh pairs them. */
  const Codes: seq<string> := ["GBP", "USD", "EUR", "JPY", "AUD", "CAD", "CHF", "INR"]

  const Symbols: map<string, string> := map[
    "GBP" := "£", "USD" := "$", "EUR" := "€", "JPY" := "¥",
    "AUD" := "A$", "CAD" := "C$", "CHF" := "CHF ", "INR" := "₹"]

  /** `get_symbol`: the table's symbol; the empty string exactly for a code outside the table. */
  function GetSymbol(code: string): (s: string)
    ensures code in Codes ==> s == Symbols[code]
    ensures s == "" <==> code !in Codes
  {
    if code in Symbols then Symbols[code] else ""
  }

  /** No two supported currencies share a symbol. */
  lemma SymbolsDistinct(a: string, b: string)
    requires a in Codes && b in Codes && a != b
    ensures GetSymbol(a) != GetSymbol(b)
  {
  }

  datatype RateKey = RateKey(from: string, to: string, date: CalDate)

  /** A stored exchange rate. */
  datatype StoredRate = StoredRate(from: string, to: string, date: CalDate, rate: real)

  function KeyOf(r: StoredRate): RateKey { RateKey(r.from, r.to, r.date) }

  /** The answer the exchange-rate API gives for a pair; none when the request fails or the pair is missing. */
  type Api = (string, string) -> Option<real>

  /** `_fetch_from_api`: a zero rate counts as missing. */
  function Fetch(api: Api, from: string, to: string): (r: Option<real>)
    ensures r.Some? ==> r.value != 0.0 && api(from, to) == r
    ensures r.None? <==> api(from, to).None? || api(from, to).value == 0.0
  {
    match api(from, to)
    case Some(v) => if v == 0.0 then None else Some(v)
    case None => None
  }

  // ---------------------------------------------------------------- lookups in the stored rates

  /** The rate of the first stored row with the key. */
  function StoredOn(rows: seq<StoredRate>, key: RateKey): Option<real> {
    if rows == [] then None
    else if KeyOf(rows[0]) == key then Some(rows[0].rate)
    else StoredOn(rows[1..], key)
  }

  /** The lookup finds a rate exactly when a row has the key, and then it is the first such row's rate. */
  lemma {:induction false} StoredOnFinds(rows: seq<StoredRate>, key: RateKey)
    ensures StoredOn(rows, key).None? <==> forall i :: 0 <= i < |rows| ==> KeyOf(rows[i]) != key
    ensures StoredOn(rows, key).Some? ==>
      exists i :: (0 <= i < |rows| && KeyOf(rows[i]) == key
        && StoredOn(rows, key).value == rows[i].rate && forall j :: 0 <= j < i ==> KeyOf(rows[j]) != key)
  {
    if rows != [] && KeyOf(rows[0]) != key {
      StoredOnFinds(rows[1..], key);
      assert forall i :: 1 <= i < |rows| ==> rows[i] == rows[1..][i - 1];
      if StoredOn(rows, key).Some? {
        var i :| 0 <= i < |rows[1..]| && KeyOf(rows[1..][i]) == key
          && StoredOn(rows, key).value == rows[1..][i].rate && forall j :: 0 <= j < i ==> KeyOf(rows[1..][j]) != key;
        assert KeyOf(rows[i + 1]) == key;
      }
    } else if rows != [] {
      assert KeyOf(rows[0]) == key;
    }
  }

  predicate SamePair(x: StoredRate, from: string, to: string) { x.from == from && x.to == to }

  /** The most recently dated stored rate for the pair, the earliest stored among equally recent ones. */
  function LatestFor(rows: seq<StoredRate>, from: string, to: string): Option<StoredRate> {
    if rows == [] then None
    else
      var rest := LatestFor(rows[1..], from, to);
      if SamePair(rows[0], from, to) && (rest.None? || !Before(rows[0].date, rest.value.date)) then Some(rows[0])
      else rest
  }

  /** The latest rate is a stored rate of the pair dated no earlier than any other; there is one whenever the pair has any. */
  lemma {:induction false} LatestIsLatest(rows: seq<StoredRate>, from: string, to: string)
    ensures LatestFor(rows, from, to).None? <==> forall x :: x in rows ==> !SamePair(x, from, to)
    ensures LatestFor(rows, from, to).Some? ==>
      (LatestFor(rows, from, to).value in rows
       && SamePair(LatestFor(rows, from, to).value, from, to)
       && forall x :: x in rows && SamePair(x, from, to) ==> !Before(LatestFor(rows, from, to).value.date, x.date))
  {
    if rows != [] {
      LatestIsLatest(rows[1..], from, to);
      assert forall x :: x in rows ==> x == rows[0] || x in rows[1..];
    }
  }

  // ---------------------------------------------------------------- get_rate

  /** The rate cache and the stored rates. */
  datatype Store = Store(cache: map<RateKey, real>, rows: seq<StoredRate>)

  /** Where a rate came from. */
  datatype Source = SameCurrency | Cached | Stored | Fetched | Latest | Bridged | Fallback

  datatype Resolution = Resolution(rate: real, source: Source, store: Store)

  /** An API lookup is attempted only for dates at most seven days before today. */
  predicate Recent(d: CalDate, today: CalDate) {
    ToDays(d) >= ToDays(today) - 7
  }

  /** The rate of a pair neither of whose currencies is USD may be bridged through USD. */
  function BridgeDepth(from: string, to: string): nat {
    if from != "USD" && to != "USD" then 1 else 0
  }

  /**
   * `get_rate` on a store: the rate, where it came from, and the store
   * afterwards.
   */
  function Resolve(s: Store, from: string, to: string, d: CalDate, today: CalDate, api: Api): Resolution
    decreases BridgeDepth(from, to)
  {
    var key := RateKey(from, to, d);
    if from == to then Resolution(1.0, SameCurrency, s)
    else if key in s.cache then Resolution(s.cache[key], Cached, s)
    else
      var stored := StoredOn(s.rows, key);
      if stored.Some? then Resolution(stored.value, Stored, s.(cache := s.cache[key := stored.value]))
      else
        var fetched := if Recent(d, today) then Fetch(api, from, to) else None;
        if fetched.Some? then
          Resolution(fetched.value, Fetched, Store(s.cache[key := fetched.value], s.rows + [StoredRate(from, to, d, fetched.value)]))
        else
          var latest := LatestFor(s.rows, from, to);
          if latest.Some? then Resolution(latest.value.rate, Latest, s.(cache := s.cache[key := latest.value.rate]))
          else if from != "USD" && to != "USD" then
            var toUsd := Resolve(s, from, "USD", d, today, api);
            var fromUsd := Resolve(toUsd.store, "USD", to, d, today, api);
            Resolution(toUsd.rate * fromUsd.rate, Bridged, fromUsd.store)
          else Resolution(1.0, Fallback, s)
  }

  /** Same currency: 1 without any lookup. A cached rate: returned as is, nothing written. */
  lemma ResolveShortcuts(s: Store, from: string, to: string, d: CalDate, today: CalDate, api: Api)
    ensures from == to ==> Resolve(s, from, to, d, today, api) == Resolution(1.0, SameCurrency, s)
    ensures from != to && RateKey(from, to, d) in s.cache ==>
      Resolve(s, from, to, d, today, api) == Resolution(s.cache[RateKey(from, to, d)], Cached, s)
  {
  }

  /**
   * The order of the fallback chain: a stored rate for the date is used
   * when there is one; otherwise, for a recent date, the API's rate, which
   * is stored; otherwise the latest stored rate of the pair; and the
   * answer is 1 only when none exists and one side is USD.
   */
  lemma ResolveFallbackOrder(s: Store, from: string, to: string, d: CalDate, today: CalDate, api: Api)
    requires from != to && RateKey(from, to, d) !in s.cache
    ensures var r := Resolve(s, from, to, d, today, api);
      (r.source == Stored <==> exists i :: 0 <= i < |s.rows| && KeyOf(s.rows[i]) == RateKey(from, to, d))
      && (r.source == Fetched ==> Recent(d, today) && r.store.rows == s.rows + [StoredRate(from, to, d, r.rate)]
                                   && api(from, to) == Some(r.rate))
      && (r.source == Latest ==> !Recent(d, today) || Fetch(api, from, to).None?)
      && (r.source == Fallback <==> (from == "USD" || to == "USD") && r.source !in {Stored, Fetched, Latest})
      && (r.source == Fallback ==> r.rate == 1.0 && r.store == s && forall x :: x in s.rows ==> !SamePair(x, from, to))
  {
    StoredOnFinds(s.rows, RateKey(from, to, d));
    LatestIsLatest(s.rows, from, to);
  }

  /** The store only grows: cached rates are never replaced and stored rates are only appended. */
  predicate Grows(s: Store, t: Store) {
    (forall k :: k in s.cache ==> k in t.cache && t.cache[k] == s.cache[k]) && s.rows <= t.rows
  }

  /**
   * A lookup never replaces a cached rate nor removes a stored one, and a
   * rate found in the store or fetched ends up cached under its key.
   */
  lemma {:induction false} ResolveGrowsStore(s: Store, from: string, to: string, d: CalDate, today: CalDate, api: Api)
    ensures var r := Resolve(s, from, to, d, today, api);
      Grows(s, r.store)
      && (r.source in {Cached, Stored, Fetched, Latest} ==>
           RateKey(from, to, d) in r.store.cache && r.store.cache[RateKey(from, to, d)] == r.rate)
      && (r.source in {SameCurrency, Cached, Fallback} ==> r.store == s)
    decreases BridgeDepth(from, to)
  {
    var r := Resolve(s, from, to, d, today, api);
    if r.source == Bridged {
      var toUsd := Resolve(s, from, "USD", d, today, api);
      ResolveGrowsStore(s, from, "USD", d, today, api);
      ResolveGrowsStore(toUsd.store, "USD", to, d, today, api);
    }
  }

  /**
   * Only when neither side is USD is a pair bridged, and then its rate is
   * the product of the two legs' rates, each resolved without a further
   * bridge, the second on the store the first left.
   */
  lemma BridgeIsOneLevel(s: Store, from: string, to: string, d: CalDate, today: CalDate, api: Api)
    requires Resolve(s, from, to, d, today, api).source == Bridged
    ensures from != "USD" && to != "USD"
    ensures var toUsd := Resolve(s, from, "USD", d, today, api);
      var fromUsd := Resolve(toUsd.store, "USD", to, d, today, api);
      Resolve(s, from, to, d, today, api).rate == toUsd.rate * fromUsd.rate
      && toUsd.source != Bridged && fromUsd.source != Bridged
  {
  }

  /** Asking again for a rate that was not bridged gives the same rate. */
  lemma AskingAgainGivesSameRate(s: Store, from: string, to: string, d: CalDate, today: CalDate, api: Api)
    requires Resolve(s, from, to, d, today, api).source != Bridged
    ensures var first := Resolve(s, from, to, d, today, api);
      Resolve(first.store, from, to, d, today, api).rate == first.rate
  {
    ResolveGrowsStore(s, from, to, d, today, api);
  }

  // ---------------------------------------------------------------- refresh_rates

  /** A rate rounded half-even to six decimal places, as the reverse rates are stored. */
  function Quantize6(x: real): (q: real)
    ensures 2.0 * Abs(x * 1000000.0 - q * 1000000.0) <= 1.0
  {
    RoundHalfEven(x * 1000000.0) as real / 1000000.0
  }

  /** `update_or_create` on the key of `row`: replace the stored rate with that key, or add it. */
  function Upsert(rows: seq<StoredRate>, row: StoredRate): seq<StoredRate> {
    if rows == [] then [row]
    else if KeyOf(rows[0]) == KeyOf(row) then [row] + rows[1..]
    else [rows[0]] + Upsert(rows[1..], row)
  }

  /** After an upsert the row is stored, rows under other keys stay, and nothing else appears. */
  lemma {:induction false} UpsertStores(rows: seq<StoredRate>, row: StoredRate)
    ensures row in Upsert(rows, row)
    ensures forall x :: x in rows && KeyOf(x) != KeyOf(row) ==> x in Upsert(rows, row)
    ensures forall x :: x in Upsert(rows, row) ==> x == row || x in rows
  {
    if rows != [] && KeyOf(rows[0]) != KeyOf(row) {
      UpsertStores(rows[1..], row);
      assert forall x :: x in rows ==> x == rows[0] || x in rows[1..];
    }
  }

  /** The pairs (i, j) with i fixed and j counting up from `j` to n - 1. */
  function PairsWith(i: nat, j: nat, n: nat): seq<(nat, nat)>
    decreases n - j
  {
    if j >= n then [] else [(i, j)] + PairsWith(i, j + 1, n)
  }

  /** `itertools.combinations(range(n), 2)` from first index `i` on: the pairs i <= a < b < n in lexicographic order. */
  function Combinations(i: nat, n: nat): seq<(nat, nat)>
    decreases n - i
  {
    if i >= n then [] else PairsWith(i, i + 1, n) + Combinations(i + 1, n)
  }

  lemma {:induction false} PairsWithMembers(i: nat, j: nat, n: nat)
    ensures |PairsWith(i, j, n)| == if j < n then n - j else 0
    ensures forall p :: p in PairsWith(i, j, n) <==> p.0 == i && j <= p.1 < n
    decreases n - j
  {
    if j < n {
      PairsWithMembers(i, j + 1, n);
    }
  }

  /** The combinations hold exactly the ordered pairs of indices. */
  lemma {:induction false} CombinationsMembers(i: nat, n: nat)
    ensures forall p :: p in Combinations(i, n) <==> i <= p.0 < p.1 < n
    decreases n - i
  {
    if i < n {
      PairsWithMembers(i, i + 1, n);
      CombinationsMembers(i + 1, n);
    }
  }

  /** 0 + 1 + ... + (m - 1): the number of unordered pairs of m things. */
  function Triangle(m: nat): nat {
    if m == 0 then 0 else (m - 1) + Triangle(m - 1)
  }

  lemma {:induction false} CombinationsCount(i: nat, n: nat)
    requires i <= n
    ensures |Combinations(i, n)| == Triangle(n - i)
    decreases n - i
  {
    if i < n {
      PairsWithMembers(i, i + 1, n);
      CombinationsCount(i + 1, n);
    }
  }

  lemma {:induction false} PairsWithIncrease(i: nat, j: nat, n: nat, a: nat, b: nat)
    requires a < b < |PairsWith(i, j, n)|
    ensures PairsWith(i, j, n)[a].1 < PairsWith(i, j, n)[b].1
    decreases n - j
  {
    var r := PairsWith(i, j, n);
    PairsWithMembers(i, j + 1, n);
    if a == 0 {
      assert r[b] in PairsWith(i, j + 1, n);
    } else {
      PairsWithIncrease(i, j + 1, n, a - 1, b - 1);
    }
  }

  /** The combinations are listed without repetition. */
  lemma {:induction false} CombinationsDistinct(i: nat, n: nat, a: nat, b: nat)
    requires a < b < |Combinations(i, n)|
    ensures Combinations(i, n)[a] != Combinations(i, n)[b]
    decreases n - i
  {
    var row := PairsWith(i, i + 1, n);
    var rest := Combinations(i + 1, n);
    assert Combinations(i, n) == row + rest;
    if b < |row| {
      PairsWithIncrease(i, i + 1, n, a, b);
    } else if a >= |row| {
      CombinationsDistinct(i + 1, n, a - |row|, b - |row|);
    } else {
      PairsWithMembers(i, i + 1, n);
      CombinationsMembers(i + 1, n);
      assert row[a] in row;
      assert rest[b - |row|] in rest;
    }
  }

  /** Index pairs named by codes. */
  function Named(codes: seq<string>, ps: seq<(nat, nat)>): (r: seq<(string, string)>)
    requires forall p :: p in ps ==> p.0 < |codes| && p.1 < |codes|
    ensures |r| == |ps|
    ensures forall k :: 0 <= k < |ps| ==> r[k] == (codes[ps[k].0], codes[ps[k].1])
  {
    if ps == [] then [] else [(codes[ps[0].0], codes[ps[0].1])] + Named(codes, ps[1..])
  }

  /** `combinations(codes, 2)`: every unordered pair of the codes, in the order itertools lists them. */
  function CodePairs(codes: seq<string>): seq<(string, string)> {
    CombinationsMembers(0, |codes|);
    Named(codes, Combinations(0, |codes|))
  }

  /** No pair is listed twice, in either orientation, and no code is paired with itself. */
  predicate UnorderedDistinct(pairs: seq<(string, string)>) {
    (forall k :: 0 <= k < |pairs| ==> pairs[k].0 != pairs[k].1)
    && forall a, b :: 0 <= a < b < |pairs| ==> pairs[a] != pairs[b] && pairs[a] != (pairs[b].1, pairs[b].0)
  }

  predicate DistinctCodes(codes: seq<string>) {
    forall i, j :: 0 <= i < |codes| && 0 <= j < |codes| && i != j ==> codes[i] != codes[j]
  }

  /** Two different ordered index pairs over distinct codes name different pairs, in either orientation. */
  lemma NamedPairsDiffer(codes: seq<string>, p: (nat, nat), q: (nat, nat))
    requires DistinctCodes(codes)
    requires p.0 < p.1 < |codes| && q.0 < q.1 < |codes| && p != q
    ensures (codes[p.0], codes[p.1]) != (codes[q.0], codes[q.1])
    ensures (codes[p.0], codes[p.1]) != (codes[q.1], codes[q.0])
  {
    if p.0 != q.0 {
      assert codes[p.0] != codes[q.0];
    } else {
      assert codes[p.1] != codes[q.1];
    }
    if p.0 != q.1 {
      assert codes[p.0] != codes[q.1];
    } else {
      assert codes[p.1] != codes[q.0];
    }
  }

  /** Distinct codes give distinct unordered pairs. */
  lemma CodePairsDistinct(codes: seq<string>)
    requires DistinctCodes(codes)
    ensures UnorderedDistinct(CodePairs(codes))
  {
    var ps := Combinations(0, |codes|);
    var pairs := CodePairs(codes);
    CombinationsMembers(0, |codes|);
    forall k | 0 <= k < |pairs| ensures pairs[k].0 != pairs[k].1 {
      assert ps[k] in ps;
    }
    forall a, b | 0 <= a < b < |pairs| ensures pairs[a] != pairs[b] && pairs[a] != (pairs[b].1, pairs[b].0) {
      assert ps[a] in ps && ps[b] in ps;
      CombinationsDistinct(0, |codes|, a, b);
      NamedPairsDiffer(codes, ps[a], ps[b]);
    }
  }

  /** The eight supported codes differ from one another. */
  lemma CodesDistinct()
    ensures DistinctCodes(Codes)
  {
    forall i, j | 0 <= i < |Codes| && 0 <= j < |Codes| && i != j
      ensures Codes[i] != Codes[j]
    {
      assert Codes[i][0] != Codes[j][0] || Codes[i][1] != Codes[j][1];
    }
  }

  /** The refresh visits 28 pairs, no pair twice: every unordered pair of the eight currencies. */
  lemma TwentyEightPairs()
    ensures |CodePairs(Codes)| == 28
    ensures UnorderedDistinct(CodePairs(Codes))
  {
    var n := |Codes|;
    CombinationsCount(0, n);
    assert Triangle(n) == 28 by {
      assert n == 8;
    }
    CodesDistinct();
    CodePairsDistinct(Codes);
  }

  /** The number of the first k pairs the API gives a rate for. */
  function Successes(pairs: seq<(string, string)>, api: Api, k: nat): (n: nat)
    requires k <= |pairs|
    ensures n <= k
  {
    if k == 0 then 0 else Successes(pairs, api, k - 1) + (if Fetch(api, pairs[k - 1].0, pairs[k - 1].1).Some? then 1 else 0)
  }

  /** One pair of the refresh: with a rate from the API, today's forward rate and its rounded reciprocal are upserted. */
  function RefreshPair(rows: seq<StoredRate>, from: string, to: string, api: Api, today: CalDate): seq<StoredRate> {
    match Fetch(api, from, to)
    case None => rows
    case Some(rate) => Upsert(Upsert(rows, StoredRate(from, to, today, rate)), StoredRate(to, from, today, Quantize6(1.0 / rate)))
  }

  /** A refreshed pair has both directions stored, and rates under other keys stay. */
  lemma RefreshPairStores(rows: seq<StoredRate>, from: string, to: string, api: Api, today: CalDate)
    ensures Fetch(api, from, to).None? ==> RefreshPair(rows, from, to, api, today) == rows
    ensures Fetch(api, from, to).Some? && from != to ==>
      var rate := Fetch(api, from, to).value;
      var r := RefreshPair(rows, from, to, api, today);
      StoredRate(from, to, today, rate) in r && StoredRate(to, from, today, Quantize6(1.0 / rate)) in r
    ensures forall x :: x in rows && KeyOf(x) != RateKey(from, to, today) && KeyOf(x) != RateKey(to, from, today) ==>
      x in RefreshPair(rows, from, to, api, today)
  {
    if Fetch(api, from, to).Some? {
      var rate := Fetch(api, from, to).value;
      var forward := StoredRate(from, to, today, rate);
      var once := Upsert(rows, forward);
      UpsertStores(rows, forward);
      UpsertStores(once, StoredRate(to, from, today, Quantize6(1.0 / rate)));
    }
  }

  /** The stored rates after refreshing the first k pairs on `today`. */
  function RefreshedRows(rows: seq<StoredRate>, pairs: seq<(string, string)>, api: Api, today: CalDate, k: nat): seq<StoredRate>
    requires k <= |pairs|
  {
    if k == 0 then rows
    else RefreshPair(RefreshedRows(rows, pairs, api, today, k - 1), pairs[k - 1].0, pairs[k - 1].1, api, today)
  }

  /**
   * After refreshing the first k of a list of distinct pairs, today's rate
   * of every pair the API answered is stored in both directions: the
   * forward rate as fetched and the reverse one as its reciprocal rounded
   * to six places. Later pairs never overwrite an earlier pair's rates.
   */
  lemma {:induction false} RefreshStoresBothDirections(rows: seq<StoredRate>, pairs: seq<(string, string)>, api: Api, today: CalDate, k: nat, m: nat)
    requires UnorderedDistinct(pairs)
    requires m < k <= |pairs|
    requires Fetch(api, pairs[m].0, pairs[m].1).Some?
    ensures var from, to := pairs[m].0, pairs[m].1;
      var rate := Fetch(api, from, to).value;
      var after := RefreshedRows(rows, pairs, api, today, k);
      StoredRate(from, to, today, rate) in after && StoredRate(to, from, today, Quantize6(1.0 / rate)) in after
  {
    var from, to := pairs[m].0, pairs[m].1;
    var rate := Fetch(api, from, to).value;
    var before := RefreshedRows(rows, pairs, api, today, k - 1);
    var f, t := pairs[k - 1].0, pairs[k - 1].1;
    assert RefreshedRows(rows, pairs, api, today, k) == RefreshPair(before, f, t, api, today);
    RefreshPairStores(before, f, t, api, today);
    if k - 1 != m {
      RefreshStoresBothDirections(rows, pairs, api, today, k - 1, m);
      assert pairs[m] != pairs[k - 1] && pairs[m] != (t, f);
      assert KeyOf(StoredRate(from, to, today, rate)) != RateKey(f, t, today);
      assert KeyOf(StoredRate(from, to, today, rate)) != RateKey(t, f, today);
      assert KeyOf(StoredRate(to, from, today, Quantize6(1.0 / rate))) != RateKey(f, t, today);
      assert KeyOf(StoredRate(to, from, today, Quantize6(1.0 / rate))) != RateKey(t, f, today);
    }
  }

  /** An amount converted at a rate, rounded half-even to the cent. */
  function AtRate(amount: real, rate: real): real {
    Pence(Quantize2(amount * rate))
  }

  /** A converted amount is within half a cent of the exact one. */
  lemma CentsWithinHalfCent(amount: real, rate: real)
    ensures 2.0 * Abs(amount * rate - AtRate(amount, rate)) <= 0.01
  {
    var x := amount * rate;
    var p := Quantize2(x);
    assert Pence(p) * 100.0 == p as real;
    assert x - Pence(p) == (x * 100.0 - p as real) / 100.0;
  }

  /** The rate service: the rate cache and the stored rates. */
  class RateService {
    var cache: map<RateKey, real>
    var rows: seq<StoredRate>

    constructor(rows: seq<StoredRate>)
      ensures cache == map[] && this.rows == rows
    {
      cache := map[];
      this.rows := rows;
    }

    /**
     * `get_rate`: the rate for the date (today when none is given), with
     * the cache and stored rates updated as `Resolve` describes.
     */
    method GetRate(from: string, to: string, date: Option<CalDate>, today: CalDate, api: Api) returns (rate: real)
      modifies this
      ensures var r := Resolve(old(Store(cache, rows)), from, to, date.GetOr(today), today, api);
        rate == r.rate && Store(cache, rows) == r.store
      decreases BridgeDepth(from, to)
    {
      if from == to {
        return 1.0;
      }
      var d := date.GetOr(today);
      var key := RateKey(from, to, d);
      if key in cache {
        return cache[key];
      }
      var stored := StoredOn(rows, key);
      if stored.Some? {
        cache := cache[key := stored.value];
        return stored.value;
      }
      if Recent(d, today) {
        var fetched := Fetch(api, from, to);
        if fetched.Some? {
          rows := rows + [StoredRate(from, to, d, fetched.value)];
          cache := cache[key := fetched.value];
          return fetched.value;
        }
      }
      var latest := LatestFor(rows, from, to);
      if latest.Some? {
        cache := cache[key := latest.value.rate];
        return latest.value.rate;
      }
      if from != "USD" && to != "USD" {
        var toUsd := GetRate(from, "USD", Some(d), today, api);
        var fromUsd := GetRate("USD", to, Some(d), today, api);
        return toUsd * fromUsd;
      }
      return 1.0;
    }

    /**
     * `convert`: the amount itself for the same currency, otherwise the
     * amount times the rate rounded half-even to the cent (within half a
     * cent of the exact product, by `CentsWithinHalfCent`).
     */
    method Convert(amount: real, from: string, to: string, date: Option<CalDate>, today: CalDate, api: Api)
      returns (converted: real)
      modifies this
      ensures from == to ==> converted == amount && cache == old(cache) && rows == old(rows)
      ensures from != to ==> converted == AtRate(amount, Resolve(old(Store(cache, rows)), from, to, date.GetOr(today), today, api).rate)
      ensures from != to ==> Store(cache, rows) == Resolve(old(Store(cache, rows)), from, to, date.GetOr(today), today, api).store
    {
      if from == to {
        return amount;
      }
      ghost var s0 := Store(cache, rows);
      var rate := GetRate(from, to, date, today, api);
      converted := AtRate(amount, rate);
      assert s0 == old(Store(cache, rows));
    }

    /**
     * `refresh_rates`: for each unordered pair of the supported
     * currencies, a rate from the API is stored for today in both
     * directions and counts two refreshed; a failure counts one error, so
     * the refreshed pairs and the errors add up to 28. The cache is left
     * alone.
     */
    method RefreshRates(today: CalDate, api: Api) returns (refreshed: nat, errors: nat)
      modifies this
      ensures rows == RefreshedRows(old(rows), CodePairs(Codes), api, today, |CodePairs(Codes)|)
      ensures refreshed == 2 * Successes(CodePairs(Codes), api, |CodePairs(Codes)|)
      ensures refreshed % 2 == 0 && refreshed / 2 + errors == 28
      ensures cache == old(cache)
    {
      TwentyEightPairs();
      refreshed, errors := RefreshPairs(CodePairs(Codes), today, api);
    }

    /** The loop of `refresh_rates` over a list of currency pairs. */
    method RefreshPairs(pairs: seq<(string, string)>, today: CalDate, api: Api) returns (refreshed: nat, errors: nat)
      modifies this
      ensures rows == RefreshedRows(old(rows), pairs, api, today, |pairs|)
      ensures refreshed == 2 * Successes(pairs, api, |pairs|) && errors == |pairs| - Successes(pairs, api, |pairs|)
      ensures cache == old(cache)
    {
      refreshed, errors := 0, 0;
      for k := 0 to |pairs|
        invariant rows == RefreshedRows(old(rows), pairs, api, today, k)
        invariant refreshed == 2 * Successes(pairs, api, k) && errors == k - Successes(pairs, api, k)
        invariant cache == old(cache)
      {
        var from, to := pairs[k].0, pairs[k].1;
        var fetched := Fetch(api, from, to);
        if fetched.Some? {
          var rate := fetched.value;
          rows := Upsert(rows, StoredRate(from, to, today, rate));
          rows := Upsert(rows, StoredRate(to, from, today, Quantize6(1.0 / rate)));
          refreshed := refreshed + 2;
        } else {
          errors := errors + 1;
        }
      }
    }
  }
}
