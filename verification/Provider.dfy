/** The exchange-rates provider: one response, three ways to a rate, and the price laws that follow. */
module Provider {
  import opened Prelude
  import opened Tables
  import opened Rounding

  datatype ApiError = ApiError(code: int, info: string)

  datatype ApiResponse = ApiResponse(success: bool, timestamp: int, base: string, rates: map<string, real>,
      error: Option<ApiError>)

  const SUPPORTED: set<string> := {"USD", "EUR", "MXN"}

  predicate Upper(s: string) { forall i :: 0 <= i < |s| ==> 'A' <= s[i] <= 'Z' }

  /** Three capitals, a slash, three capitals; both supported; not the same. */
  predicate ValidatePair(p: string) {
    && |p| == 7 && p[3] == '/' && Upper(p[..3]) && Upper(p[4..])
    && p[..3] in SUPPORTED && p[4..] in SUPPORTED && p[..3] != p[4..]
  }

  /** The rate when the response has no key for the pair itself. */
  function CrossRate(res: ApiResponse, base: string, quote: string): Result<real> {
    if res.base == base then
      if quote !in res.rates then Err("missing rate") else Ok(res.rates[quote])
    else if res.base == quote then
      if base !in res.rates || res.rates[base] == 0.0 then Err("missing or zero rate") else Ok(1.0 / res.rates[base])
    else
      if quote !in res.rates || base !in res.rates || res.rates[base] == 0.0 then Err("missing rates")
      else Ok(res.rates[quote] / res.rates[base])
  }

  /** An exact key for the pair wins over the cross rate. */
  function RateFor(res: ApiResponse, pair: string, base: string, quote: string): Result<real> {
    if pair in res.rates then Ok(res.rates[pair]) else CrossRate(res, base, quote)
  }

  /** Get after the request: `reply` is what the HTTP call decoded, or its error. */
  function Get(pair: string, reply: Result<ApiResponse>): Result<Quote> {
    if !ValidatePair(pair) then Err("invalid pair") else
    match reply
    case Err(e) => Err(e)
    case Ok(res) =>
      if !res.success || res.error.Some? then Err("api error")
      else
        match RateFor(res, pair, pair[..3], pair[4..])
        case Err(e) => Err(e)
        case Ok(rate) => Ok(Quote(pair, rate, res.timestamp * 1_000_000_000))
  }

  /** Every fetch answers for the pair it was asked for, at the response's whole second. */
  lemma GetAnswersThePair(pair: string, reply: Result<ApiResponse>)
    ensures Get(pair, reply).Ok? ==>
      && ValidatePair(pair) && reply.Ok? && reply.value.success && reply.value.error.None?
      && Get(pair, reply).value.pair == pair
      && ToMicros(Get(pair, reply).value.at) == reply.value.timestamp * 1_000_000
  {
  }

  /** The pair of two different currencies of the three there are. */
  predicate Joins(p: string, base: string, quote: string) {
    && (base == "USD" || base == "EUR" || base == "MXN")
    && (quote == "USD" || quote == "EUR" || quote == "MXN")
    && base != quote && p == base + "/" + quote
  }

  /** The valid pairs are exactly those. */
  lemma ValidPairs(p: string)
    ensures ValidatePair(p) <==> exists base, quote :: Joins(p, base, quote)
  {
    if ValidatePair(p) {
      assert p == p[..3] + "/" + p[4..];
      assert Joins(p, p[..3], p[4..]);
    }
    if base, quote :| Joins(p, base, quote) {
      assert p[..3] == base && p[4..] == quote;
    }
  }

  /** An exact-pair key is the answer, whatever else the response holds or lacks. */
  lemma ExactKeyAnswers(res: ApiResponse, pair: string)
    requires ValidatePair(pair) && res.success && res.error.None? && pair in res.rates
    ensures Get(pair, Ok(res)) == Ok(Quote(pair, res.rates[pair], res.timestamp * 1_000_000_000))
  {
  }

  /** When Get answers at all, and what; a failed request's error is passed on. */
  lemma GetExactly(pair: string, reply: Result<ApiResponse>)
    ensures !ValidatePair(pair) ==> Get(pair, reply) == Err("invalid pair")
    ensures ValidatePair(pair) && reply.Err? ==> Get(pair, reply) == Err(reply.error)
    ensures Get(pair, reply).Ok? <==>
      && ValidatePair(pair) && reply.Ok? && reply.value.success && reply.value.error.None?
      && var (res, base, quote) := (reply.value, pair[..3], pair[4..]);
      pair in res.rates || (Known(res, base) && Known(res, quote) && Value(res, base) != 0.0)
    ensures Get(pair, reply).Ok? ==>
      var (res, base, quote) := (reply.value, pair[..3], pair[4..]);
      Get(pair, reply).value == Quote(pair,
        if pair in res.rates then res.rates[pair] else Value(res, quote) / Value(res, base),
        res.timestamp * 1_000_000_000)
  {
    if ValidatePair(pair) && reply.Ok? {
      CrossIsRatio(reply.value, pair[..3], pair[4..]);
    }
  }

  // ----- one formula -----

  /** Units of currency c for one unit of the response's base. */
  predicate Known(res: ApiResponse, c: string) { c == res.base || c in res.rates }

  function Value(res: ApiResponse, c: string): real
    requires Known(res, c)
  {
    if c == res.base then 1.0 else res.rates[c]
  }

  /** All three branches are one ratio, and they fail exactly when it is undefined. */
  lemma CrossIsRatio(res: ApiResponse, base: string, quote: string)
    requires base != quote
    ensures CrossRate(res, base, quote).Ok? <==> Known(res, base) && Known(res, quote) && Value(res, base) != 0.0
    ensures CrossRate(res, base, quote).Ok? ==>
      CrossRate(res, base, quote).value == Value(res, quote) / Value(res, base)
  {
  }

  // ----- no arbitrage -----

  function PairOf(base: string, quote: string): string { base + "/" + quote }

  predicate Priced(res: ApiResponse, c: string) { c in SUPPORTED && Known(res, c) && Value(res, c) != 0.0 }

  /** The response prices both currencies. */
  predicate Quoted(res: ApiResponse, base: string, quote: string) {
    res.success && res.error.None? && Priced(res, base) && Priced(res, quote) && base != quote
  }

  /** An exact-pair key, if there is one, agrees with the rest of the table. */
  predicate Agrees(res: ApiResponse, base: string, quote: string)
    requires Quoted(res, base, quote)
  {
    PairOf(base, quote) in res.rates ==>
      res.rates[PairOf(base, quote)] * Value(res, base) == Value(res, quote)
  }

  /** By what factor an exact-pair key departs from the table. */
  function Skew(res: ApiResponse, base: string, quote: string): real
    requires Quoted(res, base, quote)
  {
    if PairOf(base, quote) in res.rates then res.rates[PairOf(base, quote)] * Value(res, base) / Value(res, quote)
    else 1.0
  }

  lemma SplitPair(base: string, quote: string)
    requires |base| == 3 && |quote| == 3
    ensures |PairOf(base, quote)| == 7 && PairOf(base, quote)[3] == '/'
    ensures PairOf(base, quote)[..3] == base && PairOf(base, quote)[4..] == quote
  {
  }

  lemma PairIsValid(base: string, quote: string)
    requires base in SUPPORTED && quote in SUPPORTED && base != quote
    ensures |base| == 3 && |quote| == 3 && ValidatePair(PairOf(base, quote))
  {
    SplitPair(base, quote);
  }

  lemma DivMul(a: real, b: real)
    requires b != 0.0
    ensures (a / b) * b == a
  {
  }

  lemma CrossCarries(res: ApiResponse, base: string, quote: string)
    requires base != quote && Known(res, base) && Known(res, quote) && Value(res, base) != 0.0
    ensures CrossRate(res, base, quote).Ok?
    ensures CrossRate(res, base, quote).value * Value(res, base) == Value(res, quote)
  {
    CrossIsRatio(res, base, quote);
    DivMul(Value(res, quote), Value(res, base));
  }

  predicate Rated(res: ApiResponse, base: string, quote: string, rate: real) {
    Quoted(res, base, quote) && RateFor(res, PairOf(base, quote), base, quote) == Ok(rate)
  }

  /** `skew` is the factor by which the leg's rate departs from the table. */
  predicate Departs(res: ApiResponse, base: string, quote: string, skew: real) {
    Quoted(res, base, quote) &&
    if PairOf(base, quote) in res.rates
    then skew * Value(res, quote) == res.rates[PairOf(base, quote)] * Value(res, base)
    else skew == 1.0
  }

  function LegSkew(res: ApiResponse, base: string, quote: string): real {
    if Quoted(res, base, quote) then Skew(res, base, quote) else 0.0
  }

  lemma SkewDeparts(res: ApiResponse, base: string, quote: string)
    requires Quoted(res, base, quote)
    ensures Departs(res, base, quote, Skew(res, base, quote))
  {
    if PairOf(base, quote) in res.rates {
      DivMul(res.rates[PairOf(base, quote)] * Value(res, base), Value(res, quote));
    }
  }

  lemma LegDeparture(res: ApiResponse, base: string, quote: string) returns (skew: real)
    requires Quoted(res, base, quote)
    ensures Departs(res, base, quote, skew)
  {
    skew := Skew(res, base, quote);
    SkewDeparts(res, base, quote);
  }

  lemma SkewIsOne(res: ApiResponse, base: string, quote: string, skew: real)
    requires Departs(res, base, quote, skew)
    ensures skew == 1.0 <==> Agrees(res, base, quote)
  {
    if PairOf(base, quote) in res.rates {
      FactorIsOne(skew, Value(res, quote), res.rates[PairOf(base, quote)] * Value(res, base));
    }
  }

  lemma FactorIsOne(s: real, b: real, c: real)
    requires b != 0.0 && s * b == c
    ensures s == 1.0 <==> c == b
  {
    assert (s - 1.0) * b == s * b - b;
  }

  predicate Turns(rate: real, a: real, skew: real, b: real) { rate * a == skew * b }

  /** A rate turns the value of the base into the value of the quote, times its key's departure. */
  lemma RateCarries(res: ApiResponse, base: string, quote: string, rate: real, skew: real)
    requires Rated(res, base, quote, rate) && Departs(res, base, quote, skew)
    ensures Turns(rate, Value(res, base), skew, Value(res, quote))
  {
    if PairOf(base, quote) !in res.rates {
      CrossCarries(res, base, quote);
    }
  }

  /** What Get answers for the pair. */
  predicate Answers(res: ApiResponse, base: string, quote: string, price: real) {
    Get(PairOf(base, quote), Ok(res)).Ok? && Get(PairOf(base, quote), Ok(res)).value.price == price
  }

  lemma AnswerIsRate(res: ApiResponse, base: string, quote: string, price: real)
    requires Quoted(res, base, quote)
    ensures Answers(res, base, quote, price) <==> Rated(res, base, quote, price)
  {
    PairIsValid(base, quote);
    SplitPair(base, quote);
    CrossIsRatio(res, base, quote);
  }

  // products along a path, on numbers alone

  function Product(prices: seq<real>): real {
    if prices == [] then 1.0 else Product(prices[..|prices| - 1]) * prices[|prices| - 1]
  }

  lemma ChainTwo(p: real, r: real, s: real, t: real, a: real, b: real, c: real)
    requires p * a == s * b && r * b == t * c
    ensures (p * r) * a == (s * t) * c
  {
    assert (p * r) * a == r * (p * a);
    assert r * (s * b) == s * (r * b);
    assert s * (t * c) == (s * t) * c;
  }

  lemma SameFactor(p: real, s: real, a: real, b: real)
    requires a != 0.0 && a == b && p * a == s * b
    ensures p == s
  {
    assert (p - s) * a == 0.0;
  }

  predicate RatedAt(res: ApiResponse, path: seq<string>, rates: seq<real>, i: nat)
    requires |path| == |rates| + 1 && i < |rates|
  {
    Rated(res, path[i], path[i + 1], rates[i])
  }

  predicate DepartsAt(res: ApiResponse, path: seq<string>, skews: seq<real>, i: nat)
    requires |path| == |skews| + 1 && i < |skews|
  {
    Departs(res, path[i], path[i + 1], skews[i])
  }

  /** The factors by which the rates along the path depart from the table. */
  predicate Departures(res: ApiResponse, path: seq<string>, skews: seq<real>) {
    |path| == |skews| + 1 && forall i :: 0 <= i < |skews| ==> DepartsAt(res, path, skews, i)
  }

  function StopValue(res: ApiResponse, c: string): real {
    if Known(res, c) then Value(res, c) else 0.0
  }

  /** The value of each stop of the path. */
  function Values(res: ApiResponse, path: seq<string>): (vs: seq<real>)
    ensures |vs| == |path|
  {
    seq(|path|, i requires 0 <= i < |path| => StopValue(res, path[i]))
  }

  predicate CarriesAt(values: seq<real>, rates: seq<real>, skews: seq<real>, i: nat)
    requires |values| == |rates| + 1 && |skews| == |rates| && i < |rates|
  {
    Turns(rates[i], values[i], skews[i], values[i + 1])
  }

  predicate Carries(values: seq<real>, rates: seq<real>, skews: seq<real>) {
    && |values| == |rates| + 1 && |skews| == |rates|
    && forall i :: 0 <= i < |rates| ==> CarriesAt(values, rates, skews, i)
  }

  lemma {:induction false} ProductCarries(values: seq<real>, rates: seq<real>, skews: seq<real>)
    requires Carries(values, rates, skews)
    ensures Product(rates) * values[0] == Product(skews) * values[|rates|]
  {
    if rates != [] {
      var n := |rates| - 1;
      var vs, rs, ss := values[..n + 1], rates[..n], skews[..n];
      forall i | 0 <= i < n ensures CarriesAt(vs, rs, ss, i) {
        assert CarriesAt(values, rates, skews, i);
      }
      ProductCarries(vs, rs, ss);
      assert CarriesAt(values, rates, skews, n);
      ChainTwo(Product(rs), rates[n], Product(ss), skews[n], values[0], values[n], values[n + 1]);
    }
  }

  lemma LegCarries(res: ApiResponse, path: seq<string>, rates: seq<real>, skews: seq<real>, i: nat)
    requires |path| == |rates| + 1 && |skews| == |rates| && i < |rates|
    requires RatedAt(res, path, rates, i) && DepartsAt(res, path, skews, i)
    ensures CarriesAt(Values(res, path), rates, skews, i)
  {
    RateCarries(res, path[i], path[i + 1], rates[i], skews[i]);
  }

  lemma PathCarries(res: ApiResponse, path: seq<string>, rates: seq<real>, skews: seq<real>)
    requires |path| == |rates| + 1 && Departures(res, path, skews)
    requires forall i :: 0 <= i < |rates| ==> RatedAt(res, path, rates, i)
    ensures Carries(Values(res, path), rates, skews)
  {
    forall i | 0 <= i < |rates| ensures CarriesAt(Values(res, path), rates, skews, i) {
      LegCarries(res, path, rates, skews, i);
    }
  }

  /** Exchanging at these rates turns a value of a into one of b, times the departures. */
  predicate Exchanges(a: real, rates: seq<real>, skews: seq<real>, b: real) {
    Product(rates) * a == Product(skews) * b
  }

  lemma ProductBetween(values: seq<real>, rates: seq<real>, skews: seq<real>, a: real, b: real)
    requires Carries(values, rates, skews) && values[0] == a && values[|rates|] == b
    ensures Exchanges(a, rates, skews, b)
  {
    ProductCarries(values, rates, skews);
  }

  lemma ClosedProduct(values: seq<real>, rates: seq<real>, skews: seq<real>)
    requires Carries(values, rates, skews) && values[0] == values[|rates|] != 0.0
    ensures Product(rates) == Product(skews)
  {
    ProductCarries(values, rates, skews);
    SameFactor(Product(rates), Product(skews), values[0], values[|rates|]);
  }

  /** Both currencies of leg i are priced, and prices[i] is what Get answers for it. */
  predicate AnsweredAt(res: ApiResponse, path: seq<string>, prices: seq<real>, i: nat)
    requires |path| == |prices| + 1 && i < |prices|
  {
    Quoted(res, path[i], path[i + 1]) && Answers(res, path[i], path[i + 1], prices[i])
  }

  /** The prices Get answers along the path. */
  predicate Answered(res: ApiResponse, path: seq<string>, prices: seq<real>) {
    |path| == |prices| + 1 && forall i :: 0 <= i < |prices| ==> AnsweredAt(res, path, prices, i)
  }

  lemma AnsweredIsRated(res: ApiResponse, path: seq<string>, prices: seq<real>)
    requires Answered(res, path, prices)
    ensures forall i :: 0 <= i < |prices| ==> RatedAt(res, path, prices, i)
  {
    forall i | 0 <= i < |prices| ensures RatedAt(res, path, prices, i) {
      assert AnsweredAt(res, path, prices, i);
      AnswerIsRate(res, path[i], path[i + 1], prices[i]);
    }
  }

  lemma EndsPriced(res: ApiResponse, path: seq<string>, rates: seq<real>)
    requires |path| == |rates| + 1 && rates != []
    requires forall i :: 0 <= i < |rates| ==> RatedAt(res, path, rates, i)
    ensures Priced(res, path[0]) && Priced(res, path[|rates|])
    ensures Values(res, path)[0] == Value(res, path[0]) && Values(res, path)[|rates|] == Value(res, path[|rates|])
  {
    assert RatedAt(res, path, rates, 0) && RatedAt(res, path, rates, |rates| - 1);
  }

  lemma PathFacts(res: ApiResponse, path: seq<string>, prices: seq<real>, skews: seq<real>)
    requires Answered(res, path, prices) && Departures(res, path, skews) && prices != []
    ensures Priced(res, path[0]) && Priced(res, path[|prices|])
    ensures Values(res, path)[0] == Value(res, path[0]) && Values(res, path)[|prices|] == Value(res, path[|prices|])
    ensures Carries(Values(res, path), prices, skews)
  {
    AnsweredIsRated(res, path, prices);
    EndsPriced(res, path, prices);
    PathCarries(res, path, prices, skews);
  }

  /** However long the path, exchanging along it is worth what its ends say, times what its keys depart by. */
  lemma AlongPath(res: ApiResponse, path: seq<string>, prices: seq<real>, skews: seq<real>)
    requires Answered(res, path, prices) && Departures(res, path, skews) && prices != []
    ensures Priced(res, path[0]) && Priced(res, path[|prices|])
    ensures Exchanges(Value(res, path[0]), prices, skews, Value(res, path[|prices|]))
  {
    PathFacts(res, path, prices, skews);
    ProductBetween(Values(res, path), prices, skews, Value(res, path[0]), Value(res, path[|prices|]));
  }

  /** A closed path of any length is worth exactly the product of its keys' departures. */
  lemma ClosedPath(res: ApiResponse, path: seq<string>, prices: seq<real>, skews: seq<real>)
    requires Answered(res, path, prices) && Departures(res, path, skews) && path[|prices|] == path[0]
    ensures Product(prices) == Product(skews)
  {
    if prices != [] {
      PathFacts(res, path, prices, skews);
      ClosedProduct(Values(res, path), prices, skews);
    } else {
      assert skews == [];
    }
  }

  /** Every answered path has its departures. */
  lemma HasDepartures(res: ApiResponse, path: seq<string>, prices: seq<real>) returns (skews: seq<real>)
    requires Answered(res, path, prices)
    ensures Departures(res, path, skews)
  {
    skews := seq(|prices|, i requires 0 <= i < |prices| => LegSkew(res, path[i], path[i + 1]));
    forall i | 0 <= i < |skews| ensures DepartsAt(res, path, skews, i) {
      assert AnsweredAt(res, path, prices, i);
      SkewDeparts(res, path[i], path[i + 1]);
    }
  }

  /** Every closed path has such departures, and it gains or loses exactly when their product is not 1. */
  lemma ClosedPathGains(res: ApiResponse, path: seq<string>, prices: seq<real>) returns (skews: seq<real>)
    requires Answered(res, path, prices) && path[|prices|] == path[0]
    ensures Departures(res, path, skews)
    ensures Product(prices) == 1.0 <==> Product(skews) == 1.0
  {
    skews := HasDepartures(res, path, prices);
    ClosedPath(res, path, prices, skews);
  }

  predicate AgreesAt(res: ApiResponse, path: seq<string>, i: nat)
    requires i + 1 < |path|
  {
    Quoted(res, path[i], path[i + 1]) && Agrees(res, path[i], path[i + 1])
  }

  function Ones(n: nat): seq<real> { seq(n, i => 1.0) }

  lemma {:induction false} ProductOfOnes(n: nat)
    ensures Product(Ones(n)) == 1.0
  {
    if n > 0 {
      assert Ones(n)[..n - 1] == Ones(n - 1);
      ProductOfOnes(n - 1);
    }
  }

  /** So without exact-pair keys, or with keys that agree, no closed path gains or loses anything. */
  lemma NoArbitrage(res: ApiResponse, path: seq<string>, prices: seq<real>)
    requires Answered(res, path, prices) && path[|prices|] == path[0]
    requires forall i :: 0 <= i < |prices| ==> AgreesAt(res, path, i)
    ensures Product(prices) == 1.0
  {
    var skews := Ones(|prices|);
    forall i | 0 <= i < |prices| ensures DepartsAt(res, path, skews, i) {
      assert AgreesAt(res, path, i);
    }
    ProductOfOnes(|prices|);
    ClosedPath(res, path, prices, skews);
  }

  lemma FactorOne(x: real, y: real, a: real, b: real, skew: real)
    requires a != 0.0 && b != 0.0 && Turns(x, a, skew, b) && Turns(y, b, 1.0, a)
    ensures Even(x, y) <==> skew == 1.0
  {
    assert (x * y) * (a * b) == (x * a) * (y * b);
    assert (skew * b) * a == skew * (a * b);
    SameFactor(x * y, skew, a * b, a * b);
  }

  /** Where the response prices both currencies, Get answers, whatever the keys. */
  lemma QuotedIsAnswered(res: ApiResponse, base: string, quote: string)
    requires Quoted(res, base, quote)
    ensures exists price :: Answers(res, base, quote, price)
  {
    PairIsValid(base, quote);
    SplitPair(base, quote);
    CrossIsRatio(res, base, quote);
    assert Answers(res, base, quote, Get(PairOf(base, quote), Ok(res)).value.price);
  }

  /** One exact key: there and back again is worth 1 exactly when the key agrees with the table. */
  lemma OneExactKey(res: ApiResponse, base: string, quote: string, there: real, back: real)
    requires Quoted(res, base, quote)
    requires PairOf(base, quote) in res.rates && PairOf(quote, base) !in res.rates
    requires Answers(res, base, quote, there) && Answers(res, quote, base, back)
    ensures Even(there, back) <==> Agrees(res, base, quote)
  {
    AnswerIsRate(res, base, quote, there);
    AnswerIsRate(res, quote, base, back);
    RateThereAndBack(res, base, quote, there, back);
  }

  /** There and back again is worth exactly 1. */
  predicate Even(there: real, back: real) { there * back == 1.0 }

  lemma RateThereAndBack(res: ApiResponse, base: string, quote: string, x: real, y: real)
    requires Rated(res, base, quote, x) && Rated(res, quote, base, y) && Agrees(res, quote, base)
    ensures Even(x, y) <==> Agrees(res, base, quote)
  {
    var skew := LegDeparture(res, base, quote);
    RateCarries(res, base, quote, x, skew);
    RateCarries(res, quote, base, y, 1.0);
    SkewIsOne(res, base, quote, skew);
    FactorOne(x, y, Value(res, base), Value(res, quote), skew);
  }

  /** A key for each direction: both are used as they are, and whatever the table says only their product counts. */
  lemma TwoExactKeys(res: ApiResponse, base: string, quote: string)
    requires res.success && res.error.None? && base in SUPPORTED && quote in SUPPORTED && base != quote
    requires PairOf(base, quote) in res.rates && PairOf(quote, base) in res.rates
    ensures
      var there, back := Get(PairOf(base, quote), Ok(res)), Get(PairOf(quote, base), Ok(res));
      && there.Ok? && there.value.price == res.rates[PairOf(base, quote)]
      && back.Ok? && back.value.price == res.rates[PairOf(quote, base)]
  {
    PairIsValid(base, quote);
    PairIsValid(quote, base);
    SplitPair(base, quote);
    SplitPair(quote, base);
  }

  /** For instance, a key that disagrees makes there and back again worth one half more. */
  lemma ExactKeyCanGain()
    ensures
      var res := ApiResponse(true, 0, "EUR", map["USD" := 2.0, "EUR/USD" := 3.0], None);
      Answers(res, "EUR", "USD", 3.0) && Answers(res, "USD", "EUR", 0.5) && Product([3.0, 0.5]) == 1.5
  {
    PairIsValid("EUR", "USD");
    PairIsValid("USD", "EUR");
    SplitPair("EUR", "USD");
    SplitPair("USD", "EUR");
    assert PairOf("EUR", "USD") == "EUR/USD";
    assert PairOf("USD", "EUR")[0] == 'U' && |PairOf("USD", "EUR")| == 7;
    assert [3.0, 0.5][..1] == [3.0] && [3.0][..0] == [];
    assert Product([3.0]) == Product([3.0][..0]) * 3.0;
  }

  /** The same table told from another currency. */
  function Rebase(res: ApiResponse, base: string): ApiResponse
    requires Known(res, base) && Value(res, base) != 0.0
  {
    res.(base := base,
      rates := map c | c in res.rates.Keys + {res.base} ::
        if Known(res, c) then Value(res, c) / Value(res, base) else 0.0)
  }

  lemma Cancel(a: real, b: real, n: real)
    requires a != 0.0 && n != 0.0
    ensures a / n != 0.0 && (b / n) / (a / n) == b / a
  {
    var x := a / n;
    assert x * n == a;
    var y := b / n;
    assert y * n == b;
    assert (y / x) * a == (y / x) * x * n == y * n == b;
  }

  lemma SelfRatio(n: real)
    requires n != 0.0
    ensures n / n == 1.0
  {
  }

  lemma RebasedValue(res: ApiResponse, to: string, c: string)
    requires Known(res, to) && Value(res, to) != 0.0 && Known(res, c)
    ensures Known(Rebase(res, to), c) && Value(Rebase(res, to), c) == Value(res, c) / Value(res, to)
  {
    if c == to {
      SelfRatio(Value(res, to));
    }
  }

  /** Which currency the provider quotes against changes no cross rate, and no rate's existence. */
  lemma RebaseKeepsPrices(res: ApiResponse, to: string, base: string, quote: string)
    requires Known(res, to) && Value(res, to) != 0.0 && base != quote
    ensures CrossRate(Rebase(res, to), base, quote).Ok? <==> CrossRate(res, base, quote).Ok?
    ensures CrossRate(res, base, quote).Ok? ==>
      CrossRate(Rebase(res, to), base, quote).value == CrossRate(res, base, quote).value
  {
    var res', n := Rebase(res, to), Value(res, to);
    CrossIsRatio(res, base, quote);
    CrossIsRatio(res', base, quote);
    forall c | Known(res, c) ensures Known(res', c) && Value(res', c) == Value(res, c) / n {
      RebasedValue(res, to, c);
    }
    assert forall c :: Known(res', c) ==> Known(res, c);
    if Known(res, base) && Known(res, quote) {
      if Value(res, base) != 0.0 {
        Cancel(Value(res, base), Value(res, quote), n);
      }
    }
  }

  /** So Get answers the same after it, whatever the answer, for a pair without an exact key. */
  lemma RebaseKeepsAnswers(res: ApiResponse, to: string, pair: string)
    requires Known(res, to) && Value(res, to) != 0.0
    requires pair !in res.rates && pair != res.base
    ensures Get(pair, Ok(Rebase(res, to))).Ok? <==> Get(pair, Ok(res)).Ok?
    ensures Get(pair, Ok(res)).Ok? ==> Get(pair, Ok(Rebase(res, to))) == Get(pair, Ok(res))
  {
    if ValidatePair(pair) {
      RebaseKeepsPrices(res, to, pair[..3], pair[4..]);
    }
  }

  lemma StoredInverse(x: real, y: real)
    requires x * y == 1.0
    ensures Abs(Stored(x) * Stored(y) - 1.0) <= (Abs(x) + Abs(y)) * HALF + HALF * HALF
  {
    StoredProduct(x, y);
  }

  /** A pair and its reverse, fetched and stored, multiply to 1 within the rounding of both. */
  lemma StoredRoundTrip(res: ApiResponse, base: string, quote: string, x: real, y: real)
    requires Quoted(res, base, quote) && Agrees(res, base, quote) && Answers(res, base, quote, x)
    requires Quoted(res, quote, base) && Agrees(res, quote, base) && Answers(res, quote, base, y)
    ensures Abs(Stored(x) * Stored(y) - 1.0) <= (Abs(x) + Abs(y)) * 0.0000005 + 0.00000000000025
  {
    AnswerIsRate(res, base, quote, x);
    AnswerIsRate(res, quote, base, y);
    RateThereAndBack(res, base, quote, x, y);
    StoredInverse(x, y);
  }
}
